/** The client recovers: as long as nobody stops it, nothing more is killed and the broker refuses nothing
    that it could grant, it comes to rest after a bounded number of steps, however it is scheduled, and
    then both resources are alive, everything is declared and everybody has been told. And what is still
    alive it keeps. */
module RabbitRecovery {
  import opened Basics
  import opened RabbitTopology
  import opened RabbitModel
  import opened RabbitInvariant
  import opened RabbitSafety
  import opened RabbitTheorems
  import opened RabbitProgress
  import opened RabbitEvents

  // Calm runs

  /** A step of the loop or of a watcher. The broker refuses only what is dead. */
  predicate Calm(s: State, l: Label) {
    match l
    case Loop(b) =>
      b.Fails? ==> (s.pc.OpenChan? && !ConnOpen(s, s.pc.k)) || (s.pc.Declaring? && !ChanOpen(s, s.pc.h))
    case Watching(_) => true
    case _ => false
  }

  predicate CalmRun(s: State, ls: seq<Label>)
    decreases |ls|
  {
    ls == [] || (Enabled(s, ls[0]) && Calm(s, ls[0]) && CalmRun(Apply(s, ls[0]), ls[1..]))
  }

  /** The loop has seen nothing dead since it passed its head. */
  predicate OnCourse(s: State) {
    match s.pc
    case ReadAlive => true
    case TestAlive(_) => true
    case DropTake => true
    case DropClose(_) => true
    case Dialing => true
    case StoreConn(k) => ConnOpen(s, k)
    case WatchConn(k, _) => ConnOpen(s, k)
    case ReadConn => s.conn.Some? && ConnOpen(s, s.conn.value)
    case TestConn(c) => c.Some? && ConnOpen(s, c.value)
    case OpenChan(k) => ConnOpen(s, k)
    case Declaring(h, _) => ChanOpen(s, h)
    case StoreChan(h) => ChanOpen(s, h)
    case WatchChan(h, _) => ChanOpen(s, h) && s.channel == Some(h)
    case Announcing => s.channel.Some? && ChanOpen(s, s.channel.value)
    case Snapshot => s.channel.Some? && ChanOpen(s, s.channel.value)
    case Parked(_, _) => s.channel.Some? && ChanOpen(s, s.channel.value)
    case _ => false
  }

  /** A bound on the calm steps: at most one pass of the loop may still find something dead. */
  function Recovery(s: State): nat { Measure(s) + (if OnCourse(s) then 0 else 32 + |s.ops|) }

  lemma JumpCourse(s: State, b: Branch)
    requires Inv(s) && !Stopped(s) && CanLoop(s, b) && Jumps(s.pc, b) && Calm(s, Loop(b)) && OnCourse(s)
    ensures OnCourse(s.(pc := Jump(s, b)))
  {
    hide IndexOk, LogsOk, EventsOk, ConnOwners, ChanOwners;
  }

  lemma ConnPartCourse(s: State)
    requires ConnPart(s.pc) && OnCourse(s) && At(s) && !s.doneClosed
    ensures OnCourse(DoConnPart(s))
  {
  }

  lemma DeclaringCourse(s: State, h: nat, i: nat)
    requires s.pc == Declaring(h, i) && ChanOpen(s, h)
    ensures OnCourse(DoDeclaring(s, h, i, true))
  {
  }

  lemma ShortStepCourse(s: State)
    requires OnCourse(s)
    ensures s.pc.OpenChan? ==> OnCourse(DoOpenChan(s, s.pc.k))
    ensures s.pc.StoreChan? ==> OnCourse(DoStoreChan(s, s.pc.h))
    ensures s.pc.WatchChan? ==> OnCourse(Watch(s, TheChan(s.pc.h), s.pc.tok).(pc := Announcing))
    ensures s.pc.Announcing? ==> OnCourse(Announce(s))
    ensures !s.pc.AbandonChan?
  {
  }

  lemma ChanPartCourse(s: State, b: Branch)
    requires ChanPart(s.pc) && CanLoop(s, b) && Calm(s, Loop(b)) && !Jumps(s.pc, b) && OnCourse(s)
    ensures OnCourse(DoChanPart(s, b))
  {
    if s.pc.Declaring? {
      hide DoDeclaring;
      DeclaringCourse(s, s.pc.h, s.pc.i);
    } else {
      hide DoDeclaring, ShutChan, OnCourse;
      ShortStepCourse(s);
    }
  }

  lemma LoopCourse(s: State, b: Branch)
    requires Inv(s) && !Stopped(s) && CanLoop(s, b) && Calm(s, Loop(b)) && OnCourse(s)
    ensures OnCourse(DoLoop(s, b))
  {
    assert At(s);
    hide DoConnPart, DoChanPart, DoTearing, Inv, At, Jump;
    if Jumps(s.pc, b) {
      JumpCourse(s, b);
    } else if ConnPart(s.pc) {
      ConnPartCourse(s);
    } else {
      ChanPartCourse(s, b);
    }
  }

  lemma LoopRecovers(s: State, b: Branch)
    requires Inv(s) && !Stopped(s) && CanLoop(s, b) && Calm(s, Loop(b))
    ensures Recovery(DoLoop(s, b)) < Recovery(s)
  {
    if OnCourse(s) { LoopCourse(s, b) by { hide *; } }
    if s.pc.Head? {
      assert DoLoop(s, b) == s.(pc := ReadAlive);
    } else {
      hide Measure, DoLoop, Inv, OnCourse, Stopped, CanLoop;
      LoopDrops(s, b);
    }
  }

  lemma WatchRecovers(s: State, w: nat)
    requires Inv(s) && CanWatch(s, w)
    ensures Recovery(DoWatch(s, w)) < Recovery(s)
  {
    hide Measure, Inv, DoWatch, CanWatch;
    WatchDrops(s, w);
  }

  /** A started client that nobody has stopped. */
  predicate Running(s: State) { s.started && !Stopped(s) }

  lemma StepRecovers(s: State, l: Label)
    requires Inv(s) && Running(s) && Enabled(s, l) && Calm(s, l)
    ensures Recovery(Apply(s, l)) < Recovery(s) && Running(Apply(s, l)) && Inv(Apply(s, l))
  {
    StepKept(s, l) by { hide *; }
    hide Inv, Recovery, DoLoop, CanLoop, DoWatch, CanWatch;
    if l.Loop? {
      LoopRecovers(s, l.b);
    } else {
      WatchRecovers(s, l.w);
      WatchLeaves(s, l.w);
    }
  }

  lemma {:induction false} RunRecovers(s: State, ls: seq<Label>)
    requires Inv(s) && Running(s) && CalmRun(s, ls)
    ensures IsRun(s, ls) && Inv(After(s, ls)) && Running(After(s, ls))
    ensures |ls| + Recovery(After(s, ls)) <= Recovery(s)
    decreases |ls|
  {
    hide Inv, Recovery, Enabled, Apply, Running, Calm;
    if ls != [] {
      StepRecovers(s, ls[0]);
      RunRecovers(Apply(s, ls[0]), ls[1..]);
    }
  }

  // Where calm runs end

  ghost predicate CalmGoesOn(s: State) { exists l :: Enabled(s, l) && Calm(s, l) }

  /** Both resources are alive and in the fields, the whole topology is declared on the channel, and the
      last that anybody has heard is that the client is connected with it. */
  predicate Healthy(s: State, topo: Topology) {
    && s.pc.Parked?
    && s.conn.Some? && ConnOpen(s, s.conn.value)
    && s.channel.Some? && ChanOpen(s, s.channel.value) && s.chans[s.channel.value].conn == s.conn.value
    && Declares(topo, s.chans[s.channel.value].log)
    && s.events != [] && s.events[|s.events| - 1] == Connected(s.channel.value)
  }

  lemma LoopRestsParked(s: State)
    requires Inv(s) && Running(s) && !CalmGoesOn(s) && !s.pc.Ended?
    ensures s.pc.Parked?
  {
    hide IndexOk, WatchOk, LogsOk, EventsOk, FieldsOk, ConnOwners, ChanOwners;
    assert !(Enabled(s, Loop(Plain)) && Calm(s, Loop(Plain)));
    assert !(Enabled(s, Loop(Fails)) && Calm(s, Loop(Fails)));
    assert !(Enabled(s, Loop(OnTimer)) && Calm(s, Loop(OnTimer)));
    assert !(Enabled(s, Loop(OnStop)) && Calm(s, Loop(OnStop)));
  }

  /** A parked loop that no calm step wakes waits for two living resources. */
  lemma ParkedRests(s: State)
    requires Reachable(s) && Running(s) && s.pc.Parked? && !CalmGoesOn(s)
    ensures s.conn.Some? && ConnOpen(s, s.conn.value)
    ensures s.channel.Some? && ChanOpen(s, s.channel.value) && s.chans[s.channel.value].conn == s.conn.value
  {
    ParkedOnTheNewest(s);
    NoLostWakeUp(s, s.pc.ct);
    NoLostWakeUp(s, s.pc.ht);
    assert !(Enabled(s, Loop(OnConn)) && Calm(s, Loop(OnConn)));
    assert !(Enabled(s, Loop(OnChan)) && Calm(s, Loop(OnChan)));
    assert !(Enabled(s, Watching(s.pc.ct.value)) && Calm(s, Watching(s.pc.ct.value)));
    assert !(Enabled(s, Watching(s.pc.ht.value)) && Calm(s, Watching(s.pc.ht.value)));
    hide Reachable, CalmGoesOn, CanWatch;
  }

  lemma RestIsHealthy(topo: Topology, ls: seq<Label>, s: State)
    requires Reaches(topo, ls, s) && Running(s) && !CalmGoesOn(s)
    ensures Healthy(s, topo)
  {
    assert Reachable(s);
    ReachedOps(topo, ls, s);
    assert !s.doneClosed && !Stopped(s);
    hide Inv, Reaches, Complete, Declares, Ops, Reachable, Running, CalmGoesOn, Stopped;
    if s.pc.Ended? { EndedIsStopped(topo, ls, s); }
    LoopRestsParked(s);
    ParkedRests(s);
    ParkedIsAnnounced(s);
    ConnectedMeansDeclared(topo, ls, s, |s.events| - 1);
  }

  /** From any reachable state of a running client every calm run comes to its end within Recovery(s)
      steps, and then the client is healthy. */
  lemma {:induction false} Recovers(topo: Topology, before: seq<Label>, s: State, ls: seq<Label>)
    requires Reaches(topo, before, s) && Running(s) && CalmRun(s, ls)
    ensures |ls| <= Recovery(s) && IsRun(s, ls)
    ensures !CalmGoesOn(After(s, ls)) ==> Healthy(After(s, ls), topo)
  {
    ReachedOps(topo, before, s);
    hide Inv, Running, Recovery, Healthy, CalmGoesOn, Enabled, Apply;
    RunRecovers(s, ls);
    RunAppend(Init(topo), before, ls);
    assert Reaches(topo, before + ls, After(s, ls));
    hide Reaches, IsRun, After;
    if !CalmGoesOn(After(s, ls)) { RestIsHealthy(topo, before + ls, After(s, ls)); }
  }

  lemma {:induction false} CalmEnds(s: State) returns (ls: seq<Label>)
    requires Inv(s) && Running(s)
    ensures CalmRun(s, ls) && IsRun(s, ls) && !CalmGoesOn(After(s, ls))
    decreases Recovery(s)
  {
    if l :| Enabled(s, l) && Calm(s, l) {
      hide Inv, Running, Recovery, Enabled, Apply, CalmGoesOn;
      StepRecovers(s, l);
      var rest := CalmEnds(Apply(s, l));
      ls := [l] + rest;
      assert ls[0] == l && ls[1..] == rest;
    } else {
      ls := [];
    }
  }

  /** There is such a run from every such state: the client can always recover. */
  lemma {:induction false} CanRecover(topo: Topology, before: seq<Label>, s: State) returns (ls: seq<Label>)
    requires Reaches(topo, before, s) && Running(s)
    ensures CalmRun(s, ls) && IsRun(s, ls) && Healthy(After(s, ls), topo)
  {
    ReachedOps(topo, before, s);
    hide Inv, Running, Recovery, Healthy, CalmGoesOn, Enabled, Apply, Reaches;
    ls := CalmEnds(s);
    Recovers(topo, before, s, ls);
  }

  // A living connection is kept

  /** Connection `k` is in the field and open, and nothing that the loop has seen makes it drop it. */
  predicate Keeping(s: State, k: nat) {
    && !s.doneClosed && s.conn == Some(k) && ConnOpen(s, k)
    && match s.pc {
         case Head => true
         case ReadAlive => true
         case TestAlive(_) => true
         case ReadConn => true
         case TestConn(_) => true
         case OpenChan(c) => c == k
         case Declaring(h, _) => true
         case StoreChan(_) => true
         case WatchConn(_, _) => true
         case WatchChan(_, _) => true
         case Announcing => true
         case Snapshot => true
         case Parked(_, _) => true
         case Recheck(_) => true
         case Tearing(t, full, thenWait) => !full && !thenWait && !t.TakeConn? && !t.CloseConn?
         case Ended => true
         case _ => false
       }
  }

  /** Neither Stop nor the broker nor a refusal touches the connection. */
  predicate Spares(l: Label, k: nat) { !l.Stopping? && l != KillConn(k) && l != Loop(Fails) }

  lemma JumpKeeps(s: State, b: Branch, k: nat)
    requires Inv(s) && Keeping(s, k) && CanLoop(s, b) && Jumps(s.pc, b) && !b.Fails?
    ensures Keeping(s.(pc := Jump(s, b)), k)
  {
    hide IndexOk, LogsOk, EventsOk, ConnOwners, ChanOwners;
  }

  lemma PartsKeep(s: State, b: Branch, k: nat)
    requires Keeping(s, k) && CanLoop(s, b) && !Jumps(s.pc, b) && !b.Fails?
    ensures ConnPart(s.pc) ==> Keeping(DoConnPart(s), k) && |DoConnPart(s).conns| == |s.conns|
    ensures s.pc.Tearing? ==> Keeping(DoTearing(s), k) && |DoTearing(s).conns| == |s.conns|
  {
  }

  lemma ChanPartKeeps(s: State, b: Branch, k: nat)
    requires Keeping(s, k) && CanLoop(s, b) && !Jumps(s.pc, b) && !b.Fails? && ChanPart(s.pc)
    ensures Keeping(DoChanPart(s, b), k)
  {
  }

  lemma LoopKeeps(s: State, b: Branch, k: nat)
    requires Inv(s) && Keeping(s, k) && CanLoop(s, b) && !b.Fails?
    ensures Keeping(DoLoop(s, b), k) && |DoLoop(s, b).conns| == |s.conns|
  {
    hide Inv, Keeping, DoConnPart, DoChanPart, DoTearing, Jump;
    if Jumps(s.pc, b) {
      JumpKeeps(s, b, k);
    } else if ChanPart(s.pc) {
      ChanPartKeeps(s, b, k);
    } else {
      PartsKeep(s, b, k);
    }
  }

  lemma OthersKeep(s: State, l: Label, k: nat)
    requires StopOk(s) && Keeping(s, k) && Enabled(s, l) && !l.Loop? && Spares(l, k)
    ensures Keeping(Apply(s, l), k) && |Apply(s, l).conns| == |s.conns|
  {
    hide DoWatch;
  }

  lemma {:induction false} RunKeeps(s: State, ls: seq<Label>, k: nat)
    requires Inv(s) && Keeping(s, k) && IsRun(s, ls) && forall l | l in ls :: Spares(l, k)
    ensures Keeping(After(s, ls), k) && |After(s, ls).conns| == |s.conns|
    decreases |ls|
  {
    if ls != [] {
      var l := ls[0];
      assert Spares(l, k);
      assert StopOk(s);
      StepKept(s, l) by { hide *; }
      hide Inv, Keeping, DoLoop, CanLoop, IsRun;
      if l.Loop? {
        LoopKeeps(s, l.b, k);
      } else {
        OthersKeep(s, l, k);
      }
      hide Apply, Enabled;
      RunKeeps(Apply(s, l), ls[1..], k);
    }
  }

  /** When only the channel is lost, the loop reopens it on the connection that it has: in every run from
      the loop head or the select, the connection in the field stays there, is not closed and no other is
      dialled, unless Stop goes on, the broker kills that connection, or it refuses a channel on it. */
  lemma {:induction false} KeepsConnection(s: State, ls: seq<Label>)
    requires Reachable(s) && (s.pc.Head? || s.pc.Parked?) && !s.doneClosed
    requires s.conn.Some? && ConnOpen(s, s.conn.value)
    requires IsRun(s, ls) && forall l | l in ls :: Spares(l, s.conn.value)
    ensures After(s, ls).conn == s.conn && ConnOpen(After(s, ls), s.conn.value)
    ensures |After(s, ls).conns| == |s.conns|
  {
    ReachableInv(s);
    hide Inv;
    assert Keeping(s, s.conn.value);
    RunKeeps(s, ls, s.conn.value);
  }
}
