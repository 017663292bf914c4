/** Once the client is stopped it comes to an end: without new calls only finitely many steps of the
    client remain, whatever the broker does and however they are scheduled, and when none is left the
    loop has ended and every Stop has returned. */
module RabbitProgress {
  import opened Basics
  import opened RabbitTopology
  import opened RabbitModel
  import opened RabbitInvariant
  import opened RabbitSafety
  import opened RabbitTheorems

  function TearRank(t: Tear): nat {
    match t case TearEvent => 7 case TakeChan => 6 case CloseChan(_) => 5 case TakeConn => 4 case CloseConn(_) => 3
  }

  /** A bound on the steps of a stopped loop. A step that starts a watcher pays for its four steps. */
  function Rank(s: State): nat {
    match s.pc
    case NotStarted => 0
    case Ended => 0
    case Head => 1
    case Waiting => 2
    case Tearing(t, _, _) => TearRank(t)
    case Recheck(_) => 8
    case AbandonChan(_) => 8
    case Parked(_, _) => 9
    case Snapshot => 10
    case Announcing => 11
    case WatchChan(_, _) => 16
    case StoreChan(_) => 17
    case Declaring(_, i) => 18 + (if i < |s.ops| then |s.ops| - i else 0)
    case OpenChan(_) => 19 + |s.ops|
    case TestConn(_) => 20 + |s.ops|
    case ReadConn => 21 + |s.ops|
    case WatchConn(_, _) => 26 + |s.ops|
    case StoreConn(_) => 27 + |s.ops|
    case Dialing => 28 + |s.ops|
    case DropClose(_) => 29 + |s.ops|
    case DropTake => 30 + |s.ops|
    case TestAlive(_) => 31 + |s.ops|
    case ReadAlive => 32 + |s.ops|
  }

  function WatcherWeight(x: Watcher): nat {
    match x.phase case Listening => 4 case Woken => 3 case Testing => 2 case Closing => 1 case Gone => 0
  }

  function WatcherWeights(xs: seq<Watcher>): seq<nat> {
    seq(|xs|, i requires 0 <= i < |xs| => WatcherWeight(xs[i]))
  }

  function StopWeight(p: Stopper): nat {
    match p case StopEnter => 8 case StopTear(t) => TearRank(t) case StopDone => 0
  }

  function StopWeights(ps: seq<Stopper>): seq<nat> { seq(|ps|, i requires 0 <= i < |ps| => StopWeight(ps[i])) }

  function Measure(s: State): nat { Rank(s) + Sum(WatcherWeights(s.watchers)) + Sum(StopWeights(s.stops)) }

  /** A step of the client, as opposed to a call, a cancel or a failure of the broker. */
  predicate Internal(l: Label) { l.Loop? || l.Watching? || l.Stopping? }

  predicate IsCall(l: Label) { l.Start? || l.CallStop? }

  // The loop

  /** The rank falls by one, and by five when a watcher is started. */
  predicate LoopPays(s: State, s': State) {
    || (s'.watchers == s.watchers && Rank(s') < Rank(s))
    || (Rank(s') + 5 <= Rank(s) && |s'.watchers| == |s.watchers| + 1 && s'.watchers[..|s.watchers|] == s.watchers
        && s'.watchers[|s.watchers|].phase.Listening?)
  }

  lemma JumpPays(s: State, b: Branch)
    requires CanLoop(s, b) && Jumps(s.pc, b) && (s.pc.Head? ==> Stopped(s))
    ensures LoopPays(s, s.(pc := Jump(s, b)))
  {
  }

  lemma ConnPartPays(s: State)
    requires ConnPart(s.pc)
    ensures LoopPays(s, DoConnPart(s))
  {
  }

  lemma DeclaringPays(s: State, h: nat, i: nat, ok: bool)
    requires s.pc == Declaring(h, i) && h < |s.chans| && (!ok ==> i < |s.ops|)
    ensures LoopPays(s, DoDeclaring(s, h, i, ok))
  {
  }

  lemma ShortStepPays(s: State)
    ensures s.pc.OpenChan? ==> LoopPays(s, DoOpenChan(s, s.pc.k))
    ensures s.pc.StoreChan? ==> LoopPays(s, DoStoreChan(s, s.pc.h))
    ensures s.pc.Announcing? ==> LoopPays(s, Announce(s))
  {
  }

  lemma AbandonPays(s: State)
    requires s.pc.AbandonChan?
    ensures LoopPays(s, ShutChan(s, Some(s.pc.h)).(pc := Tail(true, true)))
  {
    hide ShutChan;
  }

  lemma WatchChanPays(s: State)
    requires s.pc.WatchChan?
    ensures LoopPays(s, Watch(s, TheChan(s.pc.h), s.pc.tok).(pc := Announcing))
  {
  }

  lemma ChanPartPays(s: State, b: Branch)
    requires ChanPart(s.pc) && CanLoop(s, b) && !Jumps(s.pc, b)
    ensures LoopPays(s, DoChanPart(s, b))
  {
    hide LoopPays, DoOpenChan, DoDeclaring, ShutChan, DoStoreChan, Watch, Announce;
    if s.pc.Declaring? {
      DeclaringPays(s, s.pc.h, s.pc.i, !b.Fails?);
    } else if s.pc.AbandonChan? {
      AbandonPays(s);
    } else if s.pc.WatchChan? {
      WatchChanPays(s);
    } else {
      ShortStepPays(s);
    }
  }

  lemma TearPays(s: State)
    requires s.pc.Tearing?
    ensures LoopPays(s, DoTearing(s))
  {
  }

  lemma LoopDrops(s: State, b: Branch)
    requires CanLoop(s, b) && (s.pc.Head? ==> Stopped(s))
    ensures Measure(DoLoop(s, b)) < Measure(s)
  {
    var s' := DoLoop(s, b);
    assert LoopPays(s, s') by {
      hide LoopPays, DoConnPart, DoChanPart, DoTearing, Jump, CanLoop, Stopped;
      if Jumps(s.pc, b) {
        JumpPays(s, b);
      } else if ConnPart(s.pc) {
        ConnPartPays(s);
      } else if ChanPart(s.pc) {
        ChanPartPays(s, b);
      } else {
        TearPays(s);
      }
    }
    assert s'.stops == s.stops;
    hide DoLoop, Rank, CanLoop, Stopped;
    if s'.watchers != s.watchers {
      var x := s'.watchers[|s.watchers|];
      assert WatcherWeights(s'.watchers) == WatcherWeights(s.watchers) + [WatcherWeight(x)];
      SumAppend(WatcherWeights(s.watchers), WatcherWeight(x));
    }
  }

  // The watchers and Stop

  lemma WatcherPhase(s: State, w: nat)
    requires Inv(s) && CanWatch(s, w)
    ensures var s' := DoWatch(s, w);
            && |s'.watchers| == |s.watchers| && s'.watchers == s.watchers[w := s'.watchers[w]]
            && WatcherWeight(s'.watchers[w]) < WatcherWeight(s.watchers[w])
  {
    hide IndexOk, LogsOk, EventsOk, FieldsOk, At, ConnOwners, ChanOwners, StopOk;
    assert WatcherOk(s, w);
  }

  lemma WatchDrops(s: State, w: nat)
    requires Inv(s) && CanWatch(s, w)
    ensures Measure(DoWatch(s, w)) < Measure(s)
  {
    var s' := DoWatch(s, w);
    WatcherPhase(s, w) by { hide Inv; }
    assert s'.pc == s.pc && s'.ops == s.ops && s'.stops == s.stops;
    hide Inv, DoWatch, CanWatch;
    SumUpdate(WatcherWeights(s.watchers), w, WatcherWeight(s'.watchers[w]));
    assert WatcherWeights(s'.watchers) == WatcherWeights(s.watchers)[w := WatcherWeight(s'.watchers[w])];
  }

  lemma StopperMoves(s: State, j: nat)
    requires StopOk(s) && CanStop(s, j)
    ensures var s' := DoStop(s, j);
            && |s'.stops| == |s.stops| && s'.stops == s.stops[j := s'.stops[j]]
            && StopWeight(s'.stops[j]) < StopWeight(s.stops[j])
            && s'.pc == s.pc && s'.ops == s.ops && s'.watchers == s.watchers
  {
  }

  lemma StopDrops(s: State, j: nat)
    requires StopOk(s) && CanStop(s, j)
    ensures Measure(DoStop(s, j)) < Measure(s)
  {
    var s' := DoStop(s, j);
    StopperMoves(s, j);
    hide DoStop, StopOk;
    SumUpdate(StopWeights(s.stops), j, StopWeight(s'.stops[j]));
    assert StopWeights(s'.stops) == StopWeights(s.stops)[j := StopWeight(s'.stops[j])];
  }

  // Runs

  lemma ExternalLeaves(s: State, l: Label)
    requires Enabled(s, l) && !Internal(l) && !IsCall(l)
    ensures Measure(Apply(s, l)) == Measure(s) && (Stopped(s) ==> Stopped(Apply(s, l)))
  {
    var s' := Apply(s, l);
    hide ShutConn, ShutChan;
    assert s'.pc == s.pc && s'.ops == s.ops && s'.watchers == s.watchers && s'.stops == s.stops;
    hide Apply;
  }

  /** A step of the client lowers the measure, anything else but a call leaves it. */
  lemma StepDrops(s: State, l: Label)
    requires Inv(s) && Enabled(s, l) && (l.Loop? ==> Stopped(s)) && !IsCall(l)
    ensures Measure(Apply(s, l)) <= Measure(s) - (if Internal(l) then 1 else 0)
    ensures Stopped(s) ==> Stopped(Apply(s, l))
  {
    assert StopOk(s);
    hide Inv, StopOk, Measure, DoLoop, CanLoop, DoWatch, CanWatch, DoStop;
    match l {
      case Loop(b) => LoopDrops(s, b);
      case Watching(w) => WatchDrops(s, w); WatchLeaves(s, w);
      case Stopping(j) => StopDrops(s, j); StopLeaves(s, j);
      case CancelCtx => hide Stopped; ExternalLeaves(s, l);
      case KillConn(k) => hide Stopped; ExternalLeaves(s, l);
      case KillChan(h) => hide Stopped; ExternalLeaves(s, l);
    }
  }

  lemma WatchLeaves(s: State, w: nat)
    requires CanWatch(s, w)
    ensures Stopped(DoWatch(s, w)) == Stopped(s)
  {
  }

  lemma StopLeaves(s: State, j: nat)
    requires CanStop(s, j)
    ensures Stopped(s) ==> Stopped(DoStop(s, j))
  {
  }

  /** The steps of the client in a run. */
  function Steps(ls: seq<Label>): nat {
    if ls == [] then 0 else (if Internal(ls[0]) then 1 else 0) + Steps(ls[1..])
  }

  predicate NoCalls(ls: seq<Label>) { forall i | 0 <= i < |ls| :: !IsCall(ls[i]) }

  lemma {:induction false} RunDrops(s: State, ls: seq<Label>)
    requires Inv(s) && Stopped(s) && IsRun(s, ls) && NoCalls(ls)
    ensures Steps(ls) + Measure(After(s, ls)) <= Measure(s) && Stopped(After(s, ls))
    decreases |ls|
  {
    hide Inv, Enabled, Apply, Measure, Stopped, Internal;
    if ls != [] {
      StepDrops(s, ls[0]) by { assert !IsCall(ls[0]); }
      StepKept(s, ls[0]);
      assert NoCalls(ls[1..]) by { assert forall i | 0 <= i < |ls| - 1 :: ls[1..][i] == ls[i + 1]; }
      RunDrops(Apply(s, ls[0]), ls[1..]);
    }
  }

  /** A started and stopped client that can do no step has ended, and every Stop has returned. */
  predicate Over(s: State) { s.pc.Ended? && forall j | 0 <= j < |s.stops| :: s.stops[j].StopDone? }

  lemma StuckIsOver(s: State)
    requires Inv(s) && Stopped(s) && s.started && !CanMove(s)
    ensures Over(s)
  {
    hide IndexOk, WatchOk, LogsOk, EventsOk, FieldsOk, At, ConnOwners, ChanOwners;
    InvBlocks(s) by { hide Inv, CanMove; }
    assert !CanLoop(s, OnStop);
    forall j | 0 <= j < |s.stops|
      ensures s.stops[j].StopDone?
    {
      assert !CanStop(s, j);
    }
  }

  // Stop

  predicate StopBegins(s: State, j: nat) { s.running && j < |s.stops| && s.stops[j].StopEnter? }

  /** `ls` starts with call `j` of Stop closing done, and goes on until both that call and the loop
      have returned. */
  ghost predicate StopRun(s: State, j: nat, ls: seq<Label>) {
    && ls != [] && ls[0] == Stopping(j) && IsRun(s, ls)
    && After(s, ls).pc.Ended?
    && j < |After(s, ls).stops| && After(s, ls).stops[j].StopDone?
  }

  lemma StopsEntered(s: State, j: nat)
    requires Inv(s) && StopBegins(s, j)
    ensures CanStop(s, j) && Stopped(DoStop(s, j)) && DoStop(s, j).started && |DoStop(s, j).stops| == |s.stops|
  {
    hide IndexOk, WatchOk, LogsOk, EventsOk, FieldsOk, At, ConnOwners, ChanOwners;
  }

  lemma StepGrows(s: State, l: Label)
    requires Enabled(s, l)
    ensures s.started ==> Apply(s, l).started
    ensures |Apply(s, l).stops| >= |s.stops|
  {
    hide DoLoop, CanLoop, DoWatch, CanWatch, ShutConn, ShutChan;
  }

  lemma {:induction false} RunGrows(s: State, ls: seq<Label>)
    requires IsRun(s, ls)
    ensures s.started ==> After(s, ls).started
    ensures |After(s, ls).stops| >= |s.stops|
    decreases |ls|
  {
    hide Enabled, Apply;
    if ls != [] {
      StepGrows(s, ls[0]);
      RunGrows(Apply(s, ls[0]), ls[1..]);
    }
  }

  /** Stop and the loop return: in any run that begins with a Stop and goes on without new calls, the
      client makes at most Measure(s) steps, and when it can make no more, the loop has ended and that
      Stop, as every other, has returned. */
  lemma {:induction false} StopReturns(s: State, j: nat, ls: seq<Label>)
    requires Reachable(s) && StopBegins(s, j)
    requires ls != [] && ls[0] == Stopping(j) && IsRun(s, ls) && NoCalls(ls)
    ensures Steps(ls) <= Measure(s)
    ensures !CanMove(After(s, ls)) ==> StopRun(s, j, ls) && Over(After(s, ls))
  {
    ReachableInv(s);
    var s1, s' := Apply(s, ls[0]), After(s, ls);
    StopsEntered(s, j) by { hide Inv; }
    hide Inv, Reachable, Measure, DoStop, CanStop, CanMove, Stopped;
    StepKept(s, ls[0]);
    StepDrops(s, ls[0]);
    assert NoCalls(ls[1..]) by { assert forall i | 0 <= i < |ls| - 1 :: ls[1..][i] == ls[i + 1]; }
    RunDrops(s1, ls[1..]);
    RunKept(s1, ls[1..]);
    RunGrows(s1, ls[1..]);
    if !CanMove(s') { StuckIsOver(s'); }
  }

  /** Left to itself, a stopped client comes to its end. */
  lemma {:induction false} Finishes(s: State) returns (ls: seq<Label>)
    requires Inv(s) && Stopped(s)
    ensures IsRun(s, ls) && NoCalls(ls) && !CanMove(After(s, ls))
    decreases Measure(s)
  {
    if !CanMove(s) {
      ls := [];
    } else {
      var l := NextStep(s);
      hide Inv, Enabled, Apply, CanMove, Stopped, Measure;
      StepDrops(s, l);
      StepKept(s, l);
      var rest := Finishes(Apply(s, l));
      ls := [l] + rest;
      assert ls[0] == l && ls[1..] == rest;
    }
  }

  lemma NextStep(s: State) returns (l: Label)
    requires CanMove(s)
    ensures Enabled(s, l) && Internal(l)
  {
    hide CanLoop, CanWatch, CanStop;
    if b :| CanLoop(s, b) {
      l := Loop(b);
    } else if w: nat :| CanWatch(s, w) {
      l := Watching(w);
    } else {
      var j: nat :| CanStop(s, j);
      l := Stopping(j);
    }
  }

  /** From every reachable state a Stop can run to its end. */
  lemma StopCanReturn(s: State, j: nat) returns (ls: seq<Label>)
    requires Reachable(s) && StopBegins(s, j)
    ensures StopRun(s, j, ls) && NoCalls(ls) && !CanMove(After(s, ls))
  {
    ReachableInv(s);
    StopsEntered(s, j) by { hide Inv; }
    hide Inv, Reachable, DoStop, CanStop, CanMove, Stopped, StopRun, Enabled;
    assert Enabled(s, Stopping(j)) && Apply(s, Stopping(j)) == DoStop(s, j) by { EnabledStop(s, j); }
    StepKept(s, Stopping(j));
    var rest := Finishes(DoStop(s, j));
    ls := [Stopping(j)] + rest;
    assert ls[0] == Stopping(j) && ls[1..] == rest;
    hide Apply;
    StopReturns(s, j, ls);
  }

  lemma EnabledStop(s: State, j: nat)
    requires CanStop(s, j)
    ensures Enabled(s, Stopping(j)) && Apply(s, Stopping(j)) == DoStop(s, j)
  {
    hide CanStop, DoStop;
  }

  // The loop ends only when it is stopped

  lemma StepEnds(s: State, l: Label)
    requires Enabled(s, l) && (s.pc.Ended? ==> Stopped(s))
    ensures Apply(s, l).pc.Ended? ==> Stopped(Apply(s, l))
  {
    match l {
      case Loop(b) => hide DoLoop; LoopEnds(s, b);
      case Watching(w) => hide DoWatch, CanWatch; WatchLeaves(s, w);
      case Stopping(j) => hide DoStop; StopLeaves(s, j); StopKeepsPc(s, j);
      case Start =>
      case CallStop =>
      case CancelCtx =>
      case KillConn(k) => hide Stopped; ShutConnFrame(s, Some(k)); hide ShutConn;
      case KillChan(h) => hide Stopped; ShutChanFrame(s, Some(h)); hide ShutChan;
    }
  }

  lemma StopKeepsPc(s: State, j: nat)
    requires CanStop(s, j)
    ensures DoStop(s, j).pc == s.pc
  {
  }

  lemma LoopEnds(s: State, b: Branch)
    requires CanLoop(s, b)
    ensures Stopped(DoLoop(s, b)) == Stopped(s)
    ensures DoLoop(s, b).pc.Ended? ==> Stopped(s)
  {
  }

  lemma {:induction false} RunEnds(s: State, ls: seq<Label>)
    requires IsRun(s, ls) && (s.pc.Ended? ==> Stopped(s))
    ensures After(s, ls).pc.Ended? ==> Stopped(After(s, ls))
    decreases |ls|
  {
    hide Enabled, Apply, Stopped;
    if ls != [] {
      StepEnds(s, ls[0]);
      RunEnds(Apply(s, ls[0]), ls[1..]);
    }
  }

  lemma {:induction false} EndedIsStopped(topo: Topology, ls: seq<Label>, s: State)
    requires Reaches(topo, ls, s) && s.pc.Ended?
    ensures Stopped(s)
  {
    hide Stopped, IsRun, After;
    RunEnds(Init(topo), ls);
  }
}
