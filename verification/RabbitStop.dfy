/** What a Stop leaves behind. The documentation of Stop says that it closes the connection. For
    every interleaving this is so exactly when Stop does not fall into the window in which the loop
    has looked at stopped() for the last time before a dial and has not stored the connection yet; a
    finishing dial then overtakes Stop. Both directions are proved here, for nothing being left open
    and for the two fields being nil. */
module RabbitStop {
  import opened Basics
  import opened RabbitTopology
  import opened RabbitModel
  import opened RabbitInvariant
  import opened RabbitSafety
  import opened RabbitTheorems
  import opened RabbitProgress

  /** Between the check at the loop head and the store of a live connection. */
  predicate DialWindow(s: State) {
    || s.pc.ReadAlive? || s.pc.TestAlive? || s.pc.DropTake? || s.pc.DropClose? || s.pc.Dialing?
    || (s.pc.StoreConn? && ConnOpen(s, s.pc.k))
  }

  predicate LiveConn(s: State, c: Option<nat>) { c.Some? && ConnOpen(s, c.value) }

  /** Between the check at the loop head and the store of a channel that can still succeed. */
  predicate InstallWindow(s: State) {
    || DialWindow(s)
    || (s.pc.WatchConn? && ConnOpen(s, s.pc.k))
    || (s.pc.ReadConn? && LiveConn(s, s.conn))
    || (s.pc.TestConn? && LiveConn(s, s.pc.c))
    || (s.pc.OpenChan? && ConnOpen(s, s.pc.k))
    || (s.pc.Declaring? && (s.pc.i >= |s.ops| || ChanOpen(s, s.pc.h)))
    || s.pc.StoreChan?
  }

  ghost predicate NothingOpen(s: State) {
    && (forall k | 0 <= k < |s.conns| :: !ConnOpen(s, k))
    && (forall h | 0 <= h < |s.chans| :: !ChanOpen(s, h))
  }

  /** Both fields are nil, and there was no further dial since `s`. */
  predicate Cleared(s: State, s': State) { s'.conn.None? && s'.channel.None? && |s'.conns| == |s.conns| }

  // What everybody but the loop can do to the window

  /** The program counter stays and what is closed stays closed. */
  ghost predicate OnlyLoses(s: State, s': State) {
    && s'.pc == s.pc && s'.ops == s.ops && |s'.conns| == |s.conns| && |s'.chans| == |s.chans|
    && (s'.conn == s.conn || s'.conn.None?) && (s'.channel == s.channel || s'.channel.None?)
    && (forall k: nat :: ConnOpen(s', k) ==> ConnOpen(s, k))
    && (forall h: nat :: ChanOpen(s', h) ==> ChanOpen(s, h))
  }

  lemma ShutOnlyLoses(s: State, s': State)
    requires Closes(s, s')
    ensures OnlyLoses(s, s')
  {
  }

  lemma TearOnlyLoses(s: State, t: Tear)
    ensures OnlyLoses(s, TearEffect(s, t))
  {
    if t.CloseChan? {
      hide OnlyLoses, Closes;
      ShutChanFrame(s, t.h);
      ShutOnlyLoses(s, ShutChan(s, t.h));
    } else if t.CloseConn? {
      hide OnlyLoses, Closes;
      ShutConnFrame(s, t.c);
      ShutOnlyLoses(s, ShutConn(s, t.c));
    } else {
      hide ShutConn, ShutChan;
    }
  }

  lemma StopOnlyLoses(s: State, j: nat)
    requires CanStop(s, j)
    ensures OnlyLoses(s, DoStop(s, j))
  {
    if s.stops[j].StopTear? {
      var t := s.stops[j].tear;
      var mid := TearEffect(s, t);
      assert DoStop(s, j) == mid.(stops := DoStop(s, j).stops);
      hide DoStop, TearEffect;
      TearOnlyLoses(s, t);
    }
  }

  lemma OthersFrame(s: State, l: Label)
    requires Enabled(s, l) && !l.Loop? && !l.Start?
    ensures OnlyLoses(s, Apply(s, l))
  {
    match l {
      case CallStop =>
      case CancelCtx =>
      case KillConn(k) =>
        hide OnlyLoses, Closes;
        ShutConnFrame(s, Some(k));
        ShutOnlyLoses(s, ShutConn(s, Some(k)));
      case KillChan(h) =>
        hide OnlyLoses, Closes;
        ShutChanFrame(s, Some(h));
        ShutOnlyLoses(s, ShutChan(s, Some(h)));
      case Stopping(j) => hide OnlyLoses; StopOnlyLoses(s, j);
      case Watching(w) => hide DoWatch;
    }
  }

  // After Stop has closed done

  predicate WillTakeConn(p: Stopper) {
    p.StopTear? && (p.tear.TearEvent? || p.tear.TakeChan? || p.tear.CloseChan? || p.tear.TakeConn?)
  }

  predicate WillTakeChan(p: Stopper) { p.StopTear? && (p.tear.TearEvent? || p.tear.TakeChan?) }

  /** Call `j` has closed done, and no other call of Stop is in its teardown. */
  predicate OnlyStop(s: State, j: nat) {
    && s.started && s.doneClosed && !s.running
    && j < |s.stops| && !s.stops[j].StopEnter?
    && (forall i | 0 <= i < |s.stops| && i != j :: !s.stops[i].StopTear?)
  }

  lemma OthersStops(s: State, j: nat, l: Label)
    requires OnlyStop(s, j) && Enabled(s, l) && !l.Loop?
    ensures OnlyStop(Apply(s, l), j) && !l.Start?
    ensures !WillTakeConn(Apply(s, l).stops[j]) ==> !WillTakeConn(s.stops[j]) || Apply(s, l).conn.None?
    ensures !WillTakeChan(Apply(s, l).stops[j]) ==> !WillTakeChan(s.stops[j]) || Apply(s, l).channel.None?
  {
  }

  /** Outside the dial window: a live connection in the field is still to be taken by call `j`. */
  predicate Quitting(s: State, j: nat) {
    OnlyStop(s, j) && !DialWindow(s) && (LiveConn(s, s.conn) ==> WillTakeConn(s.stops[j]))
  }

  lemma JumpAvoidsDial(s: State, b: Branch)
    requires CanLoop(s, b) && Jumps(s.pc, b) && s.doneClosed && !DialWindow(s)
    ensures !DialWindow(s.(pc := Jump(s, b)))
  {
  }

  lemma ConnPartAvoidsDial(s: State)
    requires ConnPart(s.pc) && !s.pc.Dialing? && !DialWindow(s)
    ensures !DialWindow(DoConnPart(s)) && |DoConnPart(s).conns| == |s.conns|
  {
    assert s.pc.StoreConn? || s.pc.WatchConn?;
  }

  lemma ChanPartAvoidsDial(s: State, b: Branch)
    requires ChanPart(s.pc) && CanLoop(s, b)
    ensures !DialWindow(DoChanPart(s, b))
  {
  }

  lemma TearAvoidsDial(s: State)
    requires s.pc.Tearing?
    ensures !DialWindow(DoTearing(s)) && |DoTearing(s).conns| == |s.conns|
  {
    TearOnlyLoses(s, s.pc.tear) by { hide *; }
    hide TearEffect;
  }

  lemma LoopAvoidsDial(s: State, b: Branch)
    requires CanLoop(s, b) && s.doneClosed && !DialWindow(s)
    ensures !DialWindow(DoLoop(s, b)) && |DoLoop(s, b).conns| == |s.conns|
  {
    assert s.pc.Dialing? ==> DialWindow(s);
    hide DialWindow, DoConnPart, DoChanPart, DoTearing, Jump;
    if Jumps(s.pc, b) {
      JumpAvoidsDial(s, b);
    } else if ConnPart(s.pc) {
      ConnPartAvoidsDial(s);
    } else if ChanPart(s.pc) {
      ChanPartAvoidsDial(s, b);
    } else {
      TearAvoidsDial(s);
    }
  }

  /** The loop only puts a live connection into the field from inside the dial window. */
  lemma LoopConn(s: State, b: Branch)
    requires CanLoop(s, b) && !DialWindow(s)
    ensures LiveConn(DoLoop(s, b), DoLoop(s, b).conn) ==> s.conn == DoLoop(s, b).conn && LiveConn(s, s.conn)
  {
    if Jumps(s.pc, b) {
    } else if ConnPart(s.pc) {
      assert s.pc.StoreConn? || s.pc.WatchConn?;
    } else if ChanPart(s.pc) {
      hide DoChanPart;
    } else {
      assert DoLoop(s, b) == TearEffect(s, s.pc.tear).(pc := DoLoop(s, b).pc);
      hide DoLoop;
      TearOnlyLoses(s, s.pc.tear) by { hide *; }
    }
  }

  lemma LoopKeepsQuitting(s: State, j: nat, b: Branch)
    requires Quitting(s, j) && CanLoop(s, b)
    ensures Quitting(DoLoop(s, b), j)
  {
    hide DialWindow, DoLoop, CanLoop, WillTakeConn, LiveConn;
    LoopAvoidsDial(s, b);
    LoopConn(s, b);
  }

  lemma OthersKeepQuitting(s: State, j: nat, l: Label)
    requires Quitting(s, j) && Enabled(s, l) && !l.Loop?
    ensures Quitting(Apply(s, l), j)
  {
    hide Apply, Enabled;
    OthersStops(s, j, l);
    OthersFrame(s, l);
  }

  lemma StepKeepsQuitting(s: State, j: nat, l: Label)
    requires Quitting(s, j) && Enabled(s, l)
    ensures Quitting(Apply(s, l), j)
  {
    hide Quitting, DoLoop, CanLoop, DoStop, DoWatch;
    if l.Loop? { LoopKeepsQuitting(s, j, l.b); } else { OthersKeepQuitting(s, j, l); }
  }

  lemma {:induction false} RunKeepsQuitting(s: State, j: nat, ls: seq<Label>)
    requires Quitting(s, j) && IsRun(s, ls)
    ensures Quitting(After(s, ls), j)
    decreases |ls|
  {
    hide Quitting, Enabled, Apply;
    if ls != [] {
      StepKeepsQuitting(s, j, ls[0]);
      RunKeepsQuitting(Apply(s, ls[0]), j, ls[1..]);
    }
  }

  /** A Stop outside the window leaves nothing open. */
  lemma {:induction false} OutsideWindowCloses(s: State, j: nat, ls: seq<Label>)
    requires Inv(s) && StopBegins(s, j) && !DialWindow(s) && StopRun(s, j, ls)
    ensures NothingOpen(After(s, ls))
  {
    var s1, s' := Apply(s, ls[0]), After(s, ls);
    assert Quitting(s1, j) by { hide IndexOk, WatchOk, LogsOk, EventsOk, FieldsOk, At, ConnOwners, ChanOwners; }
    RunKept(s, ls) by { hide *; }
    RunKeepsQuitting(s1, j, ls[1..]) by { hide Inv; }
    forall k | 0 <= k < |s'.conns|
      ensures !s'.conns[k].open
    {
      hide StopOk, IndexOk, WatchOk, LogsOk, EventsOk, FieldsOk, At, ChanOwners;
      assert forall o :: !OwnsConn(s', k, o) || (o.TheField? && !s'.conns[k].open);
    }
  }

  // A finishing dial overtakes Stop

  /** From here the loop can still get to its select with a channel installed, although done is
      closed. */
  predicate Overtaking(s: State) {
    && s.doneClosed
    && match s.pc {
         case ReadAlive => true
         case TestAlive(c) => LiveConn(s, c) ==> s.conn == c
         case DropTake => true
         case DropClose(_) => true
         case Dialing => true
         case StoreConn(k) => ConnOpen(s, k)
         case WatchConn(_, _) => LiveConn(s, s.conn)
         case ReadConn => LiveConn(s, s.conn)
         case TestConn(c) => LiveConn(s, c)
         case OpenChan(k) => ConnOpen(s, k)
         case Declaring(h, i) => h < |s.chans| && (i >= |s.ops| || ChanOpen(s, h))
         case StoreChan(_) => true
         case WatchChan(_, _) => s.channel.Some?
         case Announcing => s.channel.Some?
         case Snapshot => s.channel.Some?
         case Parked(_, _) => s.channel.Some?
         case Ended => s.channel.Some?
         case _ => false
       }
  }

  /** The connection in the field is open, or will be when it is stored. */
  predicate WillLive(s: State) {
    || s.pc.ReadAlive? || s.pc.TestAlive? || s.pc.DropTake? || s.pc.DropClose? || s.pc.Dialing? || s.pc.StoreConn?
    || LiveConn(s, s.conn)
  }

  function Left(s: State): nat {
    match s.pc
    case ReadAlive => 17 + |s.ops|
    case TestAlive(_) => 16 + |s.ops|
    case DropTake => 15 + |s.ops|
    case DropClose(_) => 14 + |s.ops|
    case Dialing => 13 + |s.ops|
    case StoreConn(_) => 12 + |s.ops|
    case WatchConn(_, _) => 11 + |s.ops|
    case ReadConn => 10 + |s.ops|
    case TestConn(_) => 9 + |s.ops|
    case OpenChan(_) => 8 + |s.ops|
    case Declaring(_, i) => 7 + (if i < |s.ops| then |s.ops| - i else 0)
    case StoreChan(_) => 6
    case WatchChan(_, _) => 5
    case Announcing => 4
    case Snapshot => 3
    case Parked(_, _) => 2
    case _ => 1
  }

  predicate EndsConnected(s: State) { s.events != [] && s.events[|s.events| - 1].Connected? }

  /** The loop has published Connected last, or is going to. */
  predicate WillTell(s: State) { Left(s) >= 4 || EndsConnected(s) }

  function Onward(s: State): Branch { if s.pc.Parked? then OnStop else Plain }

  /** One step of the overtaking loop. */
  ghost predicate WalksOn(s: State, s': State) {
    && Overtaking(s') && Left(s') < Left(s) && s'.stops == s.stops
    && (WillLive(s) ==> WillLive(s')) && (WillTell(s) ==> WillTell(s'))
  }

  lemma WalkJump(s: State)
    requires Overtaking(s) && Jumps(s.pc, Onward(s))
    ensures CanLoop(s, Onward(s)) && WalksOn(s, DoLoop(s, Onward(s)))
  {
  }

  lemma WalkConn(s: State)
    requires Overtaking(s) && ConnPart(s.pc)
    ensures CanLoop(s, Plain) && WalksOn(s, DoLoop(s, Plain))
  {
  }

  lemma WalkDeclaring(s: State)
    requires Overtaking(s) && s.pc.Declaring?
    ensures CanLoop(s, Plain) && WalksOn(s, DoDeclaring(s, s.pc.h, s.pc.i, true))
  {
  }

  lemma WalkOpen(s: State)
    requires Overtaking(s)
    ensures s.pc.OpenChan? ==> CanLoop(s, Plain) && WalksOn(s, DoOpenChan(s, s.pc.k))
    ensures s.pc.Announcing? ==> CanLoop(s, Plain) && WalksOn(s, Announce(s))
  {
  }

  lemma WalkStore(s: State)
    requires Overtaking(s)
    ensures s.pc.StoreChan? ==> CanLoop(s, Plain) && WalksOn(s, DoStoreChan(s, s.pc.h))
    ensures s.pc.WatchChan? ==> CanLoop(s, Plain) && WalksOn(s, Watch(s, TheChan(s.pc.h), s.pc.tok).(pc := Announcing))
  {
  }

  lemma WalkChan(s: State)
    requires Overtaking(s) && ChanPart(s.pc)
    ensures CanLoop(s, Plain) && WalksOn(s, DoLoop(s, Plain))
  {
    if s.pc.Declaring? {
      hide WalksOn, DoDeclaring;
      WalkDeclaring(s);
    } else {
      hide DoDeclaring, WalksOn;
      WalkOpen(s);
      WalkStore(s);
    }
  }

  lemma {:induction false} Walk(s: State) returns (ls: seq<Label>)
    requires Overtaking(s)
    ensures IsRun(s, ls) && After(s, ls).stops == s.stops && After(s, ls).pc.Ended?
    ensures After(s, ls).channel.Some? && (WillLive(s) ==> LiveConn(After(s, ls), After(s, ls).conn))
    ensures WillTell(s) ==> EndsConnected(After(s, ls))
    decreases Left(s)
  {
    if s.pc.Ended? {
      ls := [];
    } else {
      var b := Onward(s);
      if Jumps(s.pc, b) {
        WalkJump(s);
      } else if ConnPart(s.pc) {
        WalkConn(s);
      } else {
        WalkChan(s);
      }
      hide DoLoop, CanLoop;
      var rest := Walk(DoLoop(s, b));
      ls := [Loop(b)] + rest;
    }
  }

  lemma {:induction false} RunCons(s: State, l: Label, ls: seq<Label>)
    requires Enabled(s, l) && IsRun(Apply(s, l), ls)
    ensures IsRun(s, [l] + ls) && After(s, [l] + ls) == After(Apply(s, l), ls)
  {
    hide Enabled, Apply;
    assert ([l] + ls)[0] == l && ([l] + ls)[1..] == ls;
  }

  lemma Thrice(s: State, j: nat, s1: State, s2: State, s3: State) returns (ls: seq<Label>)
    requires CanStop(s, j) && DoStop(s, j) == s1
    requires CanStop(s1, j) && DoStop(s1, j) == s2
    requires CanStop(s2, j) && DoStop(s2, j) == s3
    ensures ls != [] && ls[0] == Stopping(j) && IsRun(s, ls) && After(s, ls) == s3
  {
    hide DoStop, CanStop;
    var l := Stopping(j);
    assert IsRun(s3, []) && After(s3, []) == s3;
    hide IsRun, After;
    RunCons(s2, l, []);
    RunCons(s1, l, [l] + []);
    RunCons(s, l, [l] + ([l] + []));
    ls := [l] + ([l] + ([l] + []));
  }

  /** Call `j` of Stop up to the close of the channel that it has taken. */
  lemma StopHalf(s: State, j: nat) returns (ls: seq<Label>)
    requires StopBegins(s, j) && !s.doneClosed
    ensures ls != [] && ls[0] == Stopping(j) && IsRun(s, ls)
    ensures After(s, ls) == s.(running := false, doneClosed := true, channel := None,
                              events := s.events + [Disconnected],
                              stops := s.stops[j := StopTear(CloseChan(s.channel))])
  {
    var s1 := s.(running := false, doneClosed := true, stops := s.stops[j := StopTear(TearEvent)]);
    var s2 := s1.(events := s.events + [Disconnected], stops := s.stops[j := StopTear(TakeChan)]);
    var s3 := s2.(channel := None, stops := s.stops[j := StopTear(CloseChan(s.channel))]);
    assert DoStop(s, j) == s1;
    assert DoStop(s1, j) == s2;
    assert DoStop(s2, j) == s3;
    hide DoStop;
    ls := Thrice(s, j, s1, s2, s3);
  }

  lemma ShutConnSame(s: State, t: State, c: Option<nat>)
    requires s.conns == t.conns
    ensures ShutConn(s, c).conns == ShutConn(t, c).conns
  {
  }

  /** Only the first step of a teardown publishes anything. */
  lemma LaterIsSilent(s: State, j: nat)
    requires CanStop(s, j) && s.stops[j].StopTear? && !s.stops[j].tear.TearEvent?
    ensures DoStop(s, j).events == s.events
  {
  }

  /** The rest of that call. */
  lemma StopRest(s: State, j: nat) returns (ls: seq<Label>)
    requires j < |s.stops| && s.stops[j].StopTear? && s.stops[j].tear.CloseChan?
    ensures IsRun(s, ls) && After(s, ls).pc == s.pc && After(s, ls).doneClosed == s.doneClosed
    ensures After(s, ls).channel == s.channel && After(s, ls).conn.None? && After(s, ls).events == s.events
    ensures After(s, ls).conns == ShutConn(s, s.conn).conns
    ensures After(s, ls).stops == s.stops[j := StopDone]
  {
    hide ShutChan, ShutConn, DoStop, IsRun, After;
    var s1 := DoStop(s, j);
    StopTearIs(s, j, s.stops[j].tear);
    var s2 := DoStop(s1, j);
    StopTearIs(s1, j, TakeConn);
    StopTearIs(s2, j, CloseConn(s.conn));
    ShutConnSame(s2, s, s.conn);
    LaterIsSilent(s, j);
    LaterIsSilent(s1, j);
    LaterIsSilent(s2, j);
    ls := Thrice(s, j, s1, s2, DoStop(s2, j));
  }

  /** In the dial window there is a run in which Stop and the loop return and the connection that the
      loop has dialled stays open in the field. */
  lemma InsideWindowOvertakes(s: State, j: nat) returns (ls: seq<Label>)
    requires Inv(s) && StopBegins(s, j) && DialWindow(s)
    ensures StopRun(s, j, ls) && LiveConn(After(s, ls), After(s, ls).conn)
  {
    assert !s.doneClosed by { hide IndexOk, WatchOk, LogsOk, EventsOk, FieldsOk, At, ConnOwners, ChanOwners; }
    assert (s.pc.TestAlive? ==> s.conn == s.pc.c) && (s.pc.StoreConn? ==> s.conn.None?) by {
      hide StopOk, IndexOk, WatchOk, LogsOk, EventsOk, FieldsOk, ConnOwners, ChanOwners;
    }
    hide Inv, IsRun, After;
    var a := StopHalf(s, j);
    var s3 := After(s, a);
    var b := StopRest(s3, j);
    var s6 := After(s3, b);
    RunAppend(s, a, b);
    assert Overtaking(s6) && WillLive(s6);
    var c := Walk(s6);
    RunAppend(s, a + b, c);
    ls := a + b + c;
    assert StopRun(s, j, ls);
  }

  // The two fields

  /** The loop is on its way to a teardown that takes the connection out of the field. */
  predicate WillTear(s: State) {
    || s.pc.WatchConn? || s.pc.ReadConn? || s.pc.TestConn? || s.pc.OpenChan? || s.pc.Declaring? || s.pc.AbandonChan?
    || (s.pc.Tearing? && s.pc.full && !s.pc.tear.CloseConn?)
  }

  /** Outside the install window: whatever is in the fields, somebody is going to take it out. */
  predicate Clearing(s: State, j: nat) {
    && OnlyStop(s, j) && !InstallWindow(s)
    && (s.channel.Some? ==> WillTakeChan(s.stops[j]))
    && (s.conn.Some? ==> WillTakeConn(s.stops[j]) || WillTear(s))
  }

  /** What a step of the loop does outside the install window. */
  ghost predicate LoopClears(s: State, s': State) {
    && !InstallWindow(s') && |s'.conns| == |s.conns|
    && (s'.channel.Some? ==> s'.channel == s.channel)
    && (s'.conn.Some? ==> WillTear(s') || (s'.conn == s.conn && !WillTear(s)))
  }

  lemma ClearsJump(s: State, b: Branch)
    requires CanLoop(s, b) && Jumps(s.pc, b) && s.doneClosed && !InstallWindow(s)
    ensures LoopClears(s, DoLoop(s, b))
  {
  }

  lemma ClearsConn(s: State)
    requires ConnPart(s.pc) && s.doneClosed && !InstallWindow(s)
    requires WatchOk(s) && FieldsOk(s) && At(s)
    ensures LoopClears(s, DoConnPart(s))
  {
  }

  lemma ClearsChan(s: State, b: Branch)
    requires CanLoop(s, b) && ChanPart(s.pc) && !Jumps(s.pc, b) && s.doneClosed && !InstallWindow(s) && At(s)
    ensures LoopClears(s, DoChanPart(s, b))
  {
  }

  lemma ClearsTear(s: State)
    requires s.pc.Tearing? && s.doneClosed && !InstallWindow(s)
    ensures LoopClears(s, DoTearing(s))
  {
  }

  lemma LoopClearsAll(s: State, b: Branch)
    requires Inv(s) && s.doneClosed && !InstallWindow(s) && CanLoop(s, b)
    ensures LoopClears(s, DoLoop(s, b))
  {
    hide StopOk, IndexOk, LogsOk, EventsOk, WatchOk, FieldsOk, At, ConnOwners, ChanOwners;
    hide LoopClears, InstallWindow, DoConnPart, DoChanPart, DoTearing, Jump;
    if Jumps(s.pc, b) {
      ClearsJump(s, b);
    } else if ConnPart(s.pc) {
      ClearsConn(s);
    } else if ChanPart(s.pc) {
      ClearsChan(s, b);
    } else {
      ClearsTear(s);
    }
  }

  lemma LoopKeepsClearing(s: State, j: nat, b: Branch)
    requires Inv(s) && Clearing(s, j) && CanLoop(s, b)
    ensures Clearing(DoLoop(s, b), j) && |DoLoop(s, b).conns| == |s.conns|
  {
    hide Inv, DoLoop, InstallWindow, WillTear;
    LoopClearsAll(s, b);
  }

  lemma OthersKeepClearing(s: State, j: nat, l: Label)
    requires Clearing(s, j) && Enabled(s, l) && !l.Loop?
    ensures Clearing(Apply(s, l), j) && |Apply(s, l).conns| == |s.conns|
  {
    hide Apply, Enabled;
    OthersStops(s, j, l);
    OthersFrame(s, l);
  }

  lemma StepKeepsClearing(s: State, j: nat, l: Label)
    requires Inv(s) && Clearing(s, j) && Enabled(s, l)
    ensures Clearing(Apply(s, l), j) && |Apply(s, l).conns| == |s.conns|
  {
    hide Inv, Clearing, DoLoop, CanLoop, DoStop, DoWatch;
    if l.Loop? { LoopKeepsClearing(s, j, l.b); } else { OthersKeepClearing(s, j, l); }
  }

  lemma {:induction false} RunKeepsClearing(s: State, j: nat, ls: seq<Label>)
    requires Inv(s) && Clearing(s, j) && IsRun(s, ls)
    ensures Clearing(After(s, ls), j) && |After(s, ls).conns| == |s.conns|
    decreases |ls|
  {
    hide Inv, Clearing, Enabled, Apply;
    if ls != [] {
      StepKeepsClearing(s, j, ls[0]);
      StepKept(s, ls[0]);
      RunKeepsClearing(Apply(s, ls[0]), j, ls[1..]);
    }
  }

  /** A Stop outside the install window leaves both fields nil. */
  lemma {:induction false} OutsideWindowClears(s: State, j: nat, ls: seq<Label>)
    requires Inv(s) && StopBegins(s, j) && !InstallWindow(s) && StopRun(s, j, ls)
    ensures Cleared(s, After(s, ls))
  {
    var s1 := Apply(s, ls[0]);
    assert Clearing(s1, j) && |s1.conns| == |s.conns| by {
      hide IndexOk, WatchOk, LogsOk, EventsOk, FieldsOk, At, ConnOwners, ChanOwners;
    }
    hide Inv, InstallWindow;
    StepKept(s, ls[0]);
    RunKeepsClearing(s1, j, ls[1..]);
  }

  /** In the rest of the install window the loop stores its channel after Stop has emptied the field. */
  lemma InsideWindowInstalls(s: State, j: nat) returns (ls: seq<Label>)
    requires Inv(s) && StopBegins(s, j) && InstallWindow(s) && !DialWindow(s)
    ensures StopRun(s, j, ls) && After(s, ls).channel.Some?
  {
    assert !s.doneClosed by { hide IndexOk, WatchOk, LogsOk, EventsOk, FieldsOk, At, ConnOwners, ChanOwners; }
    assert (s.pc.WatchConn? ==> s.conn == Some(s.pc.k)) && (s.pc.Declaring? ==> s.pc.h < |s.chans|) by {
      hide StopOk, IndexOk, WatchOk, LogsOk, EventsOk, FieldsOk, ConnOwners, ChanOwners;
    }
    hide Inv, IsRun, After;
    var a := StopHalf(s, j);
    var s3 := After(s, a);
    assert Overtaking(s3);
    var b := Walk(s3);
    RunAppend(s, a, b);
    var c := StopRest(After(s3, b), j);
    RunAppend(s, a + b, c);
    ls := a + b + c;
  }

  // The two theorems

  /** Stop and the loop can return, and Stop has closed everything by then, however it interleaves with
      the rest, exactly when it does not begin in the dial window. */
  lemma {:induction false} StopClosesIffOutsideDial(s: State, j: nat)
    requires Reachable(s) && StopBegins(s, j)
    ensures exists ls :: StopRun(s, j, ls)
    ensures (forall ls :: StopRun(s, j, ls) ==> NothingOpen(After(s, ls))) <==> !DialWindow(s)
  {
    hide DialWindow, Inv;
    ReachableInv(s);
    var some := StopCanReturn(s, j);
    if DialWindow(s) {
      var ls := InsideWindowOvertakes(s, j);
      assert StopRun(s, j, ls) && !NothingOpen(After(s, ls));
    } else {
      forall ls | StopRun(s, j, ls)
        ensures NothingOpen(After(s, ls))
      {
        OutsideWindowCloses(s, j, ls);
      }
    }
  }

  /** Stop leaves both fields nil, with no further dial, exactly when it does not begin in the install
      window. */
  lemma {:induction false} StopClearsIffOutsideInstall(s: State, j: nat)
    requires Reachable(s) && StopBegins(s, j)
    ensures exists ls :: StopRun(s, j, ls)
    ensures (forall ls :: StopRun(s, j, ls) ==> Cleared(s, After(s, ls))) <==> !InstallWindow(s)
  {
    hide DialWindow, InstallWindow, Inv;
    ReachableInv(s);
    var some := StopCanReturn(s, j);
    if !InstallWindow(s) {
      forall ls | StopRun(s, j, ls)
        ensures Cleared(s, After(s, ls))
      {
        OutsideWindowClears(s, j, ls);
      }
    } else if DialWindow(s) {
      var ls := InsideWindowOvertakes(s, j);
      assert StopRun(s, j, ls) && !Cleared(s, After(s, ls));
    } else {
      var ls := InsideWindowInstalls(s, j);
      assert StopRun(s, j, ls) && !Cleared(s, After(s, ls));
    }
  }

  /** A Stop of a loop that is parked in its select or waits between two attempts: without new calls the
      client makes at most Measure(s) more steps, and when it can make none, the loop has ended, every
      Stop has returned, nothing is open, both fields are nil and nothing was dialled. */
  lemma {:induction false} StopOfRestingLoop(s: State, j: nat, ls: seq<Label>)
    requires Reachable(s) && StopBegins(s, j) && (s.pc.Parked? || s.pc.Waiting?)
    requires ls != [] && ls[0] == Stopping(j) && IsRun(s, ls) && NoCalls(ls)
    ensures Steps(ls) <= Measure(s)
    ensures !CanMove(After(s, ls)) ==> Over(After(s, ls)) && Cleared(s, After(s, ls)) && NothingOpen(After(s, ls))
  {
    StopReturns(s, j, ls);
    assert !DialWindow(s) && !InstallWindow(s);
    hide DialWindow, InstallWindow, Measure, CanMove, Over, Reachable, StopBegins;
    StopClosesIffOutsideDial(s, j);
    StopClearsIffOutsideInstall(s, j);
  }

  // The end without a Stop

  /** A loop that has ended without a Stop was ended by the context. Then at most one connection and one
      channel are open, those of the fields, and the channel is one of that connection. */
  lemma EndedByCancel(s: State)
    requires Reachable(s) && s.pc.Ended? && !s.doneClosed
    ensures s.ctxDone
    ensures forall k | 0 <= k < |s.conns| && s.conns[k].open :: s.conn == Some(k)
    ensures forall h | 0 <= h < |s.chans| && s.chans[h].open :: s.channel == Some(h)
    ensures s.channel.Some? ==> s.channel.value < |s.chans| && s.conn == Some(s.chans[s.channel.value].conn)
  {
    hide Inv;
    var topo: Topology, ls: seq<Label> :| Reaches(topo, ls, s);
    EndedIsStopped(topo, ls, s);
    ReachableInv(s);
    OpenInFields(s);
  }

  lemma OpenInFields(s: State)
    requires Inv(s) && s.pc.Ended? && !s.doneClosed
    ensures forall k | 0 <= k < |s.conns| && s.conns[k].open :: s.conn == Some(k)
    ensures forall h | 0 <= h < |s.chans| && s.chans[h].open :: s.channel == Some(h)
    ensures s.channel.Some? ==> s.channel.value < |s.chans| && s.conn == Some(s.chans[s.channel.value].conn)
  {
    hide IndexOk, WatchOk, LogsOk, EventsOk, At;
    forall k | 0 <= k < |s.conns| && s.conns[k].open
      ensures s.conn == Some(k)
    {
      var o :| OwnsConn(s, k, o);
    }
    forall h | 0 <= h < |s.chans| && s.chans[h].open
      ensures s.channel == Some(h)
    {
      var o :| OwnsChan(s, h, o);
    }
  }

  /** And nobody but a later Stop or the broker closes them: whatever else runs, the fields stay, and
      what the broker does not kill stays open. */
  ghost predicate Untouched(s: State, s': State, ls: seq<Label>) {
    && s'.pc.Ended? && s'.conn == s.conn && s'.channel == s.channel && |s'.conns| >= |s.conns|
    && forall k: nat :: ConnOpen(s, k) && KillConn(k) !in ls ==> ConnOpen(s', k)
  }

  lemma StepUntouched(s: State, l: Label)
    requires s.pc.Ended? && s.started && Enabled(s, l) && !l.Stopping? && (l.Start? ==> s.running)
    ensures Untouched(s, Apply(s, l), [l])
  {
    match l {
      case CallStop =>
      case CancelCtx =>
      case Start =>
      case KillConn(k) => assert KillConn(k) in [l];
      case KillChan(h) => hide ShutChan; ShutChanFrame(s, Some(h));
      case Watching(w) => hide DoWatch, CanWatch;
    }
  }

  lemma {:induction false} CancelClosesNothing(s: State, ls: seq<Label>)
    requires Inv(s) && s.pc.Ended? && IsRun(s, ls) && (forall l | l in ls :: !l.Stopping?)
    ensures Untouched(s, After(s, ls), ls)
    decreases |ls|
  {
    if ls != [] {
      assert s.started && (Enabled(s, Start) ==> s.running) by {
        hide IndexOk, WatchOk, LogsOk, EventsOk, FieldsOk, At, ConnOwners, ChanOwners;
      }
      hide Inv, Enabled, Apply;
      var s1 := Apply(s, ls[0]);
      assert ls[0] in ls && ls == [ls[0]] + ls[1..];
      StepUntouched(s, ls[0]);
      StepKept(s, ls[0]);
      CancelClosesNothing(s1, ls[1..]);
    }
  }

  /** It can come to that: a parked loop whose context is cancelled may end with everything open. */
  lemma {:induction false} ParkedMayEndOpen(s: State)
    requires s.pc.Parked?
    ensures IsRun(s, [CancelCtx, Loop(OnStop)])
    ensures After(s, [CancelCtx, Loop(OnStop)]) == s.(ctxDone := true, pc := Ended)
  {
    var s1 := s.(ctxDone := true);
    var s2 := s1.(pc := Ended);
    assert CanLoop(s1, OnStop) && DoLoop(s1, OnStop) == s2;
    hide DoLoop, CanLoop;
    assert IsRun(s2, []) && After(s2, []) == s2;
    hide IsRun, After;
    RunCons(s1, Loop(OnStop), []);
    RunCons(s, CancelCtx, [Loop(OnStop)] + []);
    assert [CancelCtx] + ([Loop(OnStop)] + []) == [CancelCtx, Loop(OnStop)];
  }
}
