/** What the subscribers of Connected and Disconnected hear of a Stop: when they are left with
    Disconnected, and when the loop tells them afterwards that the client is connected. */
module RabbitNotice {
  import opened Basics
  import opened RabbitTopology
  import opened RabbitModel
  import opened RabbitInvariant
  import opened RabbitSafety
  import opened RabbitTheorems
  import opened RabbitProgress
  import opened RabbitStop

  /** Between the check at the loop head and the Connected event of a channel that can still be
      installed. */
  predicate TellWindow(s: State) { InstallWindow(s) || s.pc.WatchChan? || s.pc.Announcing? }

  predicate EndsDisconnected(s: State) { s.events != [] && s.events[|s.events| - 1].Disconnected? }

  /** Call `j` is going to publish Disconnected, or nobody has published anything else since. */
  predicate Parting(s: State, j: nat) {
    OnlyStop(s, j) && !TellWindow(s) && (s.stops[j] == StopTear(TearEvent) || EndsDisconnected(s))
  }

  predicate OnlyDisconnects(s: State, s': State) {
    s'.events == s.events || s'.events == s.events + [Disconnected]
  }

  predicate Discreet(s: State, s': State) {
    OnlyDisconnects(s, s') && !s'.pc.WatchChan? && !s'.pc.Announcing?
  }

  lemma DeclaredSilent(s: State, h: nat, ok: bool)
    requires h < |s.chans| && |s.chans[h].log| < |s.ops|
    ensures Declared(s, h, ok).events == s.events
  {
  }

  lemma DeclaringDisconnects(s: State, h: nat, i: nat, ok: bool)
    requires h < |s.chans| && (!ok ==> i < |s.ops|)
    ensures Discreet(s, DoDeclaring(s, h, i, ok))
  {
    if |s.chans[h].log| < |s.ops| { DeclaredSilent(s, h, ok); }
    hide Declared;
  }

  lemma ChanPartDisconnects(s: State, b: Branch)
    requires CanLoop(s, b) && !TellWindow(s) && ChanPart(s.pc)
    ensures Discreet(s, DoChanPart(s, b))
  {
    if s.pc.Declaring? {
      hide DoDeclaring, InstallWindow, Discreet;
      DeclaringDisconnects(s, s.pc.h, s.pc.i, !b.Fails?);
    } else {
      hide DoDeclaring;
    }
  }

  lemma ConnPartDisconnects(s: State)
    requires ConnPart(s.pc)
    ensures Discreet(s, DoConnPart(s))
  {
  }

  lemma JumpDisconnects(s: State, b: Branch)
    requires CanLoop(s, b) && Jumps(s.pc, b)
    ensures Discreet(s, s.(pc := Jump(s, b)))
  {
  }

  lemma TearDisconnects(s: State)
    requires s.pc.Tearing?
    ensures Discreet(s, DoTearing(s))
  {
  }

  lemma LoopDisconnects(s: State, b: Branch)
    requires CanLoop(s, b) && !TellWindow(s)
    ensures Discreet(s, DoLoop(s, b))
  {
    hide DoConnPart, DoChanPart, DoTearing, Jump, Discreet, TellWindow;
    if Jumps(s.pc, b) {
      JumpDisconnects(s, b);
    } else if ConnPart(s.pc) {
      ConnPartDisconnects(s);
    } else if ChanPart(s.pc) {
      ChanPartDisconnects(s, b);
    } else {
      TearDisconnects(s);
    }
  }

  /** What a step of anybody else says, and when it moves call `j`. */
  predicate Tells(s: State, s': State, j: nat)
    requires j < |s.stops|
  {
    && OnlyDisconnects(s, s') && j < |s'.stops|
    && (s.stops[j] == StopTear(TearEvent) ==> s'.stops[j] == s.stops[j] || s'.events == s.events + [Disconnected])
    && (s.stops[j] != StopTear(TearEvent) && !s.stops[j].StopEnter? ==> s'.stops[j] != StopTear(TearEvent))
  }

  lemma TearSays(s: State, t: Tear)
    ensures TearEffect(s, t).events == if t.TearEvent? then s.events + [Disconnected] else s.events
  {
  }

  lemma StopTells(s: State, i: nat, j: nat)
    requires CanStop(s, i) && j < |s.stops|
    ensures Tells(s, DoStop(s, i), j)
  {
    if s.stops[i].StopTear? {
      var t := s.stops[i].tear;
      hide DoStop, TearEffect;
      StopTearIs(s, i, t);
      TearSays(s, t);
    }
  }

  lemma WatchTells(s: State, w: nat, j: nat)
    requires CanWatch(s, w) && j < |s.stops|
    ensures Tells(s, DoWatch(s, w), j)
  {
  }

  lemma OthersTell(s: State, l: Label, j: nat)
    requires Enabled(s, l) && !l.Loop? && j < |s.stops|
    ensures Tells(s, Apply(s, l), j)
  {
    match l {
      case Watching(w) => hide Tells, DoWatch; WatchTells(s, w, j);
      case Stopping(i) => hide Tells, DoStop; StopTells(s, i, j);
      case _ => hide DoWatch, DoStop;
    }
  }

  lemma StepParts(s: State, j: nat, l: Label)
    requires Inv(s) && Parting(s, j) && Enabled(s, l)
    ensures Parting(Apply(s, l), j)
  {
    if l.Loop? {
      LoopClearsAll(s, l.b) by { hide *; }
      hide Inv, InstallWindow, DoLoop;
      LoopDisconnects(s, l.b);
    } else {
      hide Inv, Apply, Enabled;
      OthersStops(s, j, l);
      OthersFrame(s, l);
      OthersTell(s, l, j);
    }
  }

  lemma {:induction false} RunParts(s: State, j: nat, ls: seq<Label>)
    requires Inv(s) && Parting(s, j) && IsRun(s, ls)
    ensures Parting(After(s, ls), j)
    decreases |ls|
  {
    hide Inv, Parting, Enabled, Apply;
    if ls != [] {
      StepParts(s, j, ls[0]);
      StepKept(s, ls[0]);
      RunParts(Apply(s, ls[0]), j, ls[1..]);
    }
  }

  /** A Stop outside the window has the last word. */
  lemma {:induction false} OutsideWindowParts(s: State, j: nat, ls: seq<Label>)
    requires Inv(s) && StopBegins(s, j) && !TellWindow(s) && StopRun(s, j, ls)
    ensures EndsDisconnected(After(s, ls))
  {
    var s1 := Apply(s, ls[0]);
    assert Parting(s1, j) by {
      hide IndexOk, WatchOk, LogsOk, EventsOk, FieldsOk, At, ConnOwners, ChanOwners;
    }
    hide Inv, InstallWindow;
    StepKept(s, ls[0]);
    RunParts(s1, j, ls[1..]);
  }

  /** Call `j` of Stop up to its event. */
  lemma StopSpeaks(s: State, j: nat) returns (ls: seq<Label>, s': State)
    requires StopBegins(s, j) && !s.doneClosed
    ensures ls != [] && ls[0] == Stopping(j) && IsRun(s, ls) && After(s, ls) == s'
    ensures s' == s.(running := false, doneClosed := true, events := s.events + [Disconnected],
                     stops := s.stops[j := StopTear(TakeChan)])
  {
    var l := Stopping(j);
    var s1 := s.(running := false, doneClosed := true, stops := s.stops[j := StopTear(TearEvent)]);
    s' := s1.(events := s.events + [Disconnected], stops := s.stops[j := StopTear(TakeChan)]);
    assert DoStop(s, j) == s1 && DoStop(s1, j) == s';
    hide DoStop;
    assert IsRun(s', []) && After(s', []) == s';
    hide IsRun, After;
    RunCons(s1, l, []);
    RunCons(s, l, [l] + []);
    ls := [l] + ([l] + []);
  }

  lemma StopTakes(s: State, j: nat) returns (ls: seq<Label>, s': State)
    requires j < |s.stops| && s.stops[j] == StopTear(TakeChan)
    ensures IsRun(s, ls) && After(s, ls) == s'
    ensures s'.pc == s.pc && s'.events == s.events && s'.stops == s.stops[j := StopTear(CloseChan(s.channel))]
  {
    s' := DoStop(s, j);
    assert IsRun(s', []) && After(s', []) == s';
    ls := [Stopping(j)] + [];
    hide DoStop, IsRun, After;
    RunCons(s, Stopping(j), []) by { hide *; }
  }

  lemma WindowOvertakes(s: State, s': State)
    requires At(s) && TellWindow(s) && !s.doneClosed && s'.doneClosed
    requires s'.pc == s.pc && s'.ops == s.ops && s'.conns == s.conns && s'.chans == s.chans
    requires s'.conn == s.conn && s'.channel == s.channel
    ensures Overtaking(s') && Left(s') >= 4
  {
  }

  /** Inside the window the loop announces its channel after Stop has taken its leave. */
  lemma InsideWindowTells(s: State, j: nat) returns (ls: seq<Label>)
    requires Inv(s) && StopBegins(s, j) && TellWindow(s)
    ensures StopRun(s, j, ls) && EndsConnected(After(s, ls))
  {
    assert !s.doneClosed by { hide IndexOk, WatchOk, LogsOk, EventsOk, FieldsOk, At, ConnOwners, ChanOwners; }
    assert At(s);
    hide Inv, IsRun, After, Overtaking, TellWindow;
    var a, s2 := StopSpeaks(s, j);
    WindowOvertakes(s, s2);
    var b := Walk(s2);
    var c, s4 := StopTakes(After(s2, b), j);
    var d := StopRest(s4, j);
    RunAppend(s, a, b);
    RunAppend(s, a + b, c);
    RunAppend(s, a + b + c, d);
    ls := a + b + c + d;
  }

  /** When Stop and the loop have returned, the last that anybody has heard is Disconnected, however they
      interleave, exactly when Stop does not begin in the window. */
  lemma {:induction false} StopIsHeardIff(s: State, j: nat)
    requires Reachable(s) && StopBegins(s, j)
    ensures exists ls :: StopRun(s, j, ls)
    ensures (forall ls :: StopRun(s, j, ls) ==> EndsDisconnected(After(s, ls))) <==> !TellWindow(s)
  {
    hide TellWindow, Inv;
    ReachableInv(s);
    var some := StopCanReturn(s, j);
    if TellWindow(s) {
      var ls := InsideWindowTells(s, j);
      assert StopRun(s, j, ls) && !EndsDisconnected(After(s, ls));
    } else {
      forall ls | StopRun(s, j, ls)
        ensures EndsDisconnected(After(s, ls))
      {
        OutsideWindowParts(s, j, ls);
      }
    }
  }
}
