/** What the subscribers of Connected and Disconnected hear: every installed channel is announced, once,
    in order, before the loop parks. */
module RabbitEvents {
  import opened Basics
  import opened RabbitTopology
  import opened RabbitModel
  import opened RabbitInvariant
  import opened RabbitSafety
  import opened RabbitTheorems

  /** The channels of the Connected events. */
  function Announced(events: seq<Event>): seq<nat> {
    if events == [] then []
    else
      var e := events[|events| - 1];
      Announced(events[..|events| - 1]) + (if e.Connected? then [e.h] else [])
  }

  lemma {:induction false} AnnouncedMore(events: seq<Event>, e: Event)
    ensures Announced(events + [e]) == Announced(events) + (if e.Connected? then [e.h] else [])
  {
    assert (events + [e])[..|events|] == events;
  }

  /** The loop has installed a channel and has not announced it yet. */
  predicate Owing(pc: Pc) { pc.WatchChan? || pc.Announcing? }

  function Pending(s: State): seq<nat> { if Owing(s.pc) then [Last(s.installedChans)] else [] }

  predicate LastConnected(s: State) {
    s.events != [] && s.events[|s.events| - 1] == Connected(Last(s.installedChans))
  }

  ghost predicate Told(s: State) {
    && s.installedChans == Announced(s.events) + Pending(s)
    && (s.pc.Snapshot? || s.pc.Parked? ==> s.doneClosed || LastConnected(s))
  }

  /** A step that publishes nothing. */
  lemma SilentTold(s: State, s': State)
    requires Told(s) && s'.events == s.events && s'.installedChans == s.installedChans
    requires Owing(s'.pc) == Owing(s.pc) && (s.doneClosed ==> s'.doneClosed)
    requires s'.pc.Snapshot? || s'.pc.Parked? ==> s.pc.Snapshot? || s.pc.Parked?
    ensures Told(s')
  {
  }

  /** A step that publishes Disconnected. */
  lemma DisconnectTold(s: State, s': State)
    requires Told(s) && s'.events == s.events + [Disconnected] && s'.installedChans == s.installedChans
    requires Owing(s'.pc) == Owing(s.pc)
    requires s'.pc.Snapshot? || s'.pc.Parked? ==> s'.doneClosed
    ensures Told(s')
  {
    AnnouncedMore(s.events, Disconnected);
  }

  lemma StoreTold(s: State)
    requires Told(s) && s.pc.StoreChan?
    ensures Told(DoStoreChan(s, s.pc.h))
  {
  }

  lemma AnnounceTold(s: State)
    requires Told(s) && s.pc.Announcing?
    ensures Told(Announce(s))
  {
    AnnouncedMore(s.events, Connected(Last(s.installedChans)));
  }

  lemma TearTold(s: State)
    requires Told(s) && s.pc.Tearing?
    ensures Told(DoTearing(s))
  {
    hide Told;
    if s.pc.tear.TearEvent? {
      DisconnectTold(s, DoTearing(s));
    } else {
      SilentTold(s, DoTearing(s));
    }
  }

  lemma JumpTold(s: State, b: Branch)
    requires Told(s) && CanLoop(s, b) && Jumps(s.pc, b)
    ensures Told(s.(pc := Jump(s, b)))
  {
    hide Told;
    SilentTold(s, s.(pc := Jump(s, b)));
  }

  lemma ConnPartTold(s: State)
    requires Told(s) && ConnPart(s.pc)
    ensures Told(DoConnPart(s))
  {
    hide Told;
    if s.pc.DropClose? {
      SilentTold(s, ShutConn(s, s.pc.c).(pc := Dialing));
    } else {
      hide ShutConn;
      SilentTold(s, DoConnPart(s));
    }
  }

  lemma DeclaringTold(s: State, h: nat, i: nat, ok: bool)
    requires Told(s) && s.pc == Declaring(h, i) && h < |s.chans| && (!ok ==> i < |s.ops|)
    ensures Told(DoDeclaring(s, h, i, ok))
  {
    hide Told;
    SilentTold(s, DoDeclaring(s, h, i, ok));
  }

  lemma ChanPartTold(s: State, b: Branch)
    requires Told(s) && ChanPart(s.pc) && CanLoop(s, b) && !Jumps(s.pc, b)
    ensures Told(DoChanPart(s, b))
  {
    hide Told;
    if s.pc.StoreChan? {
      StoreTold(s);
    } else if s.pc.Announcing? {
      AnnounceTold(s);
    } else if s.pc.Declaring? {
      hide DoDeclaring;
      DeclaringTold(s, s.pc.h, s.pc.i, !b.Fails?);
    } else {
      hide DoDeclaring, DoStoreChan, Announce;
      SilentTold(s, DoChanPart(s, b));
    }
  }

  lemma LoopTold(s: State, b: Branch)
    requires Told(s) && CanLoop(s, b)
    ensures Told(DoLoop(s, b))
  {
    hide Told, DoConnPart, DoChanPart, DoTearing;
    if Jumps(s.pc, b) {
      JumpTold(s, b);
    } else if ConnPart(s.pc) {
      ConnPartTold(s);
    } else if ChanPart(s.pc) {
      ChanPartTold(s, b);
    } else {
      TearTold(s);
    }
  }

  lemma StopTold(s: State, j: nat)
    requires Told(s) && StopOk(s) && CanStop(s, j)
    ensures Told(DoStop(s, j))
  {
    hide Told;
    if s.stops[j] == StopTear(TearEvent) {
      DisconnectTold(s, DoStop(s, j));
    } else {
      SilentTold(s, DoStop(s, j));
    }
  }

  lemma StepTold(s: State, l: Label)
    requires Told(s) && StopOk(s) && Enabled(s, l)
    ensures Told(Apply(s, l))
  {
    hide Told, DoLoop, CanLoop;
    match l {
      case Loop(b) => LoopTold(s, b);
      case Stopping(j) => StopTold(s, j);
      case _ => SilentTold(s, Apply(s, l));
    }
  }

  lemma {:induction false} RunTold(s: State, ls: seq<Label>)
    requires Told(s) && Inv(s) && IsRun(s, ls)
    ensures Told(After(s, ls))
    decreases |ls|
  {
    hide Told, Enabled, Apply;
    if ls != [] {
      StepTold(s, ls[0]) by { assert StopOk(s); hide Inv; }
      StepKept(s, ls[0]) by { hide Inv; }
      hide Inv;
      RunTold(Apply(s, ls[0]), ls[1..]);
    }
  }

  lemma ReachableTold(s: State)
    requires Reachable(s)
    ensures Told(s)
  {
    hide Inv, Enabled, Apply, IsRun, After;
    var topo: Topology, ls: seq<Label> :| Reaches(topo, ls, s);
    InitInv(topo);
    RunTold(Init(topo), ls);
  }

  /** The Connected events are the installed channels, one each and in order; only the one that the loop
      has just installed may be missing. */
  lemma AnnouncedInOrder(s: State)
    requires Reachable(s)
    ensures s.installedChans ==
              Announced(s.events) + (if s.pc.WatchChan? || s.pc.Announcing? then [Last(s.installedChans)] else [])
  {
    ReachableTold(s);
    hide Announced, Reachable;
  }

  /** A parked loop that nobody has stopped has told everybody of the channel in the field, and has told
      nothing since. */
  lemma ParkedIsAnnounced(s: State)
    requires Reachable(s) && s.pc.Parked? && !s.doneClosed
    ensures s.channel.Some? && s.events != [] && s.events[|s.events| - 1] == Connected(s.channel.value)
  {
    ReachableTold(s);
    ParkedOnTheNewest(s);
    hide Announced, Reachable;
  }

  /** Wherever no channel is installed, nobody thinks that there is one. */
  lemma HeadIsDisconnected(s: State)
    requires Reachable(s) && (s.pc.Head? || s.pc.Dialing? || s.pc.Waiting?)
    ensures s.channel.None? && (s.events == [] || s.events[|s.events| - 1] == Disconnected)
  {
    ReachableInv(s);
    hide StopOk, IndexOk, WatchOk, LogsOk, EventsOk, FieldsOk, ConnOwners, ChanOwners;
  }
}
