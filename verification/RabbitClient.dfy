/** The client as an object whose fields its goroutines change in place. The loop is written with the
    control flow of the program; `pc` is ghost and only says which step of the state machine comes
    next. Between any two of its steps the other goroutines and the broker may do whatever `plan`
    says. `Valid()` says that the steps taken so far are a run of the state machine, so that every
    promise about reachable states holds of the object at each of these points, and no method can do
    anything but go on with that run. */
module RabbitClient {
  import opened Basics
  import opened RabbitTopology
  import opened RabbitModel
  import opened RabbitInvariant
  import opened RabbitSafety

  // What the machine does at each program point of the loop

  lemma ShutConnIs(s: State, c: Option<nat>)
    ensures ShutConn(s, c) == s.(conns := if c.Some? && ConnOpen(s, c.value)
                                          then s.conns[c.value := Conn(false)] else s.conns)
  {
  }

  lemma ShutChanIs(s: State, h: Option<nat>)
    ensures ShutChan(s, h) == s.(chans := if h.Some? && h.value < |s.chans|
                                          then s.chans[h.value := s.chans[h.value].(open := false)] else s.chans)
  {
  }

  lemma AtJump(s: State, b: Branch)
    requires Jumps(s.pc, b) && CanLoop(s, b)
    ensures DoLoop(s, b) == s.(pc := Jump(s, b))
  {
  }

  function AfterClose(p: Pc): Pc {
    if p.DropClose? then Dialing else if p.Tearing? && p.thenWait then Waiting else Head
  }

  lemma AtCloseConn(s: State, c: Option<nat>)
    requires s.pc == DropClose(c) || (s.pc.Tearing? && s.pc.tear == CloseConn(c))
    ensures CanLoop(s, Plain)
    ensures DoLoop(s, Plain) == s.(conns := ShutConn(s, c).conns, pc := AfterClose(s.pc))
  {
    ShutConnIs(s, c);
    hide ShutConn;
    if s.pc.DropClose? { AtConnPart(s); } else { AtTearing(s); }
    hide DoLoop, CanLoop;
  }

  lemma AtConnPart(s: State)
    requires ConnPart(s.pc)
    ensures CanLoop(s, Plain) && DoLoop(s, Plain) == DoConnPart(s)
  {
  }

  lemma AtChanPart(s: State, b: Branch)
    requires ChanPart(s.pc) && CanLoop(s, b) && !Jumps(s.pc, b)
    ensures DoLoop(s, b) == DoChanPart(s, b)
  {
  }

  lemma AtTearing(s: State)
    requires s.pc.Tearing?
    ensures CanLoop(s, Plain) && DoLoop(s, Plain) == DoTearing(s)
  {
  }

  lemma AtStoreConn(s: State)
    requires s.pc.StoreConn?
    ensures CanLoop(s, Plain)
    ensures var k, tok := s.pc.k, |s.tokens|;
            DoLoop(s, Plain) == s.(conn := Some(k), connClosed := Some(tok),
                                   tokens := s.tokens + [Token(false, TheConn(k))],
                                   installedConns := s.installedConns + [k], pc := WatchConn(k, tok))
  {
    AtConnPart(s);
    hide DoLoop, CanLoop;
  }

  lemma AtStoreChan(s: State)
    requires s.pc.StoreChan?
    ensures CanLoop(s, Plain)
    ensures var h, tok := s.pc.h, |s.tokens|;
            DoLoop(s, Plain) == s.(channel := Some(h), chanClosed := Some(tok),
                                   tokens := s.tokens + [Token(false, TheChan(h))],
                                   installedChans := s.installedChans + [h], pc := WatchChan(h, tok))
  {
    AtPlain(s);
    AtChanPart(s, Plain);
    hide DoLoop, CanLoop;
  }

  lemma AtOpenChan(s: State)
    requires s.pc.OpenChan? && ConnOpen(s, s.pc.k)
    ensures CanLoop(s, Plain) && DoLoop(s, Plain) == DoOpenChan(s, s.pc.k)
  {
    AtPlain(s);
    AtChanPart(s, Plain);
    hide DoLoop, CanLoop, DoOpenChan;
  }

  lemma AtAnnouncing(s: State)
    requires s.pc.Announcing?
    ensures CanLoop(s, Plain) && DoLoop(s, Plain) == Announce(s)
  {
    AtPlain(s);
    AtChanPart(s, Plain);
    hide DoLoop, CanLoop, Announce;
  }

  lemma AtTakeChan(s: State)
    requires s.pc.Tearing? && s.pc.tear.TakeChan?
    ensures CanLoop(s, Plain)
    ensures DoLoop(s, Plain) == s.(channel := None, pc := s.pc.(tear := CloseChan(s.channel)))
  {
    AtTearing(s);
    hide DoLoop, CanLoop;
  }

  lemma AtTearEvent(s: State)
    requires s.pc.Tearing? && s.pc.tear.TearEvent?
    ensures CanLoop(s, Plain)
    ensures DoLoop(s, Plain) == s.(events := s.events + [Disconnected], pc := s.pc.(tear := TakeChan))
  {
    AtTearing(s);
    hide DoLoop, CanLoop;
  }

  function AfterChan(p: Pc): Pc {
    if !p.Tearing? then Tail(true, true)
    else if p.full then p.(tear := TakeConn)
    else if p.thenWait then Waiting
    else Head
  }

  lemma AtCloseChan(s: State, h: Option<nat>)
    requires (h.Some? && s.pc == AbandonChan(h.value)) || (s.pc.Tearing? && s.pc.tear == CloseChan(h))
    ensures CanLoop(s, Plain)
    ensures DoLoop(s, Plain) == s.(chans := ShutChan(s, h).chans, pc := AfterChan(s.pc))
  {
    ShutChanIs(s, h);
    hide ShutChan;
    if s.pc.AbandonChan? { AtChanPart(s, Plain); } else { AtTearing(s); }
    hide DoLoop, CanLoop;
  }

  lemma AtDeclaring(s: State, ok: bool)
    requires s.pc.Declaring? && At(s) && s.pc.i < |s.ops| && (ok ==> ChanOpen(s, s.pc.h))
    ensures var h, i, b := s.pc.h, s.pc.i, if ok then Plain else Fails;
            && CanLoop(s, b)
            && DoLoop(s, b) == s.(chans := s.chans[h := s.chans[h].(log := s.chans[h].log + [Reply(s.ops[i], ok)])],
                                  pc := if ok then Declaring(h, i + 1) else AbandonChan(h))
  {
    AtChanPart(s, if ok then Plain else Fails);
    hide DoLoop;
  }

  lemma AtDeclared(s: State)
    requires s.pc.Declaring? && At(s) && s.pc.i >= |s.ops|
    ensures CanLoop(s, Plain) && DoLoop(s, Plain) == s.(pc := StoreChan(s.pc.h))
  {
    AtChanPart(s, Plain);
    hide DoLoop;
  }

  lemma AtPlain(s: State)
    requires s.pc.StoreChan? || s.pc.WatchChan? || s.pc.Announcing? || (s.pc.OpenChan? && ConnOpen(s, s.pc.k))
    ensures CanLoop(s, Plain)
  {
  }

  /** What the loop may rely on at its program point. */
  lemma ReachableAt(topo: Topology, ls: seq<Label>, s: State)
    requires Reaches(topo, ls, s)
    ensures At(s) && IndexOk(s)
  {
    assert Reachable(s);
    hide Reachable, At, IndexOk, StopOk, WatchOk, LogsOk, EventsOk, FieldsOk, ConnOwners, ChanOwners;
    ReachableInv(s);
  }

  // What the other goroutines do

  function NextPhase(s: State, w: nat): Phase
    requires CanWatch(s, w) && !s.watchers[w].phase.Closing?
  {
    var x := s.watchers[w];
    match x.phase
    case Listening => Woken
    case Woken => if Stopped(s) then Gone else Testing
    case Testing => if s.tokens[x.tok].closed then Gone else Closing
  }

  lemma AtWatch(s: State, w: nat)
    requires CanWatch(s, w) && !s.watchers[w].phase.Closing?
    ensures DoWatch(s, w) == s.(watchers := s.watchers[w := s.watchers[w].(phase := NextPhase(s, w))])
  {
  }

  lemma AtCloseToken(s: State, w: nat)
    requires CanWatch(s, w) && s.watchers[w].phase.Closing?
    ensures var x := s.watchers[w];
            DoWatch(s, w) == if s.tokens[x.tok].closed then s.(crashed := true)
                             else s.(watchers := s.watchers[w := x.(phase := Gone)],
                                     tokens := s.tokens[x.tok := s.tokens[x.tok].(closed := true)])
  {
  }

  lemma AtStopCloseChan(s: State, j: nat, h: Option<nat>)
    requires j < |s.stops| && s.stops[j] == StopTear(CloseChan(h))
    ensures CanStop(s, j)
    ensures DoStop(s, j) == s.(chans := if h.Some? && h.value < |s.chans|
                                        then s.chans[h.value := s.chans[h.value].(open := false)] else s.chans,
                               stops := s.stops[j := StopTear(TakeConn)])
  {
    hide ShutChan;
    StopTearIs(s, j, CloseChan(h));
    ShutChanIs(s, h);
    hide DoStop;
  }

  lemma AtStopCloseConn(s: State, j: nat, c: Option<nat>)
    requires j < |s.stops| && s.stops[j] == StopTear(CloseConn(c))
    ensures CanStop(s, j)
    ensures DoStop(s, j) == s.(conns := if c.Some? && ConnOpen(s, c.value)
                                        then s.conns[c.value := Conn(false)] else s.conns,
                               stops := s.stops[j := StopDone])
  {
    hide ShutConn;
    StopTearIs(s, j, CloseConn(c));
    ShutConnIs(s, c);
    hide DoStop;
  }

  class Client {
    const ops: seq<Op>
    var started: bool
    var running: bool
    var doneClosed: bool
    var ctxDone: bool
    var conns: seq<Conn>
    var chans: seq<Chan>
    var tokens: seq<Token>
    var watchers: seq<Watcher>
    var conn: Option<nat>
    var channel: Option<nat>
    var connClosed: Option<nat>
    var chanClosed: Option<nat>
    var stops: seq<Stopper>
    var crashed: bool
    var plan: seq<seq<Label>>
    /** Whether the broker grants the n-th thing that the loop asks it for, if it can. */
    const consents: nat -> bool
    var asked: nat
    ghost var pc: Pc
    ghost var installedConns: seq<nat>
    ghost var installedChans: seq<nat>
    ghost var events: seq<Event>
    ghost const topo: Topology
    ghost var trace: seq<Label>

    ghost function Abs(): State
      reads this
    {
      State(ops, started, running, doneClosed, ctxDone, conns, chans, tokens, watchers, conn, channel,
            connClosed, chanClosed, pc, stops, installedConns, installedChans, events, crashed)
    }

    /** `trace` is a run of the machine that leads to where the object is. */
    ghost predicate Valid()
      reads this
    {
      Reaches(topo, trace, Abs())
    }

    /** The run has gone on from where it was. */
    twostate predicate Later()
      reads this
    {
      old(trace) <= trace && |plan| <= |old(plan)|
    }

    constructor (topo: Topology, plan: seq<seq<Label>>, consents: nat -> bool)
      ensures Valid() && Abs() == Init(topo) && trace == []
      ensures this.plan == plan && this.consents == consents && asked == 0
    {
      this.consents, asked := consents, 0;
      ops := Ops(topo);
      started, running, doneClosed, ctxDone, crashed := false, false, false, false, false;
      conns, chans, tokens, watchers, stops := [], [], [], [], [];
      conn, channel, connClosed, chanClosed := None, None, None, None;
      this.plan := plan;
      pc, installedConns, installedChans, events := NotStarted, [], [], [];
      this.topo, trace := topo, [];
      new;
      assert Reaches(topo, [], Init(topo));
    }

    /** The broker answers. */
    method Ask() returns (ok: bool)
      requires Valid()
      modifies this`asked
      ensures Valid() && asked == old(asked) + 1 && ok == consents(old(asked))
    {
      ok := consents(asked);
      asked := asked + 1;
    }

    /** Ghost bookkeeping after a step: the object is where the state machine is. */
    ghost method Stepped(s: State, l: Label)
      requires Reaches(topo, trace, s) && Enabled(s, l) && Abs() == Apply(s, l)
      modifies this`trace
      ensures Valid() && trace == old(trace) + [l] && Abs() == old(Abs())
    {
      hide Enabled, Apply;
      assert [l][1..] == [] && IsRun(s, [l]) && After(s, [l]) == Abs();
      RunAppend(Init(topo), trace, [l]);
      trace := trace + [l];
    }

    method Start() returns (ok: bool)
      requires Valid() && (running || !started)
      modifies this`trace, this`started, this`running, this`pc
      ensures Valid() && ok == !old(running) && Abs() == Apply(old(Abs()), RabbitModel.Start)
      ensures trace == old(trace) + [RabbitModel.Start]
    {
      ghost var s := Abs();
      ok := !running;
      if ok {
        started, running, pc := true, true, Head;
      }
      Stepped(s, RabbitModel.Start);
    }

    ghost method LoopStepped(s: State, b: Branch)
      requires Reaches(topo, trace, s) && CanLoop(s, b) && Abs() == DoLoop(s, b)
      modifies this`trace
      ensures Valid() && trace == old(trace) + [Loop(b)] && Abs() == old(Abs())
    {
      hide CanLoop, DoLoop, Reaches;
      Stepped(s, Loop(b));
    }

    // The steps of the loop

    /** The loop looks at something and goes on; `b` is the case it takes. */
    ghost method Turn(b: Branch)
      requires Valid() && Jumps(pc, b) && CanLoop(Abs(), b)
      modifies this`trace, this`pc
      ensures Valid() && Abs() == DoLoop(old(Abs()), b) && trace == old(trace) + [Loop(b)]
      ensures pc == Jump(old(Abs()), b)
    {
      hide LeavesControl, DoLoop, CanLoop, Reaches, Jump;
      ghost var s := Abs();
      pc := Jump(s, b);
      AtJump(s, b);
      LoopStepped(s, b);
    }

    /** The section of dropConnection under the mutex. */
    method TakeConn() returns (c: Option<nat>)
      requires Valid() && (pc.DropTake? || (pc.Tearing? && pc.tear.TakeConn?))
      modifies this`trace, this`conn, this`pc
      ensures Valid() && Abs() == DoLoop(old(Abs()), Plain) && trace == old(trace) + [Loop(Plain)]
      ensures pc == if old(pc).DropTake? then DropClose(c) else old(pc).(tear := Tear.CloseConn(c))
    {
      hide LeavesControl, DoLoop, CanLoop, Reaches;
      ghost var s := Abs();
      c := conn;
      conn := None;
      if pc.DropTake? {
        pc := DropClose(c);
        AtConnPart(s);
      } else {
        pc := Tearing(Tear.CloseConn(c), pc.full, pc.thenWait);
        AtTearing(s);
      }
      LoopStepped(s, Plain);
    }

    ghost predicate Closing(c: Option<nat>)
      reads this
    {
      pc == DropClose(c) || (pc.Tearing? && pc.tear == Tear.CloseConn(c))
    }

    method CloseConn(c: Option<nat>)
      requires Valid() && Closing(c)
      modifies this`trace, this`conns, this`pc
      ensures Valid() && Abs() == DoLoop(old(Abs()), Plain) && trace == old(trace) + [Loop(Plain)]
      ensures pc == AfterClose(old(pc))
    {
      hide LeavesControl, DoLoop, CanLoop, Reaches, ShutConn;
      ghost var s := Abs();
      ShutConnIs(s, c);
      AtCloseConn(s, c);
      if c.Some? && c.value < |conns| && conns[c.value].open {
        conns := conns[c.value := Conn(false)];
      }
      pc := AfterClose(pc);
      LoopStepped(s, Plain);
    }

    method PublishDisconnected()
      requires Valid() && pc.Tearing? && pc.tear.TearEvent?
      modifies this`trace, this`events, this`pc
      ensures Valid() && Abs() == DoLoop(old(Abs()), Plain) && trace == old(trace) + [Loop(Plain)]
      ensures pc == old(pc).(tear := Tear.TakeChan)
    {
      hide LeavesControl, DoLoop, CanLoop, Reaches;
      ghost var s := Abs();
      AtTearEvent(s);
      events := events + [Disconnected];
      pc := Tearing(Tear.TakeChan, pc.full, pc.thenWait);
      LoopStepped(s, Plain);
    }

    /** The section of closeChannel under the mutex. */
    method TakeChan() returns (h: Option<nat>)
      requires Valid() && pc.Tearing? && pc.tear.TakeChan?
      modifies this`trace, this`channel, this`pc
      ensures Valid() && Abs() == DoLoop(old(Abs()), Plain) && trace == old(trace) + [Loop(Plain)]
      ensures pc == old(pc).(tear := Tear.CloseChan(h))
    {
      hide LeavesControl, DoLoop, CanLoop, Reaches;
      ghost var s := Abs();
      AtTakeChan(s);
      h := channel;
      channel := None;
      pc := Tearing(Tear.CloseChan(h), pc.full, pc.thenWait);
      LoopStepped(s, Plain);
    }

    method CloseChan(h: Option<nat>)
      requires Valid() && ((h.Some? && pc == AbandonChan(h.value)) || (pc.Tearing? && pc.tear == Tear.CloseChan(h)))
      modifies this`trace, this`chans, this`pc
      ensures Valid() && Abs() == DoLoop(old(Abs()), Plain) && trace == old(trace) + [Loop(Plain)]
      ensures pc == AfterChan(old(pc))
    {
      hide LeavesControl, DoLoop, CanLoop, Reaches, ShutChan;
      ghost var s := Abs();
      ShutChanIs(s, h);
      AtCloseChan(s, h);
      if h.Some? && h.value < |chans| {
        chans := chans[h.value := chans[h.value].(open := false)];
      }
      pc := AfterChan(pc);
      LoopStepped(s, Plain);
    }

    /** connectWithBackoff gave a connection. */
    method Dialed() returns (k: nat)
      requires Valid() && pc.Dialing?
      modifies this`trace, this`conns, this`pc
      ensures Valid() && Abs() == DoLoop(old(Abs()), Plain) && trace == old(trace) + [Loop(Plain)]
      ensures pc == StoreConn(k)
    {
      hide LeavesControl, DoLoop, CanLoop, Reaches;
      ghost var s := Abs();
      AtConnPart(s);
      k := |conns|;
      conns := conns + [Conn(true)];
      pc := Pc.StoreConn(k);
      LoopStepped(s, Plain);
    }

    /** The section of dial under the mutex. */
    method InstallConn(k: nat) returns (tok: nat)
      requires Valid() && pc == StoreConn(k)
      modifies this`trace, this`conn, this`connClosed, this`tokens, this`installedConns, this`pc
      ensures Valid() && Abs() == DoLoop(old(Abs()), Plain) && trace == old(trace) + [Loop(Plain)]
      ensures pc == WatchConn(k, tok)
    {
      hide LeavesControl, DoLoop, CanLoop, Reaches;
      ghost var s := Abs();
      AtStoreConn(s);
      tok := |tokens|;
      tokens := tokens + [Token(false, TheConn(k))];
      conn := Some(k);
      connClosed := Some(tok);
      installedConns := installedConns + [k];
      pc := WatchConn(k, tok);
      LoopStepped(s, Plain);
    }

    /** watchClose starts a watcher. */
    method StartWatcher(of: Resource, tok: nat)
      requires Valid()
      requires match of case TheConn(k) => pc == WatchConn(k, tok) case TheChan(h) => pc == WatchChan(h, tok)
      modifies this`trace, this`watchers, this`pc
      ensures Valid() && Abs() == DoLoop(old(Abs()), Plain) && trace == old(trace) + [Loop(Plain)]
      ensures pc == if of.TheConn? then ReadConn else Announcing
    {
      hide LeavesControl, DoLoop, CanLoop, Reaches;
      ghost var s := Abs();
      watchers := watchers + [Watcher(of, tok, Listening)];
      if of.TheConn? {
        pc := ReadConn;
        AtConnPart(s);
      } else {
        pc := Announcing;
        assert CanLoop(s, Plain) by { AtPlain(s); }
        AtChanPart(s, Plain);
      }
      LoopStepped(s, Plain);
    }

    /** conn.Channel() succeeded. */
    method OpenedChan(k: nat) returns (h: nat)
      requires Valid() && pc == OpenChan(k) && k < |conns| && conns[k].open
      modifies this`trace, this`chans, this`pc
      ensures Valid() && Abs() == DoLoop(old(Abs()), Plain) && trace == old(trace) + [Loop(Plain)]
      ensures pc == Declaring(h, 0) && ChanIsOpen(h)
    {
      hide LeavesControl, DoLoop, CanLoop, Reaches;
      ghost var s := Abs();
      AtOpenChan(s);
      h := |chans|;
      chans := chans + [Chan(k, true, [])];
      pc := Declaring(h, 0);
      LoopStepped(s, Plain);
    }

    predicate ConnIsOpen()
      reads this`conn, this`conns
    {
      conn.Some? && conn.value < |conns| && conns[conn.value].open
    }

    predicate ChanIsOpen(h: nat)
      reads this`chans, this`conns
    {
      h < |chans| && chans[h].open && chans[h].conn < |conns| && conns[chans[h].conn].open
    }

    /** One call of declareTopology with the broker's answer; a closed channel fails every call. */
    method Declare(h: nat, i: nat, ok: bool)
      requires Valid() && pc == Declaring(h, i) && h < |chans| && i < |ops| && (ok ==> ChanIsOpen(h))
      modifies this`trace, this`chans, this`pc
      ensures Valid() && Abs() == DoLoop(old(Abs()), if ok then Plain else Fails)
      ensures trace == old(trace) + [Loop(if ok then Plain else Fails)]
      ensures pc == if ok then Declaring(h, i + 1) else AbandonChan(h)
      ensures h < |chans| && chans[h] == old(chans[h]).(log := chans[h].log)
    {
      ghost var s := Abs();
      ReachableAt(topo, trace, s) by { hide Reaches, At, IndexOk; }
      assert At(s) && h < |chans| by { hide Reaches, IndexOk; }
      AtDeclaring(s, ok) by { hide Reaches, At, IndexOk, DoLoop, CanLoop; }
      hide LeavesControl, DoLoop, CanLoop, Reaches, At, IndexOk;
      chans := chans[h := chans[h].(log := chans[h].log + [Reply(ops[i], ok)])];
      pc := if ok then Declaring(h, i + 1) else AbandonChan(h);
      LoopStepped(s, if ok then Plain else Fails);
    }

    ghost method AllDeclared(h: nat, i: nat)
      requires Valid() && pc == Declaring(h, i) && h < |chans| && i >= |ops|
      modifies this`trace, this`pc
      ensures Valid() && Abs() == DoLoop(old(Abs()), Plain) && trace == old(trace) + [Loop(Plain)]
      ensures pc == StoreChan(h)
    {
      hide LeavesControl, DoLoop, CanLoop, Reaches, At, IndexOk;
      ghost var s := Abs();
      ReachableAt(topo, trace, s);
      AtDeclared(s);
      pc := Pc.StoreChan(h);
      LoopStepped(s, Plain);
    }

    /** The section of openChannel under the mutex. */
    method InstallChan(h: nat) returns (tok: nat)
      requires Valid() && pc == StoreChan(h)
      modifies this`trace, this`channel, this`chanClosed, this`tokens, this`installedChans, this`pc
      ensures Valid() && Abs() == DoLoop(old(Abs()), Plain) && trace == old(trace) + [Loop(Plain)]
      ensures pc == WatchChan(h, tok)
    {
      hide LeavesControl, DoLoop, CanLoop, Reaches;
      ghost var s := Abs();
      AtStoreChan(s);
      tok := |tokens|;
      tokens := tokens + [Token(false, TheChan(h))];
      channel := Some(h);
      chanClosed := Some(tok);
      installedChans := installedChans + [h];
      pc := WatchChan(h, tok);
      LoopStepped(s, Plain);
    }

    method PublishConnected()
      requires Valid() && pc.Announcing?
      modifies this`trace, this`events, this`pc
      ensures Valid() && Abs() == DoLoop(old(Abs()), Plain) && trace == old(trace) + [Loop(Plain)]
      ensures pc == Snapshot
    {
      hide LeavesControl, DoLoop, CanLoop, Reaches;
      ghost var s := Abs();
      AtAnnouncing(s);
      events := events + [Connected(Last(installedChans))];
      pc := Snapshot;
      LoopStepped(s, Plain);
    }

    // Everybody else

    method CallStop()
      requires Valid()
      modifies this`trace, this`stops
      ensures Valid() && Abs() == Apply(old(Abs()), RabbitModel.CallStop)
      ensures trace == old(trace) + [RabbitModel.CallStop]
    {
      hide Reaches;
      ghost var s := Abs();
      stops := stops + [StopEnter];
      Stepped(s, RabbitModel.CallStop);
    }

    method CancelCtx()
      requires Valid()
      modifies this`trace, this`ctxDone
      ensures Valid() && Abs() == Apply(old(Abs()), RabbitModel.CancelCtx)
      ensures trace == old(trace) + [RabbitModel.CancelCtx]
    {
      hide Reaches;
      ghost var s := Abs();
      ctxDone := true;
      Stepped(s, RabbitModel.CancelCtx);
    }

    method KillConn(k: nat)
      requires Valid() && k < |conns|
      modifies this`trace, this`conns
      ensures Valid() && Abs() == Apply(old(Abs()), RabbitModel.KillConn(k))
      ensures trace == old(trace) + [RabbitModel.KillConn(k)]
    {
      hide Reaches;
      ghost var s := Abs();
      conns := conns[k := Conn(false)];
      Stepped(s, RabbitModel.KillConn(k));
    }

    method KillChan(h: nat)
      requires Valid() && h < |chans|
      modifies this`trace, this`chans
      ensures Valid() && Abs() == Apply(old(Abs()), RabbitModel.KillChan(h))
      ensures trace == old(trace) + [RabbitModel.KillChan(h)]
    {
      hide Reaches;
      ghost var s := Abs();
      chans := chans[h := chans[h].(open := false)];
      Stepped(s, RabbitModel.KillChan(h));
    }

    predicate IsAlive(r: Resource)
      reads this
    {
      match r case TheConn(k) => k < |conns| && conns[k].open case TheChan(h) => ChanIsOpen(h)
    }

    method PhaseAfter(w: nat) returns (p: Phase)
      requires CanWatch(Abs(), w) && !watchers[w].phase.Closing?
      ensures p == NextPhase(Abs(), w)
    {
      var x := watchers[w];
      match x.phase {
        case Listening => p := Woken;
        case Woken => p := if doneClosed || ctxDone then Gone else Testing;
        case Testing => p := if tokens[x.tok].closed then Gone else Phase.Closing;
      }
    }

    /** close(closed), which panics if somebody has closed the token before. */
    method CloseToken(w: nat)
      requires Valid() && CanWatch(Abs(), w) && watchers[w].phase.Closing?
      modifies this`trace, this`watchers, this`tokens, this`crashed
      ensures Valid() && Abs() == DoWatch(old(Abs()), w) && trace == old(trace) + [Watching(w)]
    {
      hide LeavesAllButWatchers, DoWatch, Reaches;
      ghost var s := Abs();
      AtCloseToken(s, w);
      hide CanWatch;
      var x := watchers[w];
      if tokens[x.tok].closed {
        crashed := true;
      } else {
        watchers := watchers[w := x.(phase := Gone)];
        tokens := tokens[x.tok := tokens[x.tok].(closed := true)];
      }
      Stepped(s, Watching(w));
    }

    /** One step of watcher `w`: wake up, look at stopped(), look at the token, close it. */
    method WatchStep(w: nat)
      requires Valid() && CanWatch(Abs(), w)
      modifies this`trace, this`watchers, this`tokens, this`crashed
      ensures Valid() && Abs() == DoWatch(old(Abs()), w) && trace == old(trace) + [Watching(w)]
    {
      hide LeavesAllButWatchers, DoWatch, Reaches, NextPhase;
      if watchers[w].phase.Closing? {
        CloseToken(w);
        return;
      }
      ghost var s := Abs();
      AtWatch(s, w);
      var p := PhaseAfter(w);
      hide CanWatch;
      watchers := watchers[w := watchers[w].(phase := p)];
      Stepped(s, Watching(w));
    }

    /** The section of Stop under the mutex. */
    method StopEnters(j: nat)
      requires Valid() && j < |stops| && stops[j].StopEnter?
      modifies this`trace, this`running, this`doneClosed, this`stops, this`crashed
      ensures Valid() && Abs() == DoStop(old(Abs()), j) && trace == old(trace) + [Stopping(j)]
    {
      hide LeavesControl, DoStop, Reaches;
      ghost var s := Abs();
      StopEnterIs(s, j);
      if !running {
        stops := stops[j := StopDone];
      } else if doneClosed {
        crashed := true;
      } else {
        running := false;
        doneClosed := true;
        stops := stops[j := StopTear(TearEvent)];
      }
      Stepped(s, Stopping(j));
    }

    // The teardown in Stop, step by step

    method StopPublishes(j: nat)
      requires Valid() && j < |stops| && stops[j] == StopTear(TearEvent)
      modifies this`trace, this`events, this`stops
      ensures Valid() && Abs() == DoStop(old(Abs()), j) && trace == old(trace) + [Stopping(j)]
    {
      hide LeavesControl, DoStop, Reaches;
      ghost var s := Abs();
      StopTearIs(s, j, TearEvent);
      events := events + [Disconnected];
      stops := stops[j := StopTear(Tear.TakeChan)];
      Stepped(s, Stopping(j));
    }

    method StopTakesChan(j: nat)
      requires Valid() && j < |stops| && stops[j] == StopTear(Tear.TakeChan)
      modifies this`trace, this`channel, this`stops
      ensures Valid() && Abs() == DoStop(old(Abs()), j) && trace == old(trace) + [Stopping(j)]
    {
      hide LeavesControl, DoStop, Reaches;
      ghost var s := Abs();
      StopTearIs(s, j, Tear.TakeChan);
      stops := stops[j := StopTear(Tear.CloseChan(channel))];
      channel := None;
      Stepped(s, Stopping(j));
    }

    method StopClosesChan(j: nat, h: Option<nat>)
      requires Valid() && j < |stops| && stops[j] == StopTear(Tear.CloseChan(h))
      modifies this`trace, this`chans, this`stops
      ensures Valid() && Abs() == DoStop(old(Abs()), j) && trace == old(trace) + [Stopping(j)]
    {
      hide LeavesControl, DoStop, Reaches, ShutChan;
      ghost var s := Abs();
      AtStopCloseChan(s, j, h);
      if h.Some? && h.value < |chans| {
        chans := chans[h.value := chans[h.value].(open := false)];
      }
      stops := stops[j := StopTear(Tear.TakeConn)];
      Stepped(s, Stopping(j));
    }

    method StopTakesConn(j: nat)
      requires Valid() && j < |stops| && stops[j] == StopTear(Tear.TakeConn)
      modifies this`trace, this`conn, this`stops
      ensures Valid() && Abs() == DoStop(old(Abs()), j) && trace == old(trace) + [Stopping(j)]
    {
      hide LeavesControl, DoStop, Reaches;
      ghost var s := Abs();
      StopTearIs(s, j, Tear.TakeConn);
      stops := stops[j := StopTear(Tear.CloseConn(conn))];
      conn := None;
      Stepped(s, Stopping(j));
    }

    method StopClosesConn(j: nat, c: Option<nat>)
      requires Valid() && j < |stops| && stops[j] == StopTear(Tear.CloseConn(c))
      modifies this`trace, this`conns, this`stops
      ensures Valid() && Abs() == DoStop(old(Abs()), j) && trace == old(trace) + [Stopping(j)]
    {
      hide LeavesControl, DoStop, Reaches, ShutConn;
      ghost var s := Abs();
      AtStopCloseConn(s, j, c);
      if c.Some? && c.value < |conns| && conns[c.value].open {
        conns := conns[c.value := Conn(false)];
      }
      stops := stops[j := StopDone];
      Stepped(s, Stopping(j));
    }

    method StopStep(j: nat)
      requires Valid() && j < |stops| && !stops[j].StopDone?
      modifies this
      ensures Valid() && Abs() == DoStop(old(Abs()), j) && trace == old(trace) + [Stopping(j)]
      ensures plan == old(plan) && pc == old(pc) && asked == old(asked)
    {
      hide LeavesControl, DoStop, Reaches;
      match stops[j] {
        case StopEnter => StopEnters(j);
        case StopTear(TearEvent) => StopPublishes(j);
        case StopTear(TakeChan) => StopTakesChan(j);
        case StopTear(CloseChan(h)) => StopClosesChan(j, h);
        case StopTear(TakeConn) => StopTakesConn(j);
        case StopTear(CloseConn(c)) => StopClosesConn(j, c);
      }
    }

    /** One step of somebody else, if `l` is one and can happen now. */
    method Other(l: Label)
      requires Valid()
      modifies this
      ensures Valid() && plan == old(plan) && pc == old(pc) && asked == old(asked)
      ensures || (Abs() == old(Abs()) && trace == old(trace))
              || (Enabled(old(Abs()), l) && Abs() == Apply(old(Abs()), l) && trace == old(trace) + [l])
    {
      hide DoStop, DoWatch, Reaches;
      match l {
        case CallStop => CallStop();
        case CancelCtx => CancelCtx();
        case KillConn(k) => if k < |conns| { KillConn(k); }
        case KillChan(h) => if h < |chans| { KillChan(h); }
        case Watching(w) =>
          if w < |watchers| && !watchers[w].phase.Gone? && watchers[w].tok < |tokens|
             && (!watchers[w].phase.Listening? || !IsAlive(watchers[w].of)) {
            WatchStep(w);
          }
        case Stopping(j) => if j < |stops| && !stops[j].StopDone? { StopStep(j); }
        case Start =>
        case Loop(_) =>
      }
    }

    /** Whatever the others do before the loop takes its next step. */
    method Others()
      requires Valid()
      modifies this
      ensures Valid() && pc == old(pc) && Later() && (old(plan) != [] ==> |plan| < |old(plan)|)
      ensures asked == old(asked) && (old(plan) == [] ==> plan == [] && Abs() == old(Abs()))
    {
      hide Reaches;
      if plan != [] {
        var batch := plan[0];
        plan := plan[1..];
        for i := 0 to |batch|
          invariant Valid() && pc == old(pc) && plan == old(plan)[1..] && old(trace) <= trace && asked == old(asked)
        {
          Other(batch[i]);
        }
      }
    }

    // The functions of the loop. Each says at which step of the machine it is called and returns.

    method ConnAlive() returns (alive: bool)
      requires Valid() && pc.ReadAlive?
      modifies this
      ensures Valid() && pc == (if alive then ReadConn else DropTake) && Later()
      ensures asked == old(asked) && (old(plan) == [] ==> plan == [] && alive == old(ConnIsOpen()))
    {
      hide Valid, Reaches, DoLoop;
      Others();
      var c := conn;
      Turn(Plain);
      Others();
      alive := c.Some? && c.value < |conns| && conns[c.value].open;
      Turn(Plain);
    }

    method DropConnection()
      requires Valid() && (pc.DropTake? || (pc.Tearing? && pc.tear.TakeConn?))
      modifies this
      ensures Valid() && Later() && asked == old(asked)
      ensures pc == if old(pc).DropTake? then Dialing else if old(pc).thenWait then Waiting else Head
    {
      hide Valid, Reaches, DoLoop;
      Others();
      var c := TakeConn();
      Others();
      CloseConn(c);
    }

    method CloseChannel()
      requires Valid() && pc.Tearing? && pc.tear.TearEvent?
      modifies this
      ensures Valid() && Later() && pc == AfterChan(old(pc))
    {
      hide Valid, Reaches, DoLoop;
      Others();
      PublishDisconnected();
      Others();
      var h := TakeChan();
      Others();
      CloseChan(h);
    }

    method Teardown()
      requires Valid() && pc.Tearing? && pc.tear.TearEvent? && pc.full
      modifies this
      ensures Valid() && Later() && pc == if old(pc).thenWait then Waiting else Head
    {
      hide Valid, Reaches;
      CloseChannel();
      DropConnection();
    }

    method Connect() returns (k: Option<nat>)
      requires Valid() && pc.Dialing?
      modifies this
      ensures Valid() && Later()
      ensures pc == if k.Some? then StoreConn(k.value) else Waiting
      ensures asked == old(asked) + 1 && (k.Some? <==> consents(old(asked)))
    {
      hide Valid, Reaches, DoLoop;
      Others();
      var ok := Ask();
      if !ok {
        Turn(Fails);
        return None;
      }
      var n := Dialed();
      k := Some(n);
    }

    method Dial() returns (ok: bool)
      requires Valid() && pc.Dialing?
      modifies this
      ensures Valid() && Later() && pc == if ok then ReadConn else Waiting
      ensures asked == old(asked) + 1 && (ok <==> consents(old(asked)))
    {
      hide Valid, Reaches, DoLoop;
      var k := Connect();
      if k.None? { return false; }
      Others();
      var tok := InstallConn(k.value);
      Others();
      StartWatcher(TheConn(k.value), tok);
      ok := true;
    }

    /** The first half of a turn: keep a live connection, or drop the dead one and dial. Undisturbed, it
        fails exactly when the connection is dead and the broker refuses another. */
    method HaveConn() returns (ok: bool)
      requires Valid() && pc.ReadAlive?
      modifies this
      ensures Valid() && Later() && pc == if ok then ReadConn else Waiting
      ensures old(plan) == [] ==> (ok <==> old(ConnIsOpen()) || consents(old(asked)))
      ensures old(plan) == [] && old(ConnIsOpen()) ==> asked == old(asked)
    {
      hide Valid, Reaches;
      ok := ConnAlive();
      if !ok {
        DropConnection();
        ok := Dial();
      }
    }

    /** The next call of declareTopology. */
    method DeclareNext(h: nat, i: nat) returns (ok: bool)
      requires Valid() && pc == Declaring(h, i) && i < |ops|
      modifies this
      ensures Valid() && Later() && pc == if ok then Declaring(h, i + 1) else AbandonChan(h)
      ensures asked == old(asked) + 1 && (ok ==> consents(old(asked)))
      ensures !ok ==> !consents(old(asked)) || !ChanIsOpen(h)
      ensures old(plan) == [] && old(ChanIsOpen(h)) ==>
                plan == [] && ChanIsOpen(h)
    {
      hide Valid, Reaches, DoLoop;
      Others();
      HasChan();
      ok := Ask();
      ok := ok && ChanIsOpen(h);
      Declare(h, i, ok);
    }

    /** declareTopology on channel `h`, the calls being those of `DeclareTopology`. */
    method DeclareAll(h: nat) returns (ok: bool)
      requires Valid() && pc == Declaring(h, 0)
      modifies this
      ensures Valid() && Later() && pc == if ok then StoreChan(h) else AbandonChan(h)
      ensures ok ==> asked == old(asked) + |ops| && forall n | old(asked) <= n < asked :: consents(n)
      ensures !ok ==> old(asked) < asked <= old(asked) + |ops| && (!consents(asked - 1) || !ChanIsOpen(h))
      ensures old(plan) == [] && old(ChanIsOpen(h)) ==> plan == [] && ChanIsOpen(h)
    {
      hide Valid, Reaches, DoLoop, ChanIsOpen;
      var i := 0;
      while i < |ops|
        invariant Valid() && i <= |ops| && pc == Declaring(h, i) && Later()
        invariant asked == old(asked) + i && forall n | old(asked) <= n < asked :: consents(n)
        invariant old(plan) == [] && old(ChanIsOpen(h)) ==> plan == [] && ChanIsOpen(h)
      {
        ok := DeclareNext(h, i);
        if !ok { return; }
        i := i + 1;
      }
      HasChan();
      AllDeclared(h, i);
      ok := true;
    }

    ghost method HasChan()
      requires Valid() && pc.Declaring?
      ensures pc.h < |chans|
    {
      ReachableAt(topo, trace, Abs()) by { hide Reaches, At, IndexOk; }
      hide Reaches, IndexOk;
    }

    /** The connection that openChannel is going to use. */
    method UsableConn() returns (c: Option<nat>)
      requires Valid() && pc.ReadConn?
      modifies this
      ensures Valid() && Later()
      ensures pc == if c.Some? then OpenChan(c.value) else Tail(true, true)
      ensures asked == old(asked) && (c.Some? ==> c.value < |conns| && conns[c.value].open)
      ensures old(plan) == [] ==> plan == [] && conns == old(conns) && (old(ConnIsOpen()) ==> c == conn == old(conn))
    {
      hide Valid, Reaches, DoLoop;
      Others();
      c := conn;
      Turn(Plain);
      Others();
      if c.Some? && !(c.value < |conns| && conns[c.value].open) { c := None; }
      Turn(Plain);
    }

    ghost method NoChannelFrom(k: nat)
      requires Valid() && pc == OpenChan(k)
      modifies this`trace, this`pc
      ensures Valid() && pc == Tail(true, true) && old(trace) <= trace
    {
      hide Valid, Reaches, DoLoop;
      Turn(Fails);
    }

    /** conn.Channel(), which fails on a closed connection. */
    method NewChannel(k: nat) returns (h: Option<nat>)
      requires Valid() && pc == OpenChan(k)
      modifies this
      ensures Valid() && Later()
      ensures pc == if h.Some? then Declaring(h.value, 0) else Tail(true, true)
      ensures asked == old(asked) + 1 && (h.Some? ==> consents(old(asked)) && ChanIsOpen(h.value))
      ensures h.None? ==> !consents(old(asked)) || !(k < |conns| && conns[k].open)
      ensures old(plan) == [] ==> plan == [] && conns == old(conns)
    {
      hide Valid, Reaches, DoLoop, Jump, CanLoop;
      Others();
      var ok := Ask();
      if !ok || !(k < |conns| && conns[k].open) {
        NoChannelFrom(k);
        return None;
      }
      var n := OpenedChan(k);
      h := Some(n);
    }

    /** The topology on a new channel, and then its store, or its close. */
    method Furnish(h: nat) returns (ok: bool)
      requires Valid() && pc == Declaring(h, 0)
      modifies this
      ensures Valid() && Later() && pc == if ok then Announcing else Tail(true, true)
      ensures ok ==> forall n | old(asked) <= n < old(asked) + |ops| :: consents(n)
      ensures old(plan) == [] && old(ChanIsOpen(h)) ==>
                (ok <==> forall n | old(asked) <= n < old(asked) + |ops| :: consents(n))
    {
      hide Valid, Reaches, DoLoop, ChanIsOpen;
      ok := DeclareAll(h);
      Others();
      if ok { UseChannel(h); } else { CloseChan(Some(h)); }
    }

    /** With a living connection and nobody in the way, it succeeds exactly when the broker grants the
        channel and every declaration. */
    method OpenChannel() returns (ok: bool)
      requires Valid() && pc.ReadConn?
      modifies this
      ensures Valid() && Later() && pc == if ok then Announcing else Tail(true, true)
      ensures ok ==> forall n | old(asked) <= n <= old(asked) + |ops| :: consents(n)
      ensures old(plan) == [] && old(ConnIsOpen()) ==>
                (ok <==> forall n | old(asked) <= n <= old(asked) + |ops| :: consents(n))
    {
      hide Valid, Reaches, DoLoop, ChanIsOpen;
      var c := UsableConn();
      if c.None? { return false; }
      var h := NewChannel(c.value);
      if h.None? { return false; }
      ok := Furnish(h.value);
    }

    method UseChannel(h: nat)
      requires Valid() && pc == StoreChan(h)
      modifies this
      ensures Valid() && Later() && pc == Announcing
    {
      hide Valid, Reaches, DoLoop;
      var tok := InstallChan(h);
      Others();
      StartWatcher(TheChan(h), tok);
    }

    method Wait() returns (more: bool)
      requires Valid() && pc.Waiting?
      modifies this
      ensures Valid() && Later() && pc == (if more then Head else Ended)
      ensures !more ==> doneClosed || ctxDone
    {
      hide Valid, Reaches, DoLoop;
      Others();
      more := *;
      more := more || !(doneClosed || ctxDone);
      Turn(if more then OnTimer else OnStop);
    }

    predicate IsClosed(tok: Option<nat>)
      reads this
    {
      tok.Some? && tok.value < |tokens| && tokens[tok.value].closed
    }

    predicate Ready(ct: Option<nat>, ht: Option<nat>)
      reads this
    {
      doneClosed || ctxDone || IsClosed(ct) || IsClosed(ht)
    }

    /** The select blocks until one of its cases is ready, or until the plan is exhausted. */
    method Block(ct: Option<nat>, ht: Option<nat>)
      requires Valid() && pc == Parked(ct, ht)
      modifies this
      ensures Valid() && pc == Parked(ct, ht) && Later() && (Ready(ct, ht) || plan == [])
    {
      hide Valid, Reaches;
      Others();
      while plan != [] && !Ready(ct, ht)
        invariant Valid() && pc == Parked(ct, ht) && Later()
        decreases |plan|
      {
        Others();
      }
    }

    /** The inner select. */
    method LookAgain(ct: Option<nat>) returns (onConn: bool)
      requires Valid() && pc == Recheck(ct)
      modifies this
      ensures Valid() && Later() && pc == Tail(onConn, false) && onConn == IsClosed(ct)
    {
      hide Valid, Reaches, DoLoop;
      Others();
      onConn := IsClosed(ct);
      Turn(Plain);
    }

    /** The channel has closed; has the connection, too? */
    method ChannelLost(ct: Option<nat>, ht: Option<nat>)
      requires Valid() && pc == Parked(ct, ht) && IsClosed(ht)
      modifies this
      ensures Valid() && Later() && pc == Head
    {
      hide Valid, Reaches, DoLoop;
      Turn(OnChan);
      var onConn := LookAgain(ct);
      if onConn { Teardown(); } else { CloseChannel(); }
    }

    /** The select at the end of the loop takes any case that is ready. */
    method Select(ct: Option<nat>, ht: Option<nat>) returns (over: bool)
      requires Valid() && pc == Parked(ct, ht)
      modifies this
      ensures Valid() && Later() && (!over ==> pc == Head)
      ensures over ==> (pc == Ended && (doneClosed || ctxDone)) || plan == []
    {
      hide Valid, Reaches, DoLoop;
      Block(ct, ht);
      if !Ready(ct, ht) { return true; }
      var first, second: bool := *, *;
      var onConn, onChan := IsClosed(ct), IsClosed(ht);
      over := (doneClosed || ctxDone) && (first || !(onConn || onChan));
      if over {
        Turn(OnStop);
      } else if onConn && (second || !onChan) {
        Turn(OnConn);
        Teardown();
      } else {
        ChannelLost(ct, ht);
      }
    }

    method IsStopped() returns (stopped: bool)
      requires Valid() && pc.Head?
      modifies this
      ensures Valid() && Later() && (old(plan) != [] ==> |plan| < |old(plan)|)
      ensures pc == (if stopped then Ended else ReadAlive) && (stopped <==> doneClosed || ctxDone)
    {
      hide Valid, Reaches, DoLoop;
      Others();
      stopped := doneClosed || ctxDone;
      Turn(Plain);
    }

    method ReadTokens() returns (ct: Option<nat>, ht: Option<nat>)
      requires Valid() && pc.Snapshot?
      modifies this
      ensures Valid() && Later() && pc == Parked(ct, ht)
    {
      hide Valid, Reaches, DoLoop;
      Others();
      ct, ht := connClosed, chanClosed;
      Turn(Plain);
    }

    /** The second half of a turn that has a channel: tell everybody, and wait for a loss or for Stop. */
    method Serve() returns (over: bool)
      requires Valid() && pc.Announcing?
      modifies this
      ensures Valid() && Later() && (!over ==> pc == Head)
      ensures over ==> (pc == Ended && (doneClosed || ctxDone)) || plan == []
    {
      hide Valid, Reaches, DoLoop;
      Others();
      PublishConnected();
      var ct, ht := ReadTokens();
      over := Select(ct, ht);
    }

    /** reconnectLoop, for as long as the plan lasts. */
    method ReconnectLoop()
      requires Valid() && pc.Head?
      modifies this
      ensures Valid() && Later() && ((pc.Ended? && (doneClosed || ctxDone)) || plan == [])
    {
      hide Valid, Reaches, DoLoop, ConnIsOpen;
      while plan != []
        invariant Valid() && Later() && pc.Head?
        decreases |plan|
      {
        var stopped := IsStopped();
        if stopped { return; }
        var ok := HaveConn();
        if !ok {
          ok := Wait();
          if !ok { return; }
          continue;
        }
        ok := OpenChannel();
        if !ok {
          Teardown();
          ok := Wait();
          if !ok { return; }
          continue;
        }
        var over := Serve();
        if over { return; }
      }
    }
  }
}
