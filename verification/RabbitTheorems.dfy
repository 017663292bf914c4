/** What the reconnecting client promises, for every reachable state and every interleaving of the
    loop, the watchers, any number of Stop calls and the broker. */
module RabbitTheorems {
  import opened Basics
  import opened RabbitTopology
  import opened RabbitModel
  import opened RabbitInvariant
  import opened RabbitSafety

  // Connections and channels are never lost and never shared

  /** An open connection is with the loop that has just dialled it, in the field, or with the one
      goroutine that took it out to close it; it is never in two of these places. */
  lemma ConnectionConservation(s: State, k: nat)
    requires Reachable(s) && k < |s.conns|
    ensures s.conns[k].open ==> exists o :: OwnsConn(s, k, o)
    ensures forall o, p :: OwnsConn(s, k, o) && OwnsConn(s, k, p) ==> o == p
  {
    ReachableInv(s);
    hide StopOk, IndexOk, WatchOk, LogsOk, EventsOk, FieldsOk, At, ChanOwners;
  }

  lemma ChannelConservation(s: State, h: nat)
    requires Reachable(s) && h < |s.chans|
    ensures s.chans[h].open ==> exists o :: OwnsChan(s, h, o)
    ensures forall o, p :: OwnsChan(s, h, o) && OwnsChan(s, h, p) ==> o == p
  {
    ReachableInv(s);
    hide StopOk, IndexOk, WatchOk, LogsOk, EventsOk, FieldsOk, At, ConnOwners;
  }

  /** dial and openChannel store into empty fields, and the loop head never sees a channel. */
  lemma NeverOverwrites(s: State)
    requires Reachable(s)
    ensures s.pc.StoreConn? ==> s.conn.None?
    ensures s.pc.StoreChan? || s.pc.Head? ==> s.channel.None?
  {
    ReachableInv(s);
    hide StopOk, IndexOk, WatchOk, LogsOk, EventsOk, FieldsOk, ConnOwners, ChanOwners;
  }

  // Generations

  /** Each token has exactly one watcher, or is about to get it; no token is closed twice, a token is
      closed only when the very connection or channel it was made for is gone, and a watcher leaves
      its token open only if the client is stopped. */
  lemma TokensBelong(s: State, i: nat)
    requires Reachable(s) && i < |s.tokens|
    ensures !s.crashed
    ensures forall v, w | 0 <= v < |s.watchers| && 0 <= w < |s.watchers| && s.watchers[v].tok == s.watchers[w].tok ::
              v == w
    ensures (exists w :: 0 <= w < |s.watchers| && s.watchers[w].tok == i) <==> !(AwaitsWatcher(s.pc) && s.pc.tok == i)
    ensures s.tokens[i].closed ==> !Alive(s, s.tokens[i].of)
    ensures forall w | 0 <= w < |s.watchers| && s.watchers[w].tok == i && s.watchers[w].phase.Gone? ::
              s.tokens[i].closed || Stopped(s)
  {
    ReachableInv(s);
    hide IndexOk, LogsOk, EventsOk, FieldsOk, ConnOwners, ChanOwners;
    forall w | 0 <= w < |s.watchers|
      ensures s.watchers[w].tok == w && (s.watchers[w].phase.Gone? ==> s.tokens[w].closed || Stopped(s))
    {
      assert WatcherOk(s, w);
    }
    assert TokenOk(s, i);
    if i < |s.watchers| {
      assert s.watchers[i].tok == i;
    }
  }

  /** As long as nobody has called Stop, a channel in the field lives on the connection in the field. */
  lemma ChannelOnConnection(s: State)
    requires Reachable(s) && !s.doneClosed && s.channel.Some?
    ensures s.conn.Some? && s.channel.value < |s.chans| && s.chans[s.channel.value].conn == s.conn.value
  {
    ReachableInv(s);
    hide StopOk, IndexOk, WatchOk, LogsOk, EventsOk, At, ConnOwners, ChanOwners;
  }

  /** A parked loop waits for the connection and the channel it installed last; unless Stop has been
      called these are the ones in the fields, and that channel lives on that connection. */
  lemma ParkedOnTheNewest(s: State)
    requires Reachable(s) && s.pc.Parked?
    ensures s.installedConns != [] && s.installedChans != []
    ensures ConnToken(s, s.pc.ct) && ChanToken(s, s.pc.ht)
    ensures !s.doneClosed ==>
              && s.conn == Some(Last(s.installedConns)) && s.channel == Some(Last(s.installedChans))
              && s.channel.value < |s.chans| && s.chans[s.channel.value].conn == s.conn.value
  {
    ReachableInv(s);
    hide StopOk, IndexOk, WatchOk, LogsOk, EventsOk, ConnOwners, ChanOwners;
  }

  // Wake-ups

  /** The resource token `tok` stands for. */
  function ResourceOf(s: State, tok: Option<nat>): Resource
    requires tok.Some? && tok.value < |s.tokens|
  {
    s.tokens[tok.value].of
  }

  /** No wake-up is lost: if the connection or channel that a parked loop waits for has died, then
      its token is closed, or the watcher of that token can move, or the client is stopped. */
  lemma NoLostWakeUp(s: State, tok: Option<nat>)
    requires Reachable(s) && s.pc.Parked? && (tok == s.pc.ct || tok == s.pc.ht)
    ensures tok.Some? && tok.value < |s.tokens|
    ensures !Alive(s, ResourceOf(s, tok)) ==> TokenClosed(s, tok) || CanWatch(s, tok.value) || Stopped(s)
  {
    ReachableInv(s);
    hide StopOk, IndexOk, LogsOk, EventsOk, ConnOwners, ChanOwners;
    assert tok.value < |s.watchers|;
    assert WatcherOk(s, tok.value);
  }

  /** The client is stopped, and watcher `w` has not looked at that before it was. */
  predicate TooLate(s: State, w: nat) {
    && Stopped(s) && w < |s.watchers| && w < |s.tokens| && !s.tokens[w].closed
    && (s.watchers[w].phase.Listening? || s.watchers[w].phase.Woken? || s.watchers[w].phase.Gone?)
  }

  lemma WatchTooLate(s: State, v: nat, w: nat)
    requires WatchOk(s) && CanWatch(s, v) && TooLate(s, w)
    ensures TooLate(DoWatch(s, v), w)
  {
    assert WatcherOk(s, v);
  }

  lemma OthersTooLate(s: State, l: Label, w: nat)
    requires Enabled(s, l) && !l.Watching? && !l.Loop? && TooLate(s, w)
    ensures TooLate(Apply(s, l), w)
  {
  }

  lemma ConnPartTooLate(s: State, w: nat)
    requires ConnPart(s.pc) && TooLate(s, w)
    ensures TooLate(DoConnPart(s), w)
  {
  }

  lemma ChanPartTooLate(s: State, b: Branch, w: nat)
    requires ChanPart(s.pc) && CanLoop(s, b) && TooLate(s, w)
    ensures TooLate(DoChanPart(s, b), w)
  {
  }

  lemma TearTooLate(s: State, w: nat)
    requires s.pc.Tearing? && TooLate(s, w)
    ensures TooLate(DoTearing(s), w)
  {
  }

  lemma LoopTooLate(s: State, b: Branch, w: nat)
    requires CanLoop(s, b) && TooLate(s, w)
    ensures TooLate(DoLoop(s, b), w)
  {
    hide DoConnPart, DoChanPart, DoTearing, Jump;
    if Jumps(s.pc, b) {
      assert DoLoop(s, b) == s.(pc := Jump(s, b));
    } else if ConnPart(s.pc) {
      ConnPartTooLate(s, w);
    } else if ChanPart(s.pc) {
      ChanPartTooLate(s, b, w);
    } else {
      TearTooLate(s, w);
    }
  }

  lemma {:induction false} RunTooLate(s: State, ls: seq<Label>, w: nat)
    requires Inv(s) && IsRun(s, ls) && TooLate(s, w)
    ensures TooLate(After(s, ls), w)
    decreases |ls|
  {
    if ls != [] {
      var l := ls[0];
      assert WatchOk(s);
      StepKept(s, l) by { hide *; }
      hide Inv, WatchOk, TooLate, DoLoop, CanLoop, DoWatch, CanWatch, IsRun;
      if l.Loop? {
        LoopTooLate(s, l.b, w);
      } else if l.Watching? {
        WatchTooLate(s, l.w, w);
      } else {
        OthersTooLate(s, l, w);
      }
      hide Apply, Enabled;
      RunTooLate(Apply(s, l), ls[1..], w);
    }
  }

  /** A watcher that wakes up after the client has been stopped leaves its token alone: in every run from
      then on the token stays open. */
  lemma {:induction false} StoppedWatchersLeave(s: State, w: nat, ls: seq<Label>)
    requires Reachable(s) && Stopped(s) && IsRun(s, ls) && w < |s.watchers|
    requires s.watchers[w].phase.Listening? || s.watchers[w].phase.Woken?
    ensures s.watchers[w].tok < |After(s, ls).tokens| && !After(s, ls).tokens[s.watchers[w].tok].closed
  {
    ReachableInv(s);
    assert TooLate(s, w) && s.watchers[w].tok == w by {
      hide StopOk, IndexOk, LogsOk, EventsOk, FieldsOk, At, ConnOwners, ChanOwners;
      assert WatcherOk(s, w);
    }
    hide Inv;
    RunTooLate(s, ls, w);
  }

  /** A watcher goes its way whatever the loop and the callers of Stop do: it is held up exactly as long as
      its connection or channel lives. */
  lemma WatcherBlocksIff(s: State, w: nat)
    requires Reachable(s) && w < |s.watchers| && !s.watchers[w].phase.Gone?
    ensures !CanWatch(s, w) <==> Alive(s, s.watchers[w].of)
  {
    ReachableInv(s);
    hide StopOk, IndexOk, LogsOk, EventsOk, FieldsOk, At, ConnOwners, ChanOwners;
    assert WatcherOk(s, w);
  }

  /** The loop waits for nobody but the broker: it is held up exactly in its select, as long as neither
      token is closed and nobody has stopped the client. */
  lemma LoopBlocksIff(s: State)
    requires Reachable(s) && s.started && !s.pc.Ended?
    ensures !(exists b :: CanLoop(s, b)) <==>
              s.pc.Parked? && !Stopped(s) && !TokenClosed(s, s.pc.ct) && !TokenClosed(s, s.pc.ht)
  {
    ReachableInv(s);
    hide IndexOk, WatchOk, LogsOk, EventsOk, FieldsOk, ConnOwners, ChanOwners;
    if s.pc.Parked? {
      assert Stopped(s) ==> CanLoop(s, OnStop);
      assert TokenClosed(s, s.pc.ct) ==> CanLoop(s, OnConn);
      assert TokenClosed(s, s.pc.ht) ==> CanLoop(s, OnChan);
    } else {
      assert CanLoop(s, Plain) || CanLoop(s, Fails) || CanLoop(s, OnTimer);
    }
  }

  /** Some step of the client itself, not of the broker or of a new caller. */
  ghost predicate CanMove(s: State) {
    || (exists b :: CanLoop(s, b))
    || (exists w: nat :: CanWatch(s, w))
    || (exists j: nat :: CanStop(s, j))
  }

  /** The client comes to rest only when the loop has ended or never started, or is parked with
      both of its resources alive and nobody having stopped it. */
  lemma RestsOnlyWhenHealthy(s: State)
    requires Reachable(s) && !CanMove(s)
    ensures || s.pc.NotStarted? || s.pc.Ended?
            || (s.pc.Parked? && !Stopped(s)
                && ConnToken(s, s.pc.ct) && ChanToken(s, s.pc.ht)
                && Alive(s, ResourceOf(s, s.pc.ct)) && Alive(s, ResourceOf(s, s.pc.ht)))
  {
    LoopBlocksOnlyParked(s);
    if s.pc.Parked? {
      ParkedOnTheNewest(s);
      NoLostWakeUp(s, s.pc.ct);
      NoLostWakeUp(s, s.pc.ht);
      assert !CanLoop(s, OnStop) && !CanLoop(s, OnConn) && !CanLoop(s, OnChan);
    }
  }

  lemma InvBlocks(s: State)
    requires Inv(s) && !CanMove(s)
    ensures s.pc.NotStarted? || s.pc.Ended? || s.pc.Parked?
  {
    hide StopOk, IndexOk, WatchOk, LogsOk, EventsOk, FieldsOk, ConnOwners, ChanOwners;
    assert !CanLoop(s, Plain) && !CanLoop(s, Fails) && !CanLoop(s, OnTimer);
  }

  lemma LoopBlocksOnlyParked(s: State)
    requires Reachable(s) && !CanMove(s)
    ensures s.pc.NotStarted? || s.pc.Ended? || s.pc.Parked?
  {
    hide Inv, CanMove;
    ReachableInv(s);
    InvBlocks(s);
  }

  // Notifications

  /** Between two Connected events there is a Disconnected one. */
  lemma ConnectedOnce(s: State, i: nat, j: nat)
    requires Reachable(s) && i < j < |s.events| && s.events[i].Connected? && s.events[j].Connected?
    ensures exists d :: i < d < j && s.events[d].Disconnected?
  {
    ReachableInv(s);
    hide StopOk, IndexOk, WatchOk, LogsOk, FieldsOk, At, ConnOwners, ChanOwners;
    assert s.events[i + 1].Disconnected?;
  }

  // Declarations

  lemma StepOps(s: State, l: Label)
    requires Enabled(s, l)
    ensures Apply(s, l).ops == s.ops
  {
    hide DoLoop, DoWatch, CanLoop, CanWatch;
  }

  lemma {:induction false} RunOps(s: State, ls: seq<Label>)
    requires IsRun(s, ls)
    ensures After(s, ls).ops == s.ops
    decreases |ls|
  {
    hide Enabled, Apply;
    if ls != [] {
      StepOps(s, ls[0]);
      RunOps(Apply(s, ls[0]), ls[1..]);
    }
  }

  /** A client declares the topology that it was made with, all along. */
  lemma ReachedOps(topo: Topology, ls: seq<Label>, s: State)
    requires Reaches(topo, ls, s)
    ensures s.ops == Ops(topo) && Inv(s)
  {
    hide Enabled, Apply, Inv, IsRun, After, Ops;
    assert Reachable(s);
    ReachableInv(s);
    RunOps(Init(topo), ls);
  }

  /** Every Connected event is about a channel on which the whole topology was declared: its exchanges,
      then its queues, then its bindings. */
  lemma ConnectedMeansDeclared(topo: Topology, ls: seq<Label>, s: State, i: nat)
    requires Reaches(topo, ls, s) && i < |s.events| && s.events[i].Connected?
    ensures s.events[i].h < |s.chans| && Complete(Ops(topo), s.chans[s.events[i].h].log)
    ensures Declares(topo, s.chans[s.events[i].h].log)
  {
    ReachedOps(topo, ls, s);
    hide StopOk, IndexOk, WatchOk, FieldsOk, At, ConnOwners, ChanOwners, Complete, Ops, Reaches, Declares;
    CompleteIff(topo, s.chans[s.events[i].h].log);
  }

  /** Any declaration is a prefix of the topology in which only the last call may have failed; a
      channel on which one failed, or that is incomplete, is never installed or announced. */
  lemma FailedAttempt(topo: Topology, ls: seq<Label>, s: State, h: nat)
    requires Reaches(topo, ls, s) && h < |s.chans|
    ensures Attempt(Ops(topo), s.chans[h].log) && CallsFor(topo, s.chans[h].log)
    ensures !Complete(Ops(topo), s.chans[h].log) ==>
              h !in s.installedChans && s.channel != Some(h) && Connected(h) !in s.events
  {
    ReachedOps(topo, ls, s);
    hide StopOk, IndexOk, WatchOk, At, ConnOwners, ChanOwners, Attempt, Complete, Ops, Reaches, CallsFor;
    AttemptIff(topo, s.chans[h].log);
    if h in s.installedChans {
      var i :| 0 <= i < |s.installedChans| && s.installedChans[i] == h;
    }
    if s.channel == Some(h) {
      assert s.installedChans[|s.installedChans| - 1] == h;
    }
  }

  /** A declaration in the machine that came to its end is the one that the three loops of
      declareTopology make on their own when the broker gives the same answers. */
  lemma DeclaresAsTheLoops(topo: Topology, ls: seq<Label>, s: State, h: nat, log: seq<Reply>, answers: seq<bool>)
    requires Reaches(topo, ls, s) && h < |s.chans| && |answers| == |Ops(topo)|
    requires Complete(Ops(topo), s.chans[h].log) || !Succeeded(s.chans[h].log)
    requires Attempt(Ops(topo), log) && (Complete(Ops(topo), log) || !Succeeded(log))
    requires forall i | 0 <= i < |log| :: log[i].ok == answers[i]
    requires |s.chans[h].log| <= |answers|
    requires forall i | 0 <= i < |s.chans[h].log| :: s.chans[h].log[i].ok == answers[i]
    ensures s.chans[h].log == log
  {
    FailedAttempt(topo, ls, s, h);
    hide Ops, Reaches;
    AttemptUnique(Ops(topo), s.chans[h].log, log, answers);
  }
}
