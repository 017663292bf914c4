/** Every step of the reconnect machine keeps the invariant. */
module RabbitSafety {
  import opened Basics
  import opened RabbitTopology
  import opened RabbitModel
  import opened RabbitInvariant

  // What the loop must expect from everybody else

  /** A step of a watcher, of Stop or of the broker, as the loop sees it. Only a Stop that has
      closed done empties the fields. */
  ghost predicate Interferes(s: State, s': State) {
    && s'.pc == s.pc && s'.ops == s.ops
    && (s.doneClosed ==> s'.doneClosed)
    && |s'.conns| == |s.conns| && |s'.chans| == |s.chans| && |s'.tokens| == |s.tokens|
    && (forall h | 0 <= h < |s.chans| :: s'.chans[h].conn == s.chans[h].conn && s'.chans[h].log == s.chans[h].log)
    && (forall i | 0 <= i < |s.tokens| :: s'.tokens[i].of == s.tokens[i].of)
    && s'.connClosed == s.connClosed && s'.chanClosed == s.chanClosed
    && s'.installedConns == s.installedConns && s'.installedChans == s.installedChans
    && (s'.conn == s.conn || (s'.doneClosed && s'.conn.None?))
    && (s'.channel == s.channel || (s'.doneClosed && s'.channel.None?))
    && (s'.events == s.events || s'.events == s.events + [Disconnected])
  }

  lemma InterferencePoint(s: State, s': State)
    requires Interferes(s, s') && At(s)
    ensures At(s')
  {
  }

  lemma InterferenceKept(s: State, s': State)
    requires Interferes(s, s') && LogsOk(s) && EventsOk(s) && FieldsOk(s) && At(s)
    ensures LogsOk(s') && EventsOk(s') && FieldsOk(s') && At(s')
  {
    hide At;
    InterferencePoint(s, s');
    assert LogsOk(s') by { hide FieldsOk, EventsOk; }
    assert EventsOk(s') by { hide FieldsOk, LogsOk; }
    assert FieldsOk(s') by { hide LogsOk, EventsOk; }
  }

  /** Nothing about tokens and watchers changes, and what is dead stays dead. */
  ghost predicate WatchFrame(s: State, s': State) {
    && s'.tokens == s.tokens && s'.watchers == s.watchers
    && AwaitsWatcher(s'.pc) == AwaitsWatcher(s.pc)
    && (forall r :: ResourceValid(s, r) ==> ResourceValid(s', r) && (Alive(s', r) ==> Alive(s, r)))
    && (Stopped(s) ==> Stopped(s'))
  }

  lemma WatchFrameKept(s: State, s': State)
    requires WatchFrame(s, s') && WatchOk(s)
    ensures WatchOk(s')
  {
    forall w | 0 <= w < |s.watchers|
      ensures WatcherOk(s', w)
    {
      assert WatcherOk(s, w) && ResourceValid(s, s.tokens[w].of);
    }
    forall i | 0 <= i < |s.tokens|
      ensures ResourceValid(s', s'.tokens[i].of) && TokenOk(s', i)
    {
      assert ResourceValid(s, s.tokens[i].of) && TokenOk(s, i);
    }
  }

  /** Nothing changes hands. Connections and channels may close. */
  ghost predicate SameOwners(s: State, s': State) {
    && |s'.conns| == |s.conns| && |s'.chans| == |s.chans|
    && (forall k | 0 <= k < |s.conns| && s'.conns[k].open :: s.conns[k].open)
    && (forall h | 0 <= h < |s.chans| && s'.chans[h].open :: s.chans[h].open)
    && (forall k: nat, o :: OwnsConn(s', k, o) <==> OwnsConn(s, k, o))
    && (forall h: nat, o :: OwnsChan(s', h, o) <==> OwnsChan(s, h, o))
  }

  lemma SameOwnersKept(s: State, s': State)
    requires SameOwners(s, s') && ConnOwners(s) && ChanOwners(s)
    ensures ConnOwners(s') && ChanOwners(s')
  {
    forall k | 0 <= k < |s.conns| && s'.conns[k].open
      ensures exists o :: OwnsConn(s', k, o)
    {
      var o :| OwnsConn(s, k, o);
      assert OwnsConn(s', k, o);
    }
    forall h | 0 <= h < |s.chans| && s'.chans[h].open
      ensures exists o :: OwnsChan(s', h, o)
    {
      var o :| OwnsChan(s, h, o);
      assert OwnsChan(s', h, o);
    }
  }

  /** Only `open` bits fall. */
  ghost predicate Closes(s: State, s': State) {
    && s' == s.(conns := s'.conns, chans := s'.chans)
    && |s'.conns| == |s.conns| && |s'.chans| == |s.chans|
    && (forall k | 0 <= k < |s.conns| :: s'.conns[k].open ==> s.conns[k].open)
    && (forall h | 0 <= h < |s.chans| ::
          && s'.chans[h] == s.chans[h].(open := s'.chans[h].open)
          && (s'.chans[h].open ==> s.chans[h].open))
  }

  lemma ShutChanFrame(s: State, h: Option<nat>)
    ensures Closes(s, ShutChan(s, h)) && ShutChan(s, h).conns == s.conns
    ensures h.Some? && h.value < |s.chans| ==> !ShutChan(s, h).chans[h.value].open
  {
  }

  lemma ShutConnFrame(s: State, c: Option<nat>)
    ensures Closes(s, ShutConn(s, c)) && ShutConn(s, c).chans == s.chans
    ensures c.Some? && c.value < |s.conns| ==> !ShutConn(s, c).conns[c.value].open
  {
  }

  /** Owner `o` lets go of channel `h0`, which is closed now. */
  lemma ReleaseChan(s: State, s': State, h0: Option<nat>, o: Owner)
    requires ConnOwners(s) && ChanOwners(s)
    requires s'.conns == s.conns && |s'.chans| == |s.chans|
    requires forall h | 0 <= h < |s.chans| && s'.chans[h].open :: s.chans[h].open && h0 != Some(h)
    requires forall k: nat, p :: OwnsConn(s', k, p) <==> OwnsConn(s, k, p)
    requires forall h: nat, p :: OwnsChan(s', h, p) ==> OwnsChan(s, h, p)
    requires forall h: nat, p :: OwnsChan(s, h, p) ==> OwnsChan(s', h, p) || (p == o && h0 == Some(h))
    ensures ConnOwners(s') && ChanOwners(s')
  {
    forall h | 0 <= h < |s.chans| && s'.chans[h].open
      ensures exists p :: OwnsChan(s', h, p)
    {
      var p :| OwnsChan(s, h, p);
      assert OwnsChan(s', h, p);
    }
  }

  lemma ReleaseConn(s: State, s': State, c: Option<nat>, o: Owner)
    requires ConnOwners(s) && ChanOwners(s)
    requires |s'.conns| == |s.conns| && s'.chans == s.chans
    requires forall k | 0 <= k < |s.conns| && s'.conns[k].open :: s.conns[k].open && c != Some(k)
    requires forall k: nat, p :: OwnsConn(s', k, p) ==> OwnsConn(s, k, p)
    requires forall k: nat, p :: OwnsConn(s, k, p) ==> OwnsConn(s', k, p) || (p == o && c == Some(k))
    requires forall h: nat, p :: OwnsChan(s', h, p) <==> OwnsChan(s, h, p)
    ensures ConnOwners(s') && ChanOwners(s')
  {
    forall k | 0 <= k < |s.conns| && s'.conns[k].open
      ensures exists p :: OwnsConn(s', k, p)
    {
      var p :| OwnsConn(s, k, p);
      assert OwnsConn(s', k, p);
    }
  }

  /** What owner `a` had, now owner `b` has. */
  lemma PassChan(s: State, s': State, a: Owner, b: Owner)
    requires ConnOwners(s) && ChanOwners(s) && a != b
    requires s'.conns == s.conns && |s'.chans| == |s.chans|
    requires forall h | 0 <= h < |s.chans| && s'.chans[h].open :: s.chans[h].open
    requires forall k: nat, p :: OwnsConn(s', k, p) <==> OwnsConn(s, k, p)
    requires forall h: nat, p :: OwnsChan(s', h, p) ==>
               if p == b then OwnsChan(s, h, a) else p != a && OwnsChan(s, h, p)
    requires forall h: nat, p :: OwnsChan(s, h, p) ==> OwnsChan(s', h, if p == a then b else p)
    ensures ConnOwners(s') && ChanOwners(s')
  {
    forall h | 0 <= h < |s.chans| && s'.chans[h].open
      ensures exists p :: OwnsChan(s', h, p)
    {
      var p :| OwnsChan(s, h, p);
      assert OwnsChan(s', h, if p == a then b else p);
    }
  }

  lemma PassConn(s: State, s': State, a: Owner, b: Owner)
    requires ConnOwners(s) && ChanOwners(s) && a != b
    requires |s'.conns| == |s.conns| && |s'.chans| == |s.chans|
    requires forall k | 0 <= k < |s.conns| && s'.conns[k].open :: s.conns[k].open
    requires forall h | 0 <= h < |s.chans| && s'.chans[h].open :: s.chans[h].open
    requires forall h: nat, p :: OwnsChan(s', h, p) <==> OwnsChan(s, h, p)
    requires forall k: nat, p :: OwnsConn(s', k, p) ==>
               if p == b then OwnsConn(s, k, a) else p != a && OwnsConn(s, k, p)
    requires forall k: nat, p :: OwnsConn(s, k, p) ==> OwnsConn(s', k, if p == a then b else p)
    ensures ConnOwners(s') && ChanOwners(s')
  {
    forall k | 0 <= k < |s.conns| && s'.conns[k].open
      ensures exists p :: OwnsConn(s', k, p)
    {
      var p :| OwnsConn(s, k, p);
      assert OwnsConn(s', k, if p == a then b else p);
    }
    forall h | 0 <= h < |s.chans| && s'.chans[h].open
      ensures exists p :: OwnsChan(s', h, p)
    {
      var p :| OwnsChan(s, h, p);
      assert OwnsChan(s', h, p);
    }
  }

  // The watchers

  lemma PhasedKept(s: State, w: nat, p: Phase)
    requires WatchOk(s) && w < |s.watchers| && !Alive(s, s.watchers[w].of)
    requires !p.Listening? && (s.tokens[w].closed ==> p.Gone?)
    requires p.Gone? ==> s.tokens[w].closed || Stopped(s)
    ensures WatchOk(Phased(s, w, p))
  {
    var s' := Phased(s, w, p);
    forall r
      ensures Alive(s', r) == Alive(s, r) && ResourceValid(s', r) == ResourceValid(s, r)
    {
    }
    forall v | 0 <= v < |s.watchers|
      ensures WatcherOk(s', v)
    {
      assert WatcherOk(s, v);
    }
    forall i | 0 <= i < |s.tokens|
      ensures ResourceValid(s', s'.tokens[i].of) && TokenOk(s', i)
    {
      assert ResourceValid(s, s.tokens[i].of) && TokenOk(s, i);
    }
  }

  function CloseToken(s: State, w: nat): State
    requires w < |s.watchers| && w < |s.tokens|
  {
    Phased(s, w, Gone).(tokens := s.tokens[w := s.tokens[w].(closed := true)])
  }

  lemma CloseTokenKept(s: State, w: nat)
    requires WatchOk(s) && w < |s.watchers| && !Alive(s, s.watchers[w].of)
    ensures WatchOk(CloseToken(s, w))
  {
    var s' := CloseToken(s, w);
    forall r
      ensures Alive(s', r) == Alive(s, r) && ResourceValid(s', r) == ResourceValid(s, r)
    {
    }
    assert WatcherOk(s, w);
    forall v | 0 <= v < |s.watchers|
      ensures WatcherOk(s', v)
    {
      assert WatcherOk(s, v);
    }
    forall i | 0 <= i < |s.tokens|
      ensures ResourceValid(s', s'.tokens[i].of) && TokenOk(s', i)
    {
      assert ResourceValid(s, s.tokens[i].of) && TokenOk(s, i);
    }
  }

  lemma WatcherStepFrame(s: State, w: nat)
    requires WatchOk(s) && CanWatch(s, w) && !s.crashed
    ensures var s' := DoWatch(s, w);
            && s' == s.(watchers := s'.watchers, tokens := s'.tokens)
            && |s'.tokens| == |s.tokens| && WatchOk(s')
            && (forall i | 0 <= i < |s.tokens| :: s'.tokens[i].of == s.tokens[i].of)
  {
    assert WatcherOk(s, w);
    hide WatchOk;
    match s.watchers[w].phase {
      case Listening => PhasedKept(s, w, Woken);
      case Woken => PhasedKept(s, w, if Stopped(s) then Gone else Testing);
      case Testing => PhasedKept(s, w, if s.tokens[w].closed then Gone else Closing);
      case Closing => CloseTokenKept(s, w);
    }
  }

  lemma TokensKept(s: State, ws: seq<Watcher>, ts: seq<Token>)
    requires Inv(s) && |ts| == |s.tokens|
    requires forall i | 0 <= i < |ts| :: ts[i].of == s.tokens[i].of
    requires WatchOk(s.(watchers := ws, tokens := ts))
    ensures Inv(s.(watchers := ws, tokens := ts))
  {
    hide LogsOk, EventsOk, FieldsOk, At, ConnOwners, ChanOwners, WatchOk;
    var s' := s.(watchers := ws, tokens := ts);
    InterferenceKept(s, s');
    assert SameOwners(s, s');
    SameOwnersKept(s, s');
  }

  /** No watcher closes a token twice: each token has one watcher. */
  lemma WatchingKept(s: State, w: nat)
    requires Inv(s) && CanWatch(s, w)
    ensures Inv(DoWatch(s, w))
  {
    var s' := DoWatch(s, w);
    WatcherStepFrame(s, w) by { hide LogsOk, EventsOk, FieldsOk, At, ConnOwners, ChanOwners, IndexOk; }
    hide Inv;
    TokensKept(s, s'.watchers, s'.tokens);
  }

  // The broker and the other calls

  lemma ClosesKept(s: State, s': State)
    requires Inv(s) && Closes(s, s')
    ensures Inv(s')
  {
    assert IndexOk(s') && StopOk(s') by { hide LogsOk, EventsOk, FieldsOk, At, ConnOwners, ChanOwners, WatchOk; }
    hide LogsOk, EventsOk, FieldsOk, At, ConnOwners, ChanOwners, WatchOk, StopOk;
    InterferenceKept(s, s');
    assert SameOwners(s, s');
    SameOwnersKept(s, s');
    forall r | ResourceValid(s, r)
      ensures ResourceValid(s', r) && (Alive(s', r) ==> Alive(s, r))
    {
    }
    WatchFrameKept(s, s');
  }

  lemma StartKept(s: State)
    requires Inv(s) && Enabled(s, Start)
    ensures Inv(Apply(s, Start))
  {
    if !s.running {
      var s' := s.(started := true, running := true, pc := Head);
      assert LogsOk(s') && EventsOk(s') && FieldsOk(s') && At(s') by {
        hide ConnOwners, ChanOwners, WatchOk, StopOk, IndexOk;
      }
      assert IndexOk(s') && StopOk(s') by { hide LogsOk, EventsOk, FieldsOk, At, ConnOwners, ChanOwners, WatchOk; }
      hide LogsOk, EventsOk, FieldsOk, At, ConnOwners, ChanOwners, WatchOk, IndexOk;
      SameOwnersKept(s, s');
      WatchFrameKept(s, s');
    }
  }

  lemma CallStopKept(s: State)
    requires Inv(s)
    ensures Inv(Apply(s, CallStop))
  {
    var s' := Apply(s, CallStop);
    assert IndexOk(s') && StopOk(s') by { hide LogsOk, EventsOk, FieldsOk, At, ConnOwners, ChanOwners, WatchOk; }
    hide LogsOk, EventsOk, FieldsOk, At, ConnOwners, ChanOwners, WatchOk, StopOk, IndexOk;
    InterferenceKept(s, s');
    SameOwnersKept(s, s');
    WatchFrameKept(s, s');
  }

  lemma CancelCtxKept(s: State)
    requires Inv(s)
    ensures Inv(Apply(s, CancelCtx))
  {
    var s' := Apply(s, CancelCtx);
    assert IndexOk(s') && StopOk(s') by { hide LogsOk, EventsOk, FieldsOk, At, ConnOwners, ChanOwners, WatchOk; }
    hide LogsOk, EventsOk, FieldsOk, At, ConnOwners, ChanOwners, WatchOk, StopOk, IndexOk;
    InterferenceKept(s, s');
    SameOwnersKept(s, s');
    WatchFrameKept(s, s');
  }

  lemma DisconnectedKept(s: State)
    requires Inv(s)
    ensures Inv(s.(events := s.events + [Disconnected]))
  {
    var s' := s.(events := s.events + [Disconnected]);
    assert IndexOk(s') && StopOk(s') by { hide LogsOk, EventsOk, FieldsOk, At, ConnOwners, ChanOwners, WatchOk; }
    hide LogsOk, EventsOk, FieldsOk, At, ConnOwners, ChanOwners, WatchOk, StopOk, IndexOk;
    InterferenceKept(s, s');
    SameOwnersKept(s, s');
    WatchFrameKept(s, s');
  }

  // Stop

  /** What a step of Stop must show, apart from who owns what. */
  lemma StopStepKept(s: State, s': State)
    requires Inv(s) && Interferes(s, s') && WatchFrame(s, s')
    requires StopOk(s') && IndexOk(s') && ConnOwners(s') && ChanOwners(s')
    ensures Inv(s')
  {
    hide LogsOk, EventsOk, FieldsOk, At, ConnOwners, ChanOwners, WatchOk, StopOk, IndexOk, Interferes, WatchFrame;
    InterferenceKept(s, s');
    WatchFrameKept(s, s');
  }

  lemma StopEnterIs(s: State, j: nat)
    requires j < |s.stops| && s.stops[j].StopEnter?
    ensures DoStop(s, j) == s.(running := s.running && s.doneClosed, doneClosed := s.doneClosed || s.running,
                               stops := if !s.running then s.stops[j := StopDone]
                                        else if s.doneClosed then s.stops
                                        else s.stops[j := StopTear(TearEvent)],
                               crashed := s.crashed || (s.running && s.doneClosed))
  {
  }

  lemma StopEnterKept(s: State, j: nat)
    requires Inv(s) && CanStop(s, j) && s.stops[j].StopEnter?
    ensures Inv(DoStop(s, j))
  {
    var s' := DoStop(s, j);
    StopEnterIs(s, j);
    hide DoStop, LogsOk, EventsOk, FieldsOk, At, ConnOwners, ChanOwners, WatchOk;
    assert IndexOk(s') && StopOk(s') && !s.crashed && (s.running ==> !s.doneClosed);
    hide StopOk, IndexOk;
    SameOwnersKept(s, s');
    StopStepKept(s, s');
  }

  lemma StopTakeChanOwners(s: State, j: nat)
    requires ConnOwners(s) && ChanOwners(s) && CanStop(s, j) && s.stops[j] == StopTear(TakeChan)
    ensures ConnOwners(DoStop(s, j)) && ChanOwners(DoStop(s, j))
  {
    hide ConnOwners, ChanOwners;
    PassChan(s, DoStop(s, j), TheField, StopCloser(j));
  }

  lemma StopTakeConnOwners(s: State, j: nat)
    requires ConnOwners(s) && ChanOwners(s) && CanStop(s, j) && s.stops[j] == StopTear(TakeConn)
    ensures ConnOwners(DoStop(s, j)) && ChanOwners(DoStop(s, j))
  {
    hide ConnOwners, ChanOwners;
    PassConn(s, DoStop(s, j), TheField, StopCloser(j));
  }

  lemma StopCloseChanOwners(s: State, j: nat)
    requires ConnOwners(s) && ChanOwners(s) && CanStop(s, j)
    requires s.stops[j].StopTear? && s.stops[j].tear.CloseChan?
    ensures ConnOwners(DoStop(s, j)) && ChanOwners(DoStop(s, j))
  {
    hide ConnOwners, ChanOwners;
    var s', h0 := DoStop(s, j), s.stops[j].tear.h;
    ShutChanFrame(s, h0);
    assert s' == s.(chans := s'.chans, stops := s.stops[j := StopTear(TakeConn)]);
    ReleaseChan(s, s', h0, StopCloser(j));
  }

  lemma StopCloseConnOwners(s: State, j: nat)
    requires ConnOwners(s) && ChanOwners(s) && CanStop(s, j)
    requires s.stops[j].StopTear? && s.stops[j].tear.CloseConn?
    ensures ConnOwners(DoStop(s, j)) && ChanOwners(DoStop(s, j))
  {
    hide ConnOwners, ChanOwners;
    var s', c := DoStop(s, j), s.stops[j].tear.c;
    ShutConnFrame(s, c);
    assert s' == s.(conns := s'.conns, stops := s.stops[j := StopDone]);
    ReleaseConn(s, s', c, StopCloser(j));
  }

  lemma StopTearIs(s: State, j: nat, t: Tear)
    requires j < |s.stops| && s.stops[j] == StopTear(t)
    ensures CanStop(s, j)
    ensures var next := TearNext(s, t);
            DoStop(s, j) ==
              TearEffect(s, t).(stops := s.stops[j := if next.None? then StopDone else StopTear(next.value)])
  {
    hide TearEffect;
  }

  /** A step of teardown in Stop, as the loop and the watchers see it. */
  lemma StopTearFrame(s: State, j: nat)
    requires CanStop(s, j) && s.stops[j].StopTear? && s.doneClosed && StopOk(s) && IndexOk(s)
    ensures Interferes(s, DoStop(s, j)) && WatchFrame(s, DoStop(s, j))
    ensures StopOk(DoStop(s, j)) && IndexOk(DoStop(s, j))
  {
    var s', t := DoStop(s, j), s.stops[j].tear;
    assert TearValid(s, t);
    if t.CloseChan? || t.CloseConn? {
      assert Closes(s, TearEffect(s, t));
      assert s' == TearEffect(s, t).(stops := s'.stops);
    } else {
      assert s' == s.(stops := s'.stops, events := s'.events, conn := s'.conn, channel := s'.channel);
    }
    assert StopOk(s') && IndexOk(s') by { hide Interferes, WatchFrame; }
    assert Interferes(s, s') by { hide StopOk, IndexOk, WatchFrame; }
    assert WatchFrame(s, s') by { hide StopOk, IndexOk, Interferes; }
  }

  lemma StopTearKept(s: State, j: nat)
    requires Inv(s) && CanStop(s, j) && s.stops[j].StopTear?
    ensures Inv(DoStop(s, j))
  {
    hide LogsOk, EventsOk, FieldsOk, At, ConnOwners, ChanOwners, WatchOk, IndexOk, Interferes, WatchFrame;
    var s' := DoStop(s, j);
    StopTearFrame(s, j);
    hide StopOk;
    match s.stops[j].tear {
      case TearEvent => SameOwnersKept(s, s');
      case TakeChan => StopTakeChanOwners(s, j);
      case CloseChan(_) => StopCloseChanOwners(s, j);
      case TakeConn => StopTakeConnOwners(s, j);
      case CloseConn(_) => StopCloseConnOwners(s, j);
    }
    StopStepKept(s, s');
  }

  lemma StoppingKept(s: State, j: nat)
    requires Inv(s) && CanStop(s, j)
    ensures Inv(DoStop(s, j))
  {
    hide Inv;
    if s.stops[j].StopEnter? { StopEnterKept(s, j); } else { StopTearKept(s, j); }
  }

  // The loop: steps that only move the program counter

  lemma MoveKept(s: State, p: Pc)
    requires Inv(s) && At(s.(pc := p)) && SameOwners(s, s.(pc := p))
    requires !AwaitsWatcher(s.pc) && !AwaitsWatcher(p) && !s.pc.NotStarted? && !p.NotStarted?
    ensures Inv(s.(pc := p))
  {
    var s' := s.(pc := p);
    assert IndexOk(s') && StopOk(s') by { hide LogsOk, EventsOk, FieldsOk, At, ConnOwners, ChanOwners, WatchOk; }
    assert LogsOk(s') && EventsOk(s') && FieldsOk(s') by { hide At, ConnOwners, ChanOwners, WatchOk; }
    hide LogsOk, EventsOk, FieldsOk, At, ConnOwners, ChanOwners, WatchOk, StopOk, IndexOk;
    SameOwnersKept(s, s');
    WatchFrameKept(s, s');
  }

  /** The loop owns nothing. */
  ghost predicate OwnsNothing(s: State) {
    && (forall k: nat :: !OwnsConn(s, k, TheLoop) && !OwnsConn(s, k, LoopCloser))
    && (forall h: nat :: !OwnsChan(s, h, TheLoop) && !OwnsChan(s, h, LoopCloser))
  }

  ghost predicate OwnsOnlyClosed(s: State) {
    && (forall k: nat | k < |s.conns| && (OwnsConn(s, k, TheLoop) || OwnsConn(s, k, LoopCloser)) :: !s.conns[k].open)
    && (forall h: nat | h < |s.chans| && (OwnsChan(s, h, TheLoop) || OwnsChan(s, h, LoopCloser)) :: !s.chans[h].open)
  }

  /** The loop lets go of what it has closed. */
  lemma LetGoOwners(s: State, p: Pc)
    requires ConnOwners(s) && ChanOwners(s) && OwnsOnlyClosed(s) && OwnsNothing(s.(pc := p))
    ensures ConnOwners(s.(pc := p)) && ChanOwners(s.(pc := p))
  {
    var s' := s.(pc := p);
    assert forall k: nat, o :: OwnsConn(s', k, o) ==> OwnsConn(s, k, o);
    assert forall h: nat, o :: OwnsChan(s', h, o) ==> OwnsChan(s, h, o);
    forall k | 0 <= k < |s.conns| && s'.conns[k].open
      ensures exists o :: OwnsConn(s', k, o)
    {
      var o :| OwnsConn(s, k, o);
      assert OwnsConn(s', k, o);
    }
    forall h | 0 <= h < |s.chans| && s'.chans[h].open
      ensures exists o :: OwnsChan(s', h, o)
    {
      var o :| OwnsChan(s, h, o);
      assert OwnsChan(s', h, o);
    }
  }

  lemma LetGoKept(s: State, p: Pc)
    requires Inv(s) && At(s.(pc := p)) && OwnsOnlyClosed(s) && OwnsNothing(s.(pc := p))
    requires !AwaitsWatcher(s.pc) && !AwaitsWatcher(p) && !s.pc.NotStarted? && !p.NotStarted?
    ensures Inv(s.(pc := p))
  {
    var s' := s.(pc := p);
    assert IndexOk(s') && StopOk(s') by { hide LogsOk, EventsOk, FieldsOk, At, ConnOwners, ChanOwners, WatchOk; }
    assert LogsOk(s') && EventsOk(s') && FieldsOk(s') by { hide At, ConnOwners, ChanOwners, WatchOk; }
    hide LogsOk, EventsOk, FieldsOk, At, ConnOwners, ChanOwners, WatchOk, StopOk, IndexOk;
    LetGoOwners(s, p);
    WatchFrameKept(s, s');
  }

  lemma EarlyJumpAt(s: State, b: Branch)
    requires CanLoop(s, b) && IndexOk(s) && FieldsOk(s) && At(s)
    requires s.pc.Head? || s.pc.ReadAlive? || s.pc.TestAlive? || (s.pc.Dialing? && b.Fails?) || s.pc.Waiting?
    ensures At(s.(pc := Jump(s, b)))
  {
  }

  lemma LateJumpAt(s: State, b: Branch)
    requires CanLoop(s, b) && IndexOk(s) && FieldsOk(s) && At(s)
    requires || s.pc.ReadConn? || s.pc.TestConn? || (s.pc.OpenChan? && b.Fails?)
             || s.pc.Snapshot? || s.pc.Parked? || s.pc.Recheck?
    ensures At(s.(pc := Jump(s, b)))
  {
  }

  lemma JumpAt(s: State, b: Branch)
    requires CanLoop(s, b) && Jumps(s.pc, b) && IndexOk(s) && FieldsOk(s) && At(s)
    ensures At(s.(pc := Jump(s, b)))
  {
    hide At, IndexOk, FieldsOk, Jump, CanLoop;
    if s.pc.Head? || s.pc.ReadAlive? || s.pc.TestAlive? || (s.pc.Dialing? && b.Fails?) || s.pc.Waiting? {
      EarlyJumpAt(s, b);
    } else {
      LateJumpAt(s, b);
    }
  }

  lemma JumpOwners(s: State, b: Branch)
    requires Jumps(s.pc, b)
    ensures SameOwners(s, s.(pc := Jump(s, b)))
    ensures !AwaitsWatcher(s.pc) && !AwaitsWatcher(Jump(s, b)) && !s.pc.NotStarted? && !Jump(s, b).NotStarted?
  {
  }

  lemma JumpKept(s: State, b: Branch)
    requires Inv(s) && CanLoop(s, b) && Jumps(s.pc, b)
    ensures Inv(s.(pc := Jump(s, b)))
  {
    hide StopOk, IndexOk, WatchOk, LogsOk, EventsOk, FieldsOk, At, ConnOwners, ChanOwners, Jump, CanLoop, SameOwners;
    JumpAt(s, b);
    JumpOwners(s, b);
    MoveKept(s, Jump(s, b));
  }

  /** A new token, its watcher still to come. */
  lemma TokenAdded(s: State, s': State)
    requires WatchOk(s) && !AwaitsWatcher(s.pc) && AwaitsWatcher(s'.pc)
    requires s'.watchers == s.watchers && |s'.tokens| == |s.tokens| + 1 && s'.tokens[..|s.tokens|] == s.tokens
    requires !s'.tokens[|s.tokens|].closed && ResourceValid(s', s'.tokens[|s.tokens|].of)
    requires s'.conns == s.conns && s'.chans == s.chans && Stopped(s') == Stopped(s)
    ensures WatchOk(s')
  {
    forall r
      ensures Alive(s', r) == Alive(s, r) && ResourceValid(s', r) == ResourceValid(s, r)
    {
    }
    forall v | 0 <= v < |s.watchers|
      ensures WatcherOk(s', v)
    {
      assert WatcherOk(s, v) && s'.tokens[v] == s.tokens[v];
    }
    forall i | 0 <= i < |s'.tokens|
      ensures ResourceValid(s', s'.tokens[i].of) && TokenOk(s', i)
    {
      if i < |s.tokens| {
        assert ResourceValid(s, s.tokens[i].of) && TokenOk(s, i) && s'.tokens[i] == s.tokens[i];
      }
    }
  }

  /** The watcher of the newest token starts. */
  lemma WatcherAdded(s: State, s': State)
    requires WatchOk(s) && AwaitsWatcher(s.pc) && !AwaitsWatcher(s'.pc) && |s.tokens| == |s.watchers| + 1
    requires s'.tokens == s.tokens
    requires s'.watchers == s.watchers + [Watcher(s.tokens[|s.watchers|].of, |s.watchers|, Listening)]
    requires s'.conns == s.conns && s'.chans == s.chans && Stopped(s') == Stopped(s)
    ensures WatchOk(s')
  {
    forall r
      ensures Alive(s', r) == Alive(s, r) && ResourceValid(s', r) == ResourceValid(s, r)
    {
    }
    assert TokenOk(s, |s.watchers|);
    forall v | 0 <= v < |s'.watchers|
      ensures WatcherOk(s', v)
    {
      if v < |s.watchers| { assert WatcherOk(s, v); }
    }
    forall i | 0 <= i < |s'.tokens|
      ensures ResourceValid(s', s'.tokens[i].of) && TokenOk(s', i)
    {
      assert ResourceValid(s, s.tokens[i].of) && TokenOk(s, i);
    }
  }

  /** The loop gets a fresh connection. */
  lemma GainConn(s: State, s': State)
    requires ConnOwners(s) && ChanOwners(s)
    requires |s'.conns| == |s.conns| + 1 && s'.conns[..|s.conns|] == s.conns && s'.chans == s.chans
    requires forall k: nat, p :: OwnsConn(s', k, p) ==> if k == |s.conns| then p == TheLoop else OwnsConn(s, k, p)
    requires forall k: nat, p :: OwnsConn(s, k, p) ==> OwnsConn(s', k, p)
    requires OwnsConn(s', |s.conns|, TheLoop)
    requires forall h: nat, p :: OwnsChan(s', h, p) <==> OwnsChan(s, h, p)
    ensures ConnOwners(s') && ChanOwners(s')
  {
    forall k | 0 <= k < |s'.conns| && s'.conns[k].open
      ensures exists p :: OwnsConn(s', k, p)
    {
      if k < |s.conns| {
        assert s'.conns[k] == s.conns[k];
        var p :| OwnsConn(s, k, p);
        assert OwnsConn(s', k, p);
      }
    }
  }

  lemma GainChan(s: State, s': State)
    requires ConnOwners(s) && ChanOwners(s)
    requires |s'.chans| == |s.chans| + 1 && s'.chans[..|s.chans|] == s.chans && s'.conns == s.conns
    requires forall h: nat, p :: OwnsChan(s', h, p) ==> if h == |s.chans| then p == TheLoop else OwnsChan(s, h, p)
    requires forall h: nat, p :: OwnsChan(s, h, p) ==> OwnsChan(s', h, p)
    requires OwnsChan(s', |s.chans|, TheLoop)
    requires forall k: nat, p :: OwnsConn(s', k, p) <==> OwnsConn(s, k, p)
    ensures ConnOwners(s') && ChanOwners(s')
  {
    forall h | 0 <= h < |s'.chans| && s'.chans[h].open
      ensures exists p :: OwnsChan(s', h, p)
    {
      if h < |s.chans| {
        assert s'.chans[h] == s.chans[h];
        var p :| OwnsChan(s, h, p);
        assert OwnsChan(s', h, p);
      }
    }
  }

  // The loop: connections

  lemma DropTakeKept(s: State)
    requires Inv(s) && s.pc.DropTake?
    ensures Inv(s.(conn := None, pc := DropClose(s.conn)))
  {
    var s' := s.(conn := None, pc := DropClose(s.conn));
    assert IndexOk(s') && StopOk(s') by { hide LogsOk, EventsOk, FieldsOk, ConnOwners, ChanOwners, WatchOk; }
    assert LogsOk(s') && EventsOk(s') && FieldsOk(s') && At(s') by {
      hide ConnOwners, ChanOwners, WatchOk, StopOk;
    }
    assert ConnOwners(s') && ChanOwners(s') by {
      hide StopOk, LogsOk, EventsOk, FieldsOk, WatchOk;
      PassConn(s, s', TheField, LoopCloser);
    }
    assert WatchOk(s') by {
      hide StopOk, LogsOk, EventsOk, FieldsOk, ConnOwners, ChanOwners;
      WatchFrameKept(s, s') by { hide WatchOk, At; }
    }
  }

  lemma DropCloseKept(s: State)
    requires Inv(s) && s.pc.DropClose?
    ensures Inv(ShutConn(s, s.pc.c).(pc := Dialing))
  {
    var mid := ShutConn(s, s.pc.c);
    ShutConnFrame(s, s.pc.c);
    ClosesKept(s, mid) by { hide *; }
    LetGoKept(mid, Dialing) by {
      hide StopOk, LogsOk, EventsOk, FieldsOk, WatchOk, ConnOwners, ChanOwners;
    }
  }

  lemma DialKept(s: State)
    requires Inv(s) && s.pc.Dialing?
    ensures Inv(s.(conns := s.conns + [Conn(true)], pc := StoreConn(|s.conns|)))
  {
    var s' := s.(conns := s.conns + [Conn(true)], pc := StoreConn(|s.conns|));
    assert IndexOk(s') && StopOk(s') by { hide LogsOk, EventsOk, FieldsOk, ConnOwners, ChanOwners, WatchOk; }
    assert LogsOk(s') && EventsOk(s') && FieldsOk(s') && At(s') by {
      hide ConnOwners, ChanOwners, WatchOk, StopOk;
    }
    assert ConnOwners(s') && ChanOwners(s') by {
      hide StopOk, LogsOk, EventsOk, FieldsOk, WatchOk;
      GainConn(s, s');
    }
    assert WatchOk(s') by {
      hide StopOk, LogsOk, EventsOk, FieldsOk, ConnOwners, ChanOwners;
      WatchFrameKept(s, s') by { hide WatchOk, At; }
    }
  }

  /** dial never overwrites a connection: the field is nil here. */
  lemma StoreConnKept(s: State)
    requires Inv(s) && s.pc.StoreConn?
    ensures Inv(DoStoreConn(s, s.pc.k))
  {
    var s' := DoStoreConn(s, s.pc.k);
    assert IndexOk(s') && StopOk(s') by { hide LogsOk, EventsOk, FieldsOk, ConnOwners, ChanOwners, WatchOk; }
    assert LogsOk(s') && EventsOk(s') && FieldsOk(s') && At(s') by {
      hide ConnOwners, ChanOwners, WatchOk, StopOk;
    }
    assert ConnOwners(s') && ChanOwners(s') by {
      hide StopOk, LogsOk, EventsOk, FieldsOk, WatchOk;
      PassConn(s, s', TheLoop, TheField);
    }
    assert WatchOk(s') by {
      hide StopOk, LogsOk, EventsOk, FieldsOk, ConnOwners, ChanOwners;
      TokenAdded(s, s');
    }
  }

  lemma WatchConnPoint(s: State)
    requires StopOk(s) && IndexOk(s) && LogsOk(s) && EventsOk(s) && FieldsOk(s) && At(s) && s.pc.WatchConn?
    ensures var s' := Watch(s, TheConn(s.pc.k), s.pc.tok).(pc := ReadConn);
            StopOk(s') && IndexOk(s') && LogsOk(s') && EventsOk(s') && FieldsOk(s') && At(s')
  {
    var s' := Watch(s, TheConn(s.pc.k), s.pc.tok).(pc := ReadConn);
    assert StopOk(s') && IndexOk(s') by { hide LogsOk, EventsOk, FieldsOk; }
    assert LogsOk(s') by { hide EventsOk, FieldsOk; }
    assert EventsOk(s') by { hide LogsOk; }
    assert FieldsOk(s') by { hide LogsOk, EventsOk; }
    assert At(s') by { hide EventsOk; }
  }

  lemma WatchConnKept(s: State)
    requires Inv(s) && s.pc.WatchConn?
    ensures Inv(Watch(s, TheConn(s.pc.k), s.pc.tok).(pc := ReadConn))
  {
    assert |s.tokens| == s.pc.tok + 1 == |s.watchers| + 1 && s.tokens[s.pc.tok].of == TheConn(s.pc.k) by {
      hide StopOk, LogsOk, EventsOk, FieldsOk, IndexOk, ConnOwners, ChanOwners;
    }
    hide StopOk, LogsOk, EventsOk, FieldsOk, IndexOk, At, WatchOk, ConnOwners, ChanOwners;
    var s' := Watch(s, TheConn(s.pc.k), s.pc.tok).(pc := ReadConn);
    WatchConnPoint(s);
    SameOwnersKept(s, s');
    WatcherAdded(s, s');
  }

  // The loop: channels

  lemma OpenChanKept(s: State)
    requires Inv(s) && s.pc.OpenChan?
    ensures Inv(DoOpenChan(s, s.pc.k))
  {
    var s' := DoOpenChan(s, s.pc.k);
    assert IndexOk(s') && StopOk(s') by { hide LogsOk, EventsOk, FieldsOk, ConnOwners, ChanOwners, WatchOk; }
    assert LogsOk(s') && EventsOk(s') && FieldsOk(s') && At(s') by {
      hide ConnOwners, ChanOwners, WatchOk, StopOk;
    }
    assert ConnOwners(s') && ChanOwners(s') by {
      hide StopOk, LogsOk, EventsOk, FieldsOk, WatchOk;
      GainChan(s, s');
    }
    assert WatchOk(s') by {
      hide StopOk, LogsOk, EventsOk, FieldsOk, ConnOwners, ChanOwners;
      WatchFrameKept(s, s') by { hide WatchOk, At; }
    }
  }

  lemma DeclaredPoint(s: State)
    requires LogsOk(s) && EventsOk(s) && FieldsOk(s) && At(s) && s.pc.Declaring? && s.pc.i < |s.ops|
    ensures var s' := Declared(s, s.pc.h, true).(pc := Declaring(s.pc.h, s.pc.i + 1));
            LogsOk(s') && EventsOk(s') && FieldsOk(s') && At(s')
  {
    var s', h, i := Declared(s, s.pc.h, true).(pc := Declaring(s.pc.h, s.pc.i + 1)), s.pc.h, s.pc.i;
    AttemptGrows(s.ops, s.chans[h].log, true);
    assert At(s') by { hide LogsOk, EventsOk, FieldsOk, Attempt; }
    assert LogsOk(s') by {
      hide EventsOk, FieldsOk, Attempt;
      assert h !in s.installedChans;
    }
    assert EventsOk(s') && FieldsOk(s') by { hide LogsOk, Attempt; }
  }

  lemma DeclaredKept(s: State)
    requires Inv(s) && s.pc.Declaring? && s.pc.i < |s.ops|
    ensures Inv(Declared(s, s.pc.h, true).(pc := Declaring(s.pc.h, s.pc.i + 1)))
  {
    var s' := Declared(s, s.pc.h, true).(pc := Declaring(s.pc.h, s.pc.i + 1));
    assert IndexOk(s') && StopOk(s') by { hide LogsOk, EventsOk, FieldsOk, ConnOwners, ChanOwners, WatchOk; }
    assert s.pc.h < |s.chans| by { hide LogsOk, EventsOk, FieldsOk, ConnOwners, ChanOwners, WatchOk, IndexOk; }
    hide LogsOk, EventsOk, FieldsOk, IndexOk, At, WatchOk, ConnOwners, ChanOwners;
    DeclaredPoint(s);
    SameOwnersKept(s, s');
    WatchFrameKept(s, s') by { hide StopOk; }
  }

  lemma RefusedPoint(s: State)
    requires LogsOk(s) && EventsOk(s) && FieldsOk(s) && At(s) && s.pc.Declaring? && s.pc.i < |s.ops|
    ensures var s' := Declared(s, s.pc.h, false).(pc := AbandonChan(s.pc.h));
            LogsOk(s') && EventsOk(s') && FieldsOk(s') && At(s')
  {
    var s', h, i := Declared(s, s.pc.h, false).(pc := AbandonChan(s.pc.h)), s.pc.h, s.pc.i;
    AttemptGrows(s.ops, s.chans[h].log, false);
    assert At(s') by { hide LogsOk, EventsOk, FieldsOk, Attempt; }
    assert LogsOk(s') by {
      hide EventsOk, FieldsOk, Attempt;
      assert h !in s.installedChans;
    }
    assert EventsOk(s') && FieldsOk(s') by { hide LogsOk, Attempt; }
  }

  lemma RefusedKept(s: State)
    requires Inv(s) && s.pc.Declaring? && s.pc.i < |s.ops|
    ensures Inv(Declared(s, s.pc.h, false).(pc := AbandonChan(s.pc.h)))
  {
    var s' := Declared(s, s.pc.h, false).(pc := AbandonChan(s.pc.h));
    assert IndexOk(s') && StopOk(s') by { hide LogsOk, EventsOk, FieldsOk, ConnOwners, ChanOwners, WatchOk; }
    assert s.pc.h < |s.chans| by { hide LogsOk, EventsOk, FieldsOk, ConnOwners, ChanOwners, WatchOk, IndexOk; }
    hide LogsOk, EventsOk, FieldsOk, IndexOk, At, WatchOk, ConnOwners, ChanOwners;
    RefusedPoint(s);
    SameOwnersKept(s, s');
    WatchFrameKept(s, s') by { hide StopOk; }
  }

  lemma AllDeclaredKept(s: State)
    requires Inv(s) && s.pc.Declaring? && s.pc.i >= |s.ops|
    ensures Inv(s.(pc := StoreChan(s.pc.h)))
  {
    var p := StoreChan(s.pc.h);
    assert At(s.(pc := p)) by { hide StopOk, IndexOk, WatchOk, EventsOk, FieldsOk, ConnOwners, ChanOwners; }
    hide Inv;
    MoveKept(s, p);
  }

  lemma AbandonChanKept(s: State)
    requires Inv(s) && s.pc.AbandonChan?
    ensures Inv(ShutChan(s, Some(s.pc.h)).(pc := Tail(true, true)))
  {
    var mid := ShutChan(s, Some(s.pc.h));
    ShutChanFrame(s, Some(s.pc.h));
    hide ShutChan;
    ClosesKept(s, mid) by { hide *; }
    LetGoKept(mid, Tail(true, true)) by {
      hide StopOk, LogsOk, EventsOk, FieldsOk, WatchOk, ConnOwners, ChanOwners;
    }
  }

  /** openChannel never overwrites a channel: the field is nil here. */
  lemma StoreChanKept(s: State)
    requires Inv(s) && s.pc.StoreChan?
    ensures Inv(DoStoreChan(s, s.pc.h))
  {
    var s' := DoStoreChan(s, s.pc.h);
    assert IndexOk(s') && StopOk(s') by { hide LogsOk, EventsOk, FieldsOk, ConnOwners, ChanOwners, WatchOk; }
    assert LogsOk(s') && EventsOk(s') && FieldsOk(s') && At(s') by {
      hide ConnOwners, ChanOwners, WatchOk, StopOk;
    }
    assert ConnOwners(s') && ChanOwners(s') by {
      hide StopOk, LogsOk, EventsOk, FieldsOk, WatchOk;
      PassChan(s, s', TheLoop, TheField);
    }
    assert WatchOk(s') by {
      hide StopOk, LogsOk, EventsOk, FieldsOk, ConnOwners, ChanOwners;
      TokenAdded(s, s');
    }
  }

  lemma WatchChanPoint(s: State)
    requires StopOk(s) && IndexOk(s) && LogsOk(s) && EventsOk(s) && FieldsOk(s) && At(s) && s.pc.WatchChan?
    ensures var s' := Watch(s, TheChan(s.pc.h), s.pc.tok).(pc := Announcing);
            StopOk(s') && IndexOk(s') && LogsOk(s') && EventsOk(s') && FieldsOk(s') && At(s')
  {
    var s' := Watch(s, TheChan(s.pc.h), s.pc.tok).(pc := Announcing);
    assert StopOk(s') && IndexOk(s') by { hide LogsOk, EventsOk, FieldsOk; }
    assert LogsOk(s') by { hide EventsOk, FieldsOk; }
    assert EventsOk(s') by { hide LogsOk; }
    assert FieldsOk(s') by { hide LogsOk, EventsOk; }
    assert At(s') by { hide EventsOk; }
  }

  lemma WatchChanKept(s: State)
    requires Inv(s) && s.pc.WatchChan?
    ensures Inv(Watch(s, TheChan(s.pc.h), s.pc.tok).(pc := Announcing))
  {
    assert |s.tokens| == s.pc.tok + 1 == |s.watchers| + 1 && s.tokens[s.pc.tok].of == TheChan(s.pc.h) by {
      hide StopOk, LogsOk, EventsOk, FieldsOk, IndexOk, ConnOwners, ChanOwners;
    }
    hide StopOk, LogsOk, EventsOk, FieldsOk, IndexOk, At, WatchOk, ConnOwners, ChanOwners;
    var s' := Watch(s, TheChan(s.pc.h), s.pc.tok).(pc := Announcing);
    WatchChanPoint(s);
    SameOwnersKept(s, s');
    WatcherAdded(s, s');
  }

  lemma AnnouncingPoint(s: State)
    requires StopOk(s) && IndexOk(s) && LogsOk(s) && EventsOk(s) && FieldsOk(s) && At(s) && s.pc.Announcing?
    ensures var s' := s.(events := s.events + [Connected(Last(s.installedChans))], pc := Snapshot);
            StopOk(s') && IndexOk(s') && LogsOk(s') && EventsOk(s') && FieldsOk(s') && At(s')
  {
    var s' := s.(events := s.events + [Connected(Last(s.installedChans))], pc := Snapshot);
    assert StopOk(s') && IndexOk(s') by { hide LogsOk, EventsOk, FieldsOk; }
    assert LogsOk(s') by { hide EventsOk, FieldsOk; }
    assert EventsOk(s') by { hide LogsOk; }
    assert FieldsOk(s') by { hide LogsOk, EventsOk; }
    assert At(s') by { hide EventsOk; }
  }

  lemma AnnouncingKept(s: State)
    requires Inv(s) && s.pc.Announcing?
    ensures Inv(s.(events := s.events + [Connected(Last(s.installedChans))], pc := Snapshot))
  {
    hide StopOk, LogsOk, EventsOk, FieldsOk, IndexOk, At, WatchOk, ConnOwners, ChanOwners;
    var s' := s.(events := s.events + [Connected(Last(s.installedChans))], pc := Snapshot);
    AnnouncingPoint(s);
    SameOwnersKept(s, s');
    WatchFrameKept(s, s') by { hide WatchOk; }
  }

  // The loop: teardown

  lemma TearEventKept(s: State)
    requires Inv(s) && s.pc.Tearing? && s.pc.tear.TearEvent?
    ensures Inv(DoTearing(s))
  {
    var mid, p := s.(events := s.events + [Disconnected]), Tearing(TakeChan, s.pc.full, s.pc.thenWait);
    assert DoTearing(s) == mid.(pc := p);
    DisconnectedKept(s);
    assert At(mid.(pc := p));
    hide Inv, DoTearing;
    MoveKept(mid, p);
  }

  lemma TakeChanPoint(s: State)
    requires StopOk(s) && IndexOk(s) && LogsOk(s) && EventsOk(s) && FieldsOk(s) && At(s)
    requires s.pc.Tearing? && s.pc.tear.TakeChan?
    ensures var s' := s.(channel := None, pc := Tearing(CloseChan(s.channel), s.pc.full, s.pc.thenWait));
            StopOk(s') && IndexOk(s') && LogsOk(s') && EventsOk(s') && FieldsOk(s') && At(s')
  {
    var s' := s.(channel := None, pc := Tearing(CloseChan(s.channel), s.pc.full, s.pc.thenWait));
    assert StopOk(s') && IndexOk(s') by { hide LogsOk, EventsOk, FieldsOk; }
    assert LogsOk(s') by { hide EventsOk, FieldsOk; }
    assert EventsOk(s') by { hide LogsOk; }
    assert FieldsOk(s') by { hide LogsOk, EventsOk; }
    assert At(s') by { hide EventsOk; }
  }

  lemma TakeChanKept(s: State)
    requires Inv(s) && s.pc.Tearing? && s.pc.tear.TakeChan?
    ensures Inv(DoTearing(s))
  {
    hide StopOk, LogsOk, EventsOk, FieldsOk, IndexOk, At, WatchOk, ConnOwners, ChanOwners;
    var s' := s.(channel := None, pc := Tearing(CloseChan(s.channel), s.pc.full, s.pc.thenWait));
    assert DoTearing(s) == s' by { hide Inv; }
    hide DoTearing;
    TakeChanPoint(s);
    PassChan(s, s', TheField, LoopCloser);
    WatchFrameKept(s, s') by { hide WatchOk; }
  }

  lemma CloseChanLetsGo(s: State, p: Pc)
    requires At(s) && s.pc.Tearing? && s.pc.tear.CloseChan?
    requires s.pc.tear.h.Some? && s.pc.tear.h.value < |s.chans| ==> !s.chans[s.pc.tear.h.value].open
    requires p.Head? || p.Waiting? || (p.Tearing? && p.tear.TakeConn?)
    ensures At(s.(pc := p)) && OwnsOnlyClosed(s) && OwnsNothing(s.(pc := p))
  {
  }

  lemma CloseChanKept(s: State)
    requires Inv(s) && s.pc.Tearing? && s.pc.tear.CloseChan?
    ensures Inv(DoTearing(s))
  {
    var mid, p := ShutChan(s, s.pc.tear.h), TearPc(s, s.pc.tear, s.pc.full, s.pc.thenWait);
    assert DoTearing(s) == mid.(pc := p);
    ShutChanFrame(s, s.pc.tear.h);
    hide StopOk, IndexOk, WatchOk, LogsOk, EventsOk, FieldsOk, At, ConnOwners, ChanOwners, OwnsOnlyClosed, OwnsNothing;
    ClosesKept(s, mid);
    CloseChanLetsGo(mid, p);
    LetGoKept(mid, p);
  }

  lemma TakeConnPoint(s: State)
    requires StopOk(s) && IndexOk(s) && LogsOk(s) && EventsOk(s) && FieldsOk(s) && At(s)
    requires s.pc.Tearing? && s.pc.tear.TakeConn?
    ensures var s' := s.(conn := None, pc := Tearing(CloseConn(s.conn), s.pc.full, s.pc.thenWait));
            StopOk(s') && IndexOk(s') && LogsOk(s') && EventsOk(s') && FieldsOk(s') && At(s')
  {
    var s' := s.(conn := None, pc := Tearing(CloseConn(s.conn), s.pc.full, s.pc.thenWait));
    assert StopOk(s') && IndexOk(s') by { hide LogsOk, EventsOk, FieldsOk; }
    assert LogsOk(s') by { hide EventsOk, FieldsOk; }
    assert EventsOk(s') by { hide LogsOk; }
    assert FieldsOk(s') by { hide LogsOk, EventsOk; }
    assert At(s') by { hide EventsOk; }
  }

  lemma TakeConnKept(s: State)
    requires Inv(s) && s.pc.Tearing? && s.pc.tear.TakeConn?
    ensures Inv(DoTearing(s))
  {
    hide StopOk, LogsOk, EventsOk, FieldsOk, IndexOk, At, WatchOk, ConnOwners, ChanOwners;
    var s' := s.(conn := None, pc := Tearing(CloseConn(s.conn), s.pc.full, s.pc.thenWait));
    assert DoTearing(s) == s' by { hide Inv; }
    hide DoTearing;
    TakeConnPoint(s);
    PassConn(s, s', TheField, LoopCloser);
    WatchFrameKept(s, s') by { hide WatchOk; }
  }

  lemma CloseConnLetsGo(s: State, p: Pc)
    requires At(s) && s.pc.Tearing? && s.pc.tear.CloseConn?
    requires s.pc.tear.c.Some? && s.pc.tear.c.value < |s.conns| ==> !s.conns[s.pc.tear.c.value].open
    requires p.Head? || p.Waiting? || (p.Tearing? && p.tear.TakeConn?)
    ensures At(s.(pc := p)) && OwnsOnlyClosed(s) && OwnsNothing(s.(pc := p))
  {
  }

  lemma CloseConnKept(s: State)
    requires Inv(s) && s.pc.Tearing? && s.pc.tear.CloseConn?
    ensures Inv(DoTearing(s))
  {
    var mid, p := ShutConn(s, s.pc.tear.c), TearPc(s, s.pc.tear, s.pc.full, s.pc.thenWait);
    assert DoTearing(s) == mid.(pc := p);
    ShutConnFrame(s, s.pc.tear.c);
    hide StopOk, IndexOk, WatchOk, LogsOk, EventsOk, FieldsOk, At, ConnOwners, ChanOwners, OwnsOnlyClosed, OwnsNothing;
    ClosesKept(s, mid);
    CloseConnLetsGo(mid, p);
    LetGoKept(mid, p);
  }

  // All steps

  lemma DeclaringKept(s: State, b: Branch)
    requires Inv(s) && s.pc.Declaring? && CanLoop(s, b)
    ensures Inv(DoLoop(s, b))
  {
    var h, i := s.pc.h, s.pc.i;
    assert h < |s.chans| && |s.chans[h].log| == i by {
      hide StopOk, IndexOk, WatchOk, LogsOk, EventsOk, FieldsOk, ConnOwners, ChanOwners;
    }
    hide Inv;
    if i >= |s.ops| {
      AllDeclaredKept(s);
    } else if b.Fails? {
      RefusedKept(s);
    } else {
      DeclaredKept(s);
    }
  }

  lemma TearingKept(s: State)
    requires Inv(s) && s.pc.Tearing?
    ensures Inv(DoTearing(s))
  {
    hide Inv;
    match s.pc.tear {
      case TearEvent => TearEventKept(s);
      case TakeChan => TakeChanKept(s);
      case CloseChan(_) => CloseChanKept(s);
      case TakeConn => TakeConnKept(s);
      case CloseConn(_) => CloseConnKept(s);
    }
  }

  lemma LoopKept(s: State, b: Branch)
    requires Inv(s) && CanLoop(s, b)
    ensures Inv(DoLoop(s, b))
  {
    hide Inv;
    if Jumps(s.pc, b) {
      JumpKept(s, b);
    } else {
      match s.pc {
        case DropTake => DropTakeKept(s);
        case DropClose(_) => DropCloseKept(s);
        case Dialing => DialKept(s);
        case StoreConn(_) => StoreConnKept(s);
        case WatchConn(_, _) => WatchConnKept(s);
        case OpenChan(_) => OpenChanKept(s);
        case Declaring(_, _) => DeclaringKept(s, b);
        case AbandonChan(_) => AbandonChanKept(s);
        case StoreChan(_) => StoreChanKept(s);
        case WatchChan(_, _) => WatchChanKept(s);
        case Announcing => AnnouncingKept(s);
        case Tearing(_, _, _) => TearingKept(s);
      }
    }
  }

  /** Every step keeps the invariant. */
  lemma StepKept(s: State, l: Label)
    requires Inv(s) && Enabled(s, l)
    ensures Inv(Apply(s, l))
  {
    hide Inv;
    match l {
      case Start => StartKept(s);
      case CallStop => CallStopKept(s);
      case CancelCtx => CancelCtxKept(s);
      case KillConn(k) => ShutConnFrame(s, Some(k)); ClosesKept(s, ShutConn(s, Some(k)));
      case KillChan(h) => ShutChanFrame(s, Some(h)); ClosesKept(s, ShutChan(s, Some(h)));
      case Loop(b) => LoopKept(s, b);
      case Watching(w) => WatchingKept(s, w);
      case Stopping(j) => StoppingKept(s, j);
    }
  }

  lemma {:induction false} RunKept(s: State, ls: seq<Label>)
    requires Inv(s) && IsRun(s, ls)
    ensures Inv(After(s, ls))
    decreases |ls|
  {
    hide Inv, Enabled, Apply;
    if ls != [] {
      StepKept(s, ls[0]);
      RunKept(Apply(s, ls[0]), ls[1..]);
    }
  }

  lemma ReachableInv(s: State)
    requires Reachable(s)
    ensures Inv(s)
  {
    hide Inv, Enabled, Apply;
    var topo: Topology, ls: seq<Label> :| Reaches(topo, ls, s);
    InitInv(topo);
    RunKept(Init(topo), ls);
  }
}
