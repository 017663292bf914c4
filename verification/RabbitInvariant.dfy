/** What every step of the reconnect machine keeps. `At` says what the loop may rely on at each of
    its program points, whatever the watchers, the callers of Stop and the broker do meanwhile; the
    other parts hold at every point. */
module RabbitInvariant {
  import opened Basics
  import opened RabbitTopology
  import opened RabbitModel

  // Start, Stop and done

  /** Stop has closed done exactly when the client was started and no longer runs. */
  predicate StopOk(s: State) {
    && !s.crashed
    && (s.running <==> s.started && !s.doneClosed)
    && (s.doneClosed ==> s.started)
    && (s.pc.NotStarted? <==> !s.started)
    && (forall j | 0 <= j < |s.stops| && s.stops[j].StopTear? :: s.doneClosed)
  }

  // Indices

  predicate ValidConn(s: State, c: Option<nat>) { c.Some? ==> c.value < |s.conns| }

  predicate ValidChan(s: State, h: Option<nat>) { h.Some? ==> h.value < |s.chans| }

  predicate TearValid(s: State, t: Tear) {
    match t
    case CloseChan(h) => ValidChan(s, h)
    case CloseConn(c) => ValidConn(s, c)
    case _ => true
  }

  predicate IndexOk(s: State) {
    && (forall h | 0 <= h < |s.chans| :: s.chans[h].conn < |s.conns|)
    && ValidConn(s, s.conn) && ValidChan(s, s.channel)
    && (forall j | 0 <= j < |s.stops| && s.stops[j].StopTear? :: TearValid(s, s.stops[j].tear))
  }

  // Tokens and watchers

  /** The loop has made the newest token and has not started its watcher yet. */
  predicate AwaitsWatcher(pc: Pc) { pc.WatchConn? || pc.WatchChan? }

  predicate TokenOk(s: State, i: nat)
    requires i < |s.tokens|
  {
    s.tokens[i].closed ==> i < |s.watchers| && !Alive(s, s.tokens[i].of)
  }

  predicate WatcherOk(s: State, w: nat)
    requires w < |s.watchers| && w < |s.tokens|
  {
    var x := s.watchers[w];
    && x.tok == w && x.of == s.tokens[w].of
    && (!x.phase.Listening? ==> !Alive(s, x.of))
    && (s.tokens[w].closed ==> x.phase.Gone?)
    && (x.phase.Gone? ==> s.tokens[w].closed || Stopped(s))
  }

  predicate ResourceValid(s: State, r: Resource) {
    match r case TheConn(k) => k < |s.conns| case TheChan(h) => h < |s.chans|
  }

  /** Token i is watched by watcher i and by nobody else, and is closed only when its resource is. */
  predicate WatchOk(s: State) {
    && |s.tokens| == |s.watchers| + (if AwaitsWatcher(s.pc) then 1 else 0)
    && (forall i | 0 <= i < |s.tokens| :: ResourceValid(s, s.tokens[i].of) && TokenOk(s, i))
    && (forall w | 0 <= w < |s.watchers| :: WatcherOk(s, w))
  }

  // What has happened

  /** `tok` was made for the newest connection. */
  predicate ConnToken(s: State, tok: Option<nat>) {
    && tok.Some? && tok.value < |s.tokens| && s.installedConns != []
    && s.tokens[tok.value].of == TheConn(Last(s.installedConns))
  }

  predicate ChanToken(s: State, tok: Option<nat>) {
    && tok.Some? && tok.value < |s.tokens| && s.installedChans != []
    && s.tokens[tok.value].of == TheChan(Last(s.installedChans))
  }

  predicate LogsOk(s: State) {
    && (forall h | 0 <= h < |s.chans| :: Attempt(s.ops, s.chans[h].log))
    && (forall i | 0 <= i < |s.installedChans| ::
          s.installedChans[i] < |s.chans| && Complete(s.ops, s.chans[s.installedChans[i]].log))
  }

  predicate EventsOk(s: State) {
    && (forall i | 0 <= i < |s.events| - 1 && s.events[i].Connected? :: s.events[i + 1].Disconnected?)
    && (forall i | 0 <= i < |s.events| && s.events[i].Connected? :: s.events[i].h in s.installedChans)
  }

  /** The fields hold the newest connection and channel or nil, and as long as nobody has called
      Stop a channel in the field was opened on the connection in the field. */
  predicate FieldsOk(s: State) {
    && (s.connClosed.Some? ==> ConnToken(s, s.connClosed))
    && (s.chanClosed.Some? ==> ChanToken(s, s.chanClosed))
    && (s.conn.Some? ==> s.connClosed.Some? && s.conn.value == Last(s.installedConns))
    && (s.channel.Some? ==> s.chanClosed.Some? && s.channel.value == Last(s.installedChans))
    && (!s.doneClosed && s.channel.Some? ==>
          s.channel.value < |s.chans| && s.conn == Some(s.chans[s.channel.value].conn))
  }

  // Program points of the loop

  predicate LastDisconnected(s: State) {
    s.events == [] || s.events[|s.events| - 1].Disconnected?
  }

  /** No channel is installed, and whoever heard of the last one has heard that it is gone. */
  predicate NoChannel(s: State) { s.channel.None? && LastDisconnected(s) }

  predicate UnlessStopped(s: State, c: Option<nat>) { !s.doneClosed ==> c.Some? && s.conn == c }

  predicate BothTokens(s: State) { s.connClosed.Some? && s.chanClosed.Some? }

  predicate At(s: State) {
    match s.pc
    case NotStarted => NoChannel(s) && s.conn.None?
    case Head => NoChannel(s)
    case ReadAlive => NoChannel(s)
    case TestAlive(c) =>
      NoChannel(s) && ValidConn(s, c) && (!s.doneClosed ==> s.conn == c) && (c.Some? ==> s.connClosed.Some?)
    case DropTake => NoChannel(s)
    case DropClose(c) => NoChannel(s) && s.conn.None? && ValidConn(s, c)
    case Dialing => NoChannel(s) && s.conn.None?
    case StoreConn(k) => NoChannel(s) && s.conn.None? && k < |s.conns|
    case WatchConn(k, tok) =>
      && NoChannel(s) && s.connClosed == Some(tok) && UnlessStopped(s, Some(k))
      && |s.tokens| == tok + 1 && s.tokens[tok].of == TheConn(k)
    case ReadConn => NoChannel(s) && s.connClosed.Some? && (!s.doneClosed ==> s.conn.Some?)
    case TestConn(c) => NoChannel(s) && s.connClosed.Some? && ValidConn(s, c) && UnlessStopped(s, c)
    case OpenChan(k) => NoChannel(s) && s.connClosed.Some? && k < |s.conns| && UnlessStopped(s, Some(k))
    case Declaring(h, i) =>
      && NoChannel(s) && s.connClosed.Some? && h < |s.chans| && UnlessStopped(s, Some(s.chans[h].conn))
      && |s.chans[h].log| == i && Succeeded(s.chans[h].log)
    case AbandonChan(h) => NoChannel(s) && h < |s.chans|
    case StoreChan(h) =>
      && NoChannel(s) && s.connClosed.Some? && h < |s.chans| && UnlessStopped(s, Some(s.chans[h].conn))
      && Complete(s.ops, s.chans[h].log)
    case WatchChan(h, tok) =>
      && LastDisconnected(s) && s.connClosed.Some? && s.chanClosed == Some(tok) && (!s.doneClosed ==> s.channel.Some?)
      && |s.tokens| == tok + 1 && s.tokens[tok].of == TheChan(h)
    case Announcing => LastDisconnected(s) && BothTokens(s) && (!s.doneClosed ==> s.channel.Some?)
    case Snapshot => BothTokens(s) && (!s.doneClosed ==> s.channel.Some?)
    case Parked(ct, ht) =>
      BothTokens(s) && ct == s.connClosed && ht == s.chanClosed && (!s.doneClosed ==> s.channel.Some?)
    case Recheck(ct) => BothTokens(s) && ct == s.connClosed
    case Tearing(t, _, _) =>
      match t {
        case TearEvent => true
        case TakeChan => LastDisconnected(s)
        case CloseChan(h) => NoChannel(s) && ValidChan(s, h)
        case TakeConn => NoChannel(s)
        case CloseConn(c) => NoChannel(s) && s.conn.None? && ValidConn(s, c)
      }
    case Waiting => NoChannel(s)
    case Ended => true
  }

  // Ownership of connections and channels

  datatype Owner = TheLoop | TheField | LoopCloser | StopCloser(j: nat)

  predicate OwnsConn(s: State, k: nat, o: Owner) {
    match o
    case TheLoop => s.pc == StoreConn(k)
    case TheField => s.conn == Some(k)
    case LoopCloser => s.pc == DropClose(Some(k)) || (s.pc.Tearing? && s.pc.tear == CloseConn(Some(k)))
    case StopCloser(j) => j < |s.stops| && s.stops[j] == StopTear(CloseConn(Some(k)))
  }

  predicate OwnsChan(s: State, h: nat, o: Owner) {
    match o
    case TheLoop => (s.pc.Declaring? || s.pc.AbandonChan? || s.pc.StoreChan?) && s.pc.h == h
    case TheField => s.channel == Some(h)
    case LoopCloser => s.pc.Tearing? && s.pc.tear == CloseChan(Some(h))
    case StopCloser(j) => j < |s.stops| && s.stops[j] == StopTear(CloseChan(Some(h)))
  }

  /** A connection never has two owners, and an open one has one. */
  ghost predicate ConnOwners(s: State) {
    && (forall k: nat, o, p :: OwnsConn(s, k, o) && OwnsConn(s, k, p) ==> o == p)
    && (forall k: nat, o :: OwnsConn(s, k, o) ==> k < |s.conns|)
    && (forall k | 0 <= k < |s.conns| && s.conns[k].open :: exists o :: OwnsConn(s, k, o))
  }

  ghost predicate ChanOwners(s: State) {
    && (forall h: nat, o, p :: OwnsChan(s, h, o) && OwnsChan(s, h, p) ==> o == p)
    && (forall h: nat, o :: OwnsChan(s, h, o) ==> h < |s.chans|)
    && (forall h | 0 <= h < |s.chans| && s.chans[h].open :: exists o :: OwnsChan(s, h, o))
  }

  ghost predicate Inv(s: State) {
    && StopOk(s) && IndexOk(s) && WatchOk(s)
    && LogsOk(s) && EventsOk(s) && FieldsOk(s) && At(s)
    && ConnOwners(s) && ChanOwners(s)
  }

  lemma InitInv(topo: Topology)
    ensures Inv(Init(topo))
  {
  }
}
