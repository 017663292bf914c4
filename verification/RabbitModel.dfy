/** The reconnect machine of rabbitmq/rabbitmq_client.go as a state machine.

    The goroutines are the reconnect loop, one watcher for each connection or channel that was
    installed, and any number of callers of Stop. A step is one section under the mutex, one call
    to the broker, one channel operation, or one test of a select. The broker may fail every dial,
    every channel open and every declaration, and may kill any connection or channel at any time.
    It is only trusted to fire NotifyClose once the connection or channel is closed, also when that
    happened before the registration. A closed connection closes its channels. */
module RabbitModel {
  import opened Basics
  import opened RabbitTopology

  datatype Conn = Conn(open: bool)

  /** `log` is what has been declared on the channel. */
  datatype Chan = Chan(conn: nat, open: bool, log: seq<Reply>)

  datatype Resource = TheConn(k: nat) | TheChan(h: nat)

  /** A `chan struct{}` made by dial or openChannel, with the resource it was made for. */
  datatype Token = Token(closed: bool, of: Resource)

  datatype Phase = Listening | Woken | Testing | Closing | Gone

  /** A goroutine started by watchClose. */
  datatype Watcher = Watcher(of: Resource, tok: nat, phase: Phase)

  datatype Event = Connected(h: nat) | Disconnected

  /** teardown: closeChannel, then dropConnection. */
  datatype Tear = TearEvent | TakeChan | CloseChan(h: Option<nat>) | TakeConn | CloseConn(c: Option<nat>)

  /** The program counter of reconnectLoop. `Tearing` is teardown, or only its closeChannel half,
      with the place to go to after it. */
  datatype Pc =
    | NotStarted
    | Head
    | ReadAlive | TestAlive(c: Option<nat>)
    | DropTake | DropClose(c: Option<nat>)
    | Dialing | StoreConn(k: nat) | WatchConn(k: nat, tok: nat)
    | ReadConn | TestConn(c: Option<nat>)
    | OpenChan(k: nat) | Declaring(h: nat, i: nat) | AbandonChan(h: nat)
    | StoreChan(h: nat) | WatchChan(h: nat, tok: nat)
    | Announcing | Snapshot
    | Parked(ct: Option<nat>, ht: Option<nat>) | Recheck(ct: Option<nat>)
    | Tearing(tear: Tear, full: bool, thenWait: bool)
    | Waiting
    | Ended

  /** One call of Stop. */
  datatype Stopper = StopEnter | StopTear(tear: Tear) | StopDone

  /** `doneClosed` is the state of r.done. `installedConns`, `installedChans` and `events` are
      history that no step reads. */
  datatype State = State(
    ops: seq<Op>,
    started: bool,
    running: bool,
    doneClosed: bool,
    ctxDone: bool,
    conns: seq<Conn>,
    chans: seq<Chan>,
    tokens: seq<Token>,
    watchers: seq<Watcher>,
    conn: Option<nat>,
    channel: Option<nat>,
    connClosed: Option<nat>,
    chanClosed: Option<nat>,
    pc: Pc,
    stops: seq<Stopper>,
    installedConns: seq<nat>,
    installedChans: seq<nat>,
    events: seq<Event>,
    crashed: bool)

  function Init(topo: Topology): State {
    State(Ops(topo), false, false, false, false, [], [], [], [], None, None, None, None, NotStarted,
          [], [], [], [], false)
  }

  /** stopped(): r.done is closed or ctx is done. */
  predicate Stopped(s: State) { s.doneClosed || s.ctxDone }

  predicate ConnOpen(s: State, k: nat) { k < |s.conns| && s.conns[k].open }

  predicate ChanOpen(s: State, h: nat) {
    h < |s.chans| && s.chans[h].open && ConnOpen(s, s.chans[h].conn)
  }

  predicate Alive(s: State, r: Resource) {
    match r case TheConn(k) => ConnOpen(s, k) case TheChan(h) => ChanOpen(s, h)
  }

  predicate TokenClosed(s: State, tok: Option<nat>) {
    tok.Some? && tok.value < |s.tokens| && s.tokens[tok.value].closed
  }

  /** The loop never writes what Stop and Start write. */
  predicate LeavesControl(s: State, s': State) {
    && s'.stops == s.stops && s'.started == s.started && s'.running == s.running
    && s'.doneClosed == s.doneClosed && s'.ctxDone == s.ctxDone && s'.ops == s.ops
  }

  function ShutConn(s: State, c: Option<nat>): (r: State)
    ensures LeavesControl(s, r) && r.watchers == s.watchers
    ensures r.chans == s.chans && r.conn == s.conn && r.channel == s.channel
  {
    if c.Some? && c.value < |s.conns| then s.(conns := s.conns[c.value := Conn(false)]) else s
  }

  function ShutChan(s: State, h: Option<nat>): (r: State)
    ensures LeavesControl(s, r) && r.watchers == s.watchers
    ensures r.conns == s.conns && r.conn == s.conn && r.channel == s.channel
  {
    if h.Some? && h.value < |s.chans| then s.(chans := s.chans[h.value := s.chans[h.value].(open := false)]) else s
  }

  /** The watchers write the tokens and their own program counters. */
  predicate LeavesAllButWatchers(s: State, s': State) {
    && s'.pc == s.pc && s'.ops == s.ops && s'.conns == s.conns && s'.chans == s.chans
    && s'.conn == s.conn && s'.channel == s.channel && s'.stops == s.stops
    && s'.started == s.started && s'.running == s.running && s'.doneClosed == s.doneClosed
  }

  // teardown, one step at a time, for the loop and for Stop

  function TearEffect(s: State, t: Tear): (r: State)
    ensures LeavesControl(s, r) && r.pc == s.pc && r.watchers == s.watchers
  {
    match t
    case TearEvent => s.(events := s.events + [Disconnected])
    case TakeChan => s.(channel := None)
    case CloseChan(h) => ShutChan(s, h)
    case TakeConn => s.(conn := None)
    case CloseConn(c) => ShutConn(s, c)
  }

  function TearNext(s: State, t: Tear): Option<Tear> {
    match t
    case TearEvent => Some(TakeChan)
    case TakeChan => Some(CloseChan(s.channel))
    case CloseChan(_) => Some(TakeConn)
    case TakeConn => Some(CloseConn(s.conn))
    case CloseConn(_) => None
  }

  // The loop

  /** What the scheduler, the broker or the select picks where the loop has a choice. */
  datatype Branch = Plain | Fails | OnStop | OnConn | OnChan | OnTimer

  predicate CanLoop(s: State, b: Branch) {
    match s.pc
    case NotStarted => false
    case Ended => false
    case Dialing => b.Plain? || b.Fails?
    case OpenChan(k) => (b.Plain? && ConnOpen(s, k)) || b.Fails?
    case Declaring(h, i) =>
      h < |s.chans| && ((b.Plain? && (i < |s.ops| ==> ChanOpen(s, h))) || (b.Fails? && i < |s.ops|))
    case Parked(ct, ht) =>
      (b.OnStop? && Stopped(s)) || (b.OnConn? && TokenClosed(s, ct)) || (b.OnChan? && TokenClosed(s, ht))
    case Waiting => (b.OnStop? && Stopped(s)) || b.OnTimer?
    case _ => b.Plain?
  }

  function Tail(full: bool, thenWait: bool): Pc { Tearing(TearEvent, full, thenWait) }

  /** Where the loop goes after step `t` of a teardown: to the next step, or out of it. */
  function TearPc(s: State, t: Tear, full: bool, thenWait: bool): Pc {
    var next := TearNext(s, t);
    if next.None? || (t.CloseChan? && !full) then (if thenWait then Waiting else Head)
    else Tearing(next.value, full, thenWait)
  }

  function DoTearing(s: State): (r: State)
    requires s.pc.Tearing?
    ensures LeavesControl(s, r) && r.watchers == s.watchers
  {
    TearEffect(s, s.pc.tear).(pc := TearPc(s, s.pc.tear, s.pc.full, s.pc.thenWait))
  }

  /** conn.Channel(): a fresh channel on connection `k`. */
  function DoOpenChan(s: State, k: nat): (r: State)
    ensures LeavesControl(s, r) && r.conns == s.conns && r.conn == s.conn && r.watchers == s.watchers
  {
    s.(chans := s.chans + [Chan(k, true, [])], pc := Declaring(|s.chans|, 0))
  }

  function Declared(s: State, h: nat, ok: bool): (r: State)
    requires h < |s.chans| && |s.chans[h].log| < |s.ops|
    ensures LeavesControl(s, r) && r.conns == s.conns && r.conn == s.conn && r.watchers == s.watchers
  {
    s.(chans := s.chans[h := s.chans[h].(log := s.chans[h].log + [Reply(s.ops[|s.chans[h].log|], ok)])])
  }

  function DoDeclaring(s: State, h: nat, i: nat, ok: bool): (r: State)
    requires h < |s.chans| && (!ok ==> i < |s.ops|)
    ensures LeavesControl(s, r) && r.conns == s.conns && r.conn == s.conn && r.watchers == s.watchers
  {
    if i >= |s.ops| || |s.chans[h].log| >= |s.ops| then s.(pc := StoreChan(h))
    else if ok then Declared(s, h, true).(pc := Declaring(h, i + 1))
    else Declared(s, h, false).(pc := AbandonChan(h))
  }

  function DoStoreConn(s: State, k: nat): (r: State)
    ensures LeavesControl(s, r) && r.watchers == s.watchers
  {
    s.(conn := Some(k), connClosed := Some(|s.tokens|),
       tokens := s.tokens + [Token(false, TheConn(k))],
       installedConns := s.installedConns + [k],
       pc := WatchConn(k, |s.tokens|))
  }

  function DoStoreChan(s: State, h: nat): (r: State)
    ensures LeavesControl(s, r) && r.conns == s.conns && r.conn == s.conn && r.watchers == s.watchers
  {
    s.(channel := Some(h), chanClosed := Some(|s.tokens|),
       tokens := s.tokens + [Token(false, TheChan(h))],
       installedChans := s.installedChans + [h],
       pc := WatchChan(h, |s.tokens|))
  }

  function Watch(s: State, of: Resource, tok: nat): (r: State)
    ensures LeavesControl(s, r) && r.conns == s.conns && r.conn == s.conn
  {
    s.(watchers := s.watchers + [Watcher(of, tok, Listening)])
  }

  function Last(xs: seq<nat>): nat { if xs == [] then 0 else xs[|xs| - 1] }

  /** The steps of the loop that only read and branch. */
  predicate Jumps(pc: Pc, b: Branch) {
    || pc.Head? || pc.ReadAlive? || pc.TestAlive? || (pc.Dialing? && b.Fails?) || pc.Waiting?
    || pc.ReadConn? || pc.TestConn? || (pc.OpenChan? && b.Fails?)
    || pc.Snapshot? || pc.Parked? || pc.Recheck?
  }

  function Jump(s: State, b: Branch): Pc
    requires Jumps(s.pc, b)
  {
    match s.pc
    case Head => if Stopped(s) then Ended else ReadAlive
    case ReadAlive => TestAlive(s.conn)
    case TestAlive(c) => if c.Some? && ConnOpen(s, c.value) then ReadConn else DropTake
    case Dialing => Waiting
    case ReadConn => TestConn(s.conn)
    case TestConn(c) => if c.Some? && ConnOpen(s, c.value) then OpenChan(c.value) else Tail(true, true)
    case OpenChan(_) => Tail(true, true)
    case Snapshot => Parked(s.connClosed, s.chanClosed)
    case Parked(ct, _) => if b.OnStop? then Ended else if b.OnConn? then Tail(true, false) else Recheck(ct)
    case Recheck(ct) => Tail(TokenClosed(s, ct), false)
    case Waiting => if b.OnStop? then Ended else Head
  }

  function DropConn(s: State): (r: State)
    ensures LeavesControl(s, r) && r.watchers == s.watchers
  {
    s.(conn := None, pc := DropClose(s.conn))
  }

  /** connectWithBackoff: a fresh open connection. */
  function Dial(s: State): (r: State)
    ensures LeavesControl(s, r) && r.watchers == s.watchers
  {
    s.(conns := s.conns + [Conn(true)], pc := StoreConn(|s.conns|))
  }

  /** dropConnection and dial, apart from the jumps. */
  predicate ConnPart(pc: Pc) { pc.DropTake? || pc.DropClose? || pc.Dialing? || pc.StoreConn? || pc.WatchConn? }

  function DoConnPart(s: State): (r: State)
    requires ConnPart(s.pc)
    ensures LeavesControl(s, r)
  {
    match s.pc
    case DropTake => DropConn(s)
    case DropClose(c) => ShutConn(s, c).(pc := Dialing)
    case Dialing => Dial(s)
    case StoreConn(k) => DoStoreConn(s, k)
    case WatchConn(k, tok) => Watch(s, TheConn(k), tok).(pc := ReadConn)
  }

  function Announce(s: State): (r: State)
    ensures LeavesControl(s, r) && r.conns == s.conns && r.conn == s.conn && r.watchers == s.watchers
  {
    s.(events := s.events + [Connected(Last(s.installedChans))], pc := Snapshot)
  }

  /** openChannel and the Connected event, apart from the jumps. */
  predicate ChanPart(pc: Pc) {
    pc.OpenChan? || pc.Declaring? || pc.AbandonChan? || pc.StoreChan? || pc.WatchChan? || pc.Announcing?
  }

  function DoChanPart(s: State, b: Branch): (r: State)
    requires ChanPart(s.pc) && CanLoop(s, b)
    ensures LeavesControl(s, r) && r.conns == s.conns && r.conn == s.conn
  {
    match s.pc
    case OpenChan(k) => DoOpenChan(s, k)
    case Declaring(h, i) => DoDeclaring(s, h, i, !b.Fails?)
    case AbandonChan(h) => ShutChan(s, Some(h)).(pc := Tail(true, true))
    case StoreChan(h) => DoStoreChan(s, h)
    case WatchChan(h, tok) => Watch(s, TheChan(h), tok).(pc := Announcing)
    case Announcing => Announce(s)
  }

  function DoLoop(s: State, b: Branch): (r: State)
    requires CanLoop(s, b)
    ensures LeavesControl(s, r)
  {
    if Jumps(s.pc, b) then s.(pc := Jump(s, b))
    else if ConnPart(s.pc) then DoConnPart(s)
    else if ChanPart(s.pc) then DoChanPart(s, b)
    else DoTearing(s)
  }

  // The watchers

  predicate CanWatch(s: State, w: nat) {
    && w < |s.watchers| && !s.watchers[w].phase.Gone? && s.watchers[w].tok < |s.tokens|
    && (s.watchers[w].phase.Listening? ==> !Alive(s, s.watchers[w].of))
  }

  function Phased(s: State, w: nat, p: Phase): (r: State)
    requires w < |s.watchers|
    ensures LeavesAllButWatchers(s, r)
  {
    s.(watchers := s.watchers[w := s.watchers[w].(phase := p)])
  }

  /** Wake on NotifyClose, look at stopped(), look at the token, close it. */
  function DoWatch(s: State, w: nat): (r: State)
    requires CanWatch(s, w)
    ensures LeavesAllButWatchers(s, r)
  {
    var tok := s.watchers[w].tok;
    match s.watchers[w].phase
    case Listening => Phased(s, w, Woken)
    case Woken => Phased(s, w, if Stopped(s) then Gone else Testing)
    case Testing => Phased(s, w, if s.tokens[tok].closed then Gone else Closing)
    case Closing =>
      if s.tokens[tok].closed then s.(crashed := true)
      else Phased(s, w, Gone).(tokens := s.tokens[tok := s.tokens[tok].(closed := true)])
  }

  // Stop

  predicate CanStop(s: State, j: nat) { j < |s.stops| && !s.stops[j].StopDone? }

  function StopAt(s: State, j: nat, p: Stopper): State
    requires j < |s.stops|
  {
    s.(stops := s.stops[j := p])
  }

  function DoStop(s: State, j: nat): State
    requires CanStop(s, j)
  {
    match s.stops[j]
    case StopEnter =>
      if !s.running then StopAt(s, j, StopDone)
      else if s.doneClosed then s.(crashed := true)
      else StopAt(s, j, StopTear(TearEvent)).(running := false, doneClosed := true)
    case StopTear(t) =>
      var next := TearNext(s, t);
      StopAt(TearEffect(s, t), j, if next.None? then StopDone else StopTear(next.value))
  }

  // Runs

  datatype Label =
    | Start | CallStop | CancelCtx
    | KillConn(k: nat) | KillChan(h: nat)
    | Loop(b: Branch) | Watching(w: nat) | Stopping(j: nat)

  /** Start returns an error while the client runs. A second Start after Stop is not modelled. */
  predicate Enabled(s: State, l: Label) {
    match l
    case Start => s.running || !s.started
    case CallStop => true
    case CancelCtx => true
    case KillConn(k) => k < |s.conns|
    case KillChan(h) => h < |s.chans|
    case Loop(b) => CanLoop(s, b)
    case Watching(w) => CanWatch(s, w)
    case Stopping(j) => CanStop(s, j)
  }

  function Apply(s: State, l: Label): State
    requires Enabled(s, l)
  {
    match l
    case Start => if s.running then s else s.(started := true, running := true, pc := Head)
    case CallStop => s.(stops := s.stops + [StopEnter])
    case CancelCtx => s.(ctxDone := true)
    case KillConn(k) => ShutConn(s, Some(k))
    case KillChan(h) => ShutChan(s, Some(h))
    case Loop(b) => DoLoop(s, b)
    case Watching(w) => DoWatch(s, w)
    case Stopping(j) => DoStop(s, j)
  }

  predicate IsRun(s: State, ls: seq<Label>)
    decreases |ls|
  {
    ls == [] || (Enabled(s, ls[0]) && IsRun(Apply(s, ls[0]), ls[1..]))
  }

  function After(s: State, ls: seq<Label>): State
    requires IsRun(s, ls)
    decreases |ls|
  {
    if ls == [] then s else After(Apply(s, ls[0]), ls[1..])
  }

  lemma {:induction false} RunAppend(s: State, a: seq<Label>, b: seq<Label>)
    requires IsRun(s, a) && IsRun(After(s, a), b)
    ensures IsRun(s, a + b) && After(s, a + b) == After(After(s, a), b)
    decreases |a|
  {
    hide Enabled, Apply;
    if a == [] {
      assert a + b == b;
    } else {
      RunAppend(Apply(s, a[0]), a[1..], b);
      assert (a + b)[0] == a[0] && (a + b)[1..] == a[1..] + b;
    }
  }

  ghost predicate Reaches(topo: Topology, ls: seq<Label>, s: State) {
    IsRun(Init(topo), ls) && After(Init(topo), ls) == s
  }

  ghost predicate Reachable(s: State) {
    exists topo: Topology, ls: seq<Label> :: Reaches(topo, ls, s)
  }
}
