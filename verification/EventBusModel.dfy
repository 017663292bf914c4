/** The in-process event bus of gtk/event_bus.go as a state machine.

    Every goroutine of the program is a thread with an explicit program counter, and one
    step is one atomic action of one goroutine: a lock operation, one access to the fields the
    lock protects, one channel operation, or one turn of a worker. A run is any interleaving of
    enabled steps. A step that would make Go panic (a send on a closed channel, a second close)
    is modelled as such: it sets the flag `crashed`. */
module EventBusModel {
  import opened Basics

  /** The payload. The bus never inspects it. */
  type Value(==, !new)

  /** One published value, tagged with the Publish call it comes from. */
  datatype Message = Message(call: nat, value: Value)

  /** One goroutine of a subscriber's pool: waiting on the channel, inside the handler, or gone. */
  datatype Worker = Idle | Running(msg: Message) | Exited

  /** sync.Once of one unsubscribe handle. */
  datatype Once = Fresh | Busy(owner: nat) | Spent

  /** What an unsubscribe closure captures: the id it deletes and the channel whose pool it awaits. */
  datatype Handle = Handle(id: nat, ch: nat)

  /** sync.RWMutex seen from its writer. From `Announced` on no new reader is let in. */
  datatype Lock = Free | Announced(owner: nat) | Held(owner: nat)

  /** A channel with its worker pool. The last six fields are history that no step reads. */
  datatype Subscriber = Subscriber(
    id: nat,
    cap: nat,
    workers: seq<Worker>,
    closed: bool,
    buf: seq<Message>,
    done: bool,
    once: Once,
    accepted: seq<Message>,
    taken: seq<Message>,
    handled: seq<Message>,
    registered: nat,
    removed: Option<nat>)

  /** Program counters. Pub* is Publish, Sub* Subscribe, Un* a call of an unsubscribe handle
      (by a user, by Subscribe after a cancel, or by the watcher), Watch* the context watcher. */
  datatype Thread =
    | PubWant(v: Value)
    | PubSend(v: Value, begin: nat, sent: set<nat>)
    | PubDone(v: Value, begin: nat, end: nat)
    | SubWant(pool: nat)
    | SubIn(h: Handle)
    | SubDone(h: Handle)
    | SubPanic
    | UnEnter(h: Handle)
    | UnWant(h: Handle)
    | UnIn(h: Handle)
    | UnWait(h: Handle)
    | UnDone(h: Handle)
    | WatchIdle
    | WatchWant
    | WatchIn(list: seq<Handle>)
    | WatchWalk(list: seq<Handle>, kids: set<nat>)
    | WatchDone

  /** `threads` lists every call ever made; the watcher, when there is one, is thread 0.
      `pool` lists every channel ever made. `clock` counts steps. */
  datatype State = State(
    hasCtx: bool,
    cancelled: bool,
    buffer: int,
    lock: Lock,
    readers: set<nat>,
    next: nat,
    subs: map<nat, nat>,
    unsubs: seq<Handle>,
    pool: seq<Subscriber>,
    threads: seq<Thread>,
    clock: nat,
    crashed: bool)

  const DEFAULT_BUFFER: nat := 16

  /** bufferSize: a topic built without NewEventBusTopic has buffer 0. */
  function BufferSize(buffer: int): nat {
    if buffer <= 0 then DEFAULT_BUFFER else buffer
  }

  function Init(hasCtx: bool, buffer: int): State {
    State(hasCtx, false, buffer, Free, {}, 0, map[], [], [], if hasCtx then [WatchIdle] else [], 0, false)
  }

  // Classes of program counters

  predicate WantsWrite(th: Thread) { th.SubWant? || th.UnWant? || th.WatchWant? }

  /** Between the write of the protected fields and Unlock. */
  predicate Inside(th: Thread) { th.SubIn? || th.UnIn? || th.WatchIn? }

  predicate Watching(th: Thread) {
    th.WatchIdle? || th.WatchWant? || th.WatchIn? || th.WatchWalk? || th.WatchDone?
  }

  predicate Unsubscribing(th: Thread) {
    th.UnEnter? || th.UnWant? || th.UnIn? || th.UnWait? || th.UnDone?
  }

  /** Inside the function passed to once.Do. */
  predicate InOnce(th: Thread) { th.UnWant? || th.UnIn? || th.UnWait? }

  predicate HasHandle(th: Thread) { th.SubIn? || th.SubDone? || Unsubscribing(th) }

  predicate Published(th: Thread) { th.PubSend? || th.PubDone? }

  /** The call has returned, or panicked before doing anything, or waits for a cancel that has not come. */
  predicate Finished(th: Thread, cancelled: bool) {
    th.PubDone? || th.SubDone? || th.SubPanic? || th.UnDone? || th.WatchDone? || (th.WatchIdle? && !cancelled)
  }

  // Calls made by the program around the bus

  function Call(s: State, th: Thread): State {
    s.(threads := s.threads + [th], clock := s.clock + 1)
  }

  function DoCallPublish(s: State, v: Value): State { Call(s, PubWant(v)) }

  function DoCallSubscribe(s: State, nilHandler: bool, workers: int): State {
    Call(s, if nilHandler || workers <= 0 then SubPanic else SubWant(workers))
  }

  predicate CanCallUnsubscribe(s: State, h: Handle) {
    h.ch < |s.pool| && s.pool[h.ch].id == h.id
  }

  function DoCallUnsubscribe(s: State, h: Handle): State { Call(s, UnEnter(h)) }

  predicate CanCancel(s: State) { s.hasCtx }

  function DoCancel(s: State): State { s.(cancelled := true, clock := s.clock + 1) }

  // The lock

  function Goto(s: State, t: nat, th: Thread): State
    requires t < |s.threads|
  {
    s.(threads := s.threads[t := th], clock := s.clock + 1)
  }

  function Crash(s: State): State { s.(crashed := true, clock := s.clock + 1) }

  predicate CanRLock(s: State, t: nat) { t < |s.threads| && s.threads[t].PubWant? && s.lock.Free? }

  function DoRLock(s: State, t: nat): State
    requires CanRLock(s, t)
  {
    s.(threads := s.threads[t := PubSend(s.threads[t].v, s.clock, {})],
       readers := s.readers + {t},
       clock := s.clock + 1)
  }

  predicate CanRUnlock(s: State, t: nat) {
    t < |s.threads| && s.threads[t].PubSend? && s.subs.Keys <= s.threads[t].sent
  }

  function DoRUnlock(s: State, t: nat): State
    requires CanRUnlock(s, t)
  {
    s.(threads := s.threads[t := PubDone(s.threads[t].v, s.threads[t].begin, s.clock)],
       readers := s.readers - {t},
       clock := s.clock + 1)
  }

  predicate CanAnnounce(s: State, t: nat) { t < |s.threads| && WantsWrite(s.threads[t]) && s.lock.Free? }

  function DoAnnounce(s: State, t: nat): State {
    s.(lock := Announced(t), clock := s.clock + 1)
  }

  predicate CanAcquire(s: State, t: nat) { s.lock == Announced(t) && s.readers == {} }

  function DoAcquire(s: State, t: nat): State {
    s.(lock := Held(t), clock := s.clock + 1)
  }

  predicate CanUnlock(s: State, t: nat) { t < |s.threads| && s.lock == Held(t) && Inside(s.threads[t]) }

  /** Where Unlock leads. Subscribe has read ctx.Err() just before it. */
  function AfterUnlock(th: Thread, cancelled: bool): Thread
    requires Inside(th)
  {
    match th
    case SubIn(h) => if cancelled then UnEnter(h) else SubDone(h)
    case UnIn(h) => UnWait(h)
    case WatchIn(list) => WatchWalk(list, {})
  }

  function DoUnlock(s: State, t: nat): State
    requires CanUnlock(s, t)
  {
    s.(threads := s.threads[t := AfterUnlock(s.threads[t], s.cancelled)], lock := Free, clock := s.clock + 1)
  }

  // Publish, inside the read lock. The order over the map is the scheduler's choice.

  predicate CanSend(s: State, t: nat, id: nat) {
    && t < |s.threads| && s.threads[t].PubSend?
    && id in s.subs && id !in s.threads[t].sent
    && s.subs[id] < |s.pool|
    && (s.pool[s.subs[id]].closed || |s.pool[s.subs[id]].buf| < s.pool[s.subs[id]].cap)
  }

  function Accept(sub: Subscriber, m: Message): Subscriber {
    sub.(buf := sub.buf + [m], accepted := sub.accepted + [m])
  }

  function Deliver(s: State, t: nat, id: nat, c: nat): State
    requires t < |s.threads| && s.threads[t].PubSend? && c < |s.pool|
  {
    s.(threads := s.threads[t := s.threads[t].(sent := s.threads[t].sent + {id})],
       pool := s.pool[c := Accept(s.pool[c], Message(t, s.threads[t].v))],
       clock := s.clock + 1)
  }

  function DoSend(s: State, t: nat, id: nat): State
    requires CanSend(s, t, id)
  {
    if s.pool[s.subs[id]].closed then Crash(s) else Deliver(s, t, id, s.subs[id])
  }

  // Subscribe, inside the write lock

  function NewSubscriber(id: nat, cap: nat, workers: nat, now: nat): Subscriber {
    Subscriber(id, cap, seq(workers, i => Idle), false, [], false, Fresh, [], [], [], now, None)
  }

  predicate CanRegister(s: State, t: nat) {
    t < |s.threads| && s.lock == Held(t) && s.threads[t].SubWant?
  }

  function DoRegister(s: State, t: nat): State
    requires CanRegister(s, t)
  {
    var id, c := s.next + 1, |s.pool|;
    var h := Handle(id, c);
    s.(threads := s.threads[t := SubIn(h)],
       next := id,
       subs := s.subs[id := c],
       pool := s.pool + [NewSubscriber(id, BufferSize(s.buffer), s.threads[t].pool, s.clock)],
       unsubs := s.unsubs + [h],
       clock := s.clock + 1)
  }

  // A call of an unsubscribe handle

  predicate CanEnterOnce(s: State, t: nat) {
    && t < |s.threads| && s.threads[t].UnEnter?
    && s.threads[t].h.ch < |s.pool|
    && !s.pool[s.threads[t].h.ch].once.Busy?
  }

  function Seize(s: State, t: nat, h: Handle): State
    requires t < |s.threads| && h.ch < |s.pool|
  {
    s.(threads := s.threads[t := UnWant(h)],
       pool := s.pool[h.ch := s.pool[h.ch].(once := Busy(t))],
       clock := s.clock + 1)
  }

  function DoEnterOnce(s: State, t: nat): State
    requires CanEnterOnce(s, t)
  {
    var h := s.threads[t].h;
    if s.pool[h.ch].once.Spent? then Goto(s, t, UnDone(h)) else Seize(s, t, h)
  }

  predicate CanRemove(s: State, t: nat) {
    && t < |s.threads| && s.lock == Held(t) && s.threads[t].UnWant?
    && (s.threads[t].h.id in s.subs ==> s.subs[s.threads[t].h.id] < |s.pool|)
  }

  function Retire(s: State, t: nat, h: Handle, c: nat): State
    requires t < |s.threads| && c < |s.pool|
  {
    s.(threads := s.threads[t := UnIn(h)],
       subs := s.subs - {h.id},
       pool := s.pool[c := s.pool[c].(closed := true, removed := Some(s.clock))],
       clock := s.clock + 1)
  }

  function DoRemove(s: State, t: nat): State
    requires CanRemove(s, t)
  {
    var h := s.threads[t].h;
    if h.id !in s.subs then Goto(s, t, UnIn(h))
    else if s.pool[s.subs[h.id]].closed then Crash(s)
    else Retire(s, t, h, s.subs[h.id])
  }

  predicate CanAwaitDone(s: State, t: nat) {
    && t < |s.threads| && s.threads[t].UnWait?
    && s.threads[t].h.ch < |s.pool| && s.pool[s.threads[t].h.ch].done
  }

  function DoAwaitDone(s: State, t: nat): State
    requires CanAwaitDone(s, t)
  {
    var h := s.threads[t].h;
    s.(threads := s.threads[t := UnDone(h)],
       pool := s.pool[h.ch := s.pool[h.ch].(once := Spent)],
       clock := s.clock + 1)
  }

  // The context watcher

  predicate CanWake(s: State, t: nat) { t < |s.threads| && s.threads[t].WatchIdle? && s.cancelled }

  function DoWake(s: State, t: nat): State
    requires CanWake(s, t)
  {
    Goto(s, t, WatchWant)
  }

  predicate CanSwap(s: State, t: nat) {
    t < |s.threads| && s.lock == Held(t) && s.threads[t].WatchWant?
  }

  function DoSwap(s: State, t: nat): State
    requires CanSwap(s, t)
  {
    s.(threads := s.threads[t := WatchIn(s.unsubs)], unsubs := [], clock := s.clock + 1)
  }

  predicate CanSpawn(s: State, t: nat) {
    t < |s.threads| && s.threads[t].WatchWalk? && s.threads[t].list != []
  }

  function DoSpawn(s: State, t: nat): State
    requires CanSpawn(s, t)
  {
    var th := s.threads[t];
    s.(threads := s.threads[t := WatchWalk(th.list[1..], th.kids + {|s.threads|})] + [UnEnter(th.list[0])],
       clock := s.clock + 1)
  }

  predicate CanJoin(s: State, t: nat) {
    && t < |s.threads| && s.threads[t].WatchWalk? && s.threads[t].list == []
    && (forall k | k in s.threads[t].kids :: k < |s.threads| && s.threads[k].UnDone?)
  }

  function DoJoin(s: State, t: nat): State
    requires CanJoin(s, t)
  {
    Goto(s, t, WatchDone)
  }

  // The worker pool

  predicate IsWorker(s: State, c: nat, w: nat) { c < |s.pool| && w < |s.pool[c].workers| }

  predicate CanTake(s: State, c: nat, w: nat) {
    IsWorker(s, c, w) && s.pool[c].workers[w].Idle? && s.pool[c].buf != []
  }

  function Take(sub: Subscriber, w: nat): Subscriber
    requires w < |sub.workers| && sub.buf != []
  {
    var m := sub.buf[0];
    sub.(buf := sub.buf[1..], taken := sub.taken + [m], workers := sub.workers[w := Running(m)])
  }

  function DoTake(s: State, c: nat, w: nat): State
    requires CanTake(s, c, w)
  {
    s.(pool := s.pool[c := Take(s.pool[c], w)], clock := s.clock + 1)
  }

  predicate CanFinish(s: State, c: nat, w: nat) { IsWorker(s, c, w) && s.pool[c].workers[w].Running? }

  function Finish(sub: Subscriber, w: nat): Subscriber
    requires w < |sub.workers| && sub.workers[w].Running?
  {
    sub.(handled := sub.handled + [sub.workers[w].msg], workers := sub.workers[w := Idle])
  }

  /** The handler returns or panics. The deferred recover makes both the same to the worker. */
  function DoFinish(s: State, c: nat, w: nat): State
    requires CanFinish(s, c, w)
  {
    s.(pool := s.pool[c := Finish(s.pool[c], w)], clock := s.clock + 1)
  }

  predicate CanExit(s: State, c: nat, w: nat) {
    && IsWorker(s, c, w) && s.pool[c].workers[w].Idle?
    && s.pool[c].buf == [] && s.pool[c].closed
  }

  function DoExit(s: State, c: nat, w: nat): State
    requires CanExit(s, c, w)
  {
    s.(pool := s.pool[c := s.pool[c].(workers := s.pool[c].workers[w := Exited])], clock := s.clock + 1)
  }

  predicate AllExited(sub: Subscriber) {
    forall w | 0 <= w < |sub.workers| :: sub.workers[w].Exited?
  }

  predicate CanCloseDone(s: State, c: nat) {
    c < |s.pool| && !s.pool[c].done && AllExited(s.pool[c])
  }

  function DoCloseDone(s: State, c: nat): State
    requires CanCloseDone(s, c)
  {
    s.(pool := s.pool[c := s.pool[c].(done := true)], clock := s.clock + 1)
  }

  // Runs

  datatype Label =
    | CallPublish(v: Value) | CallSubscribe(nilHandler: bool, workers: int) | CallUnsubscribe(h: Handle) | Cancel
    | RLock(t: nat) | Send(t: nat, id: nat) | RUnlock(t: nat)
    | Announce(t: nat) | Acquire(t: nat) | Unlock(t: nat)
    | Register(t: nat)
    | EnterOnce(t: nat) | Remove(t: nat) | AwaitDone(t: nat)
    | Wake(t: nat) | Swap(t: nat) | Spawn(t: nat) | Join(t: nat)
    | TakeOne(c: nat, w: nat) | FinishOne(c: nat, w: nat) | Exit(c: nat, w: nat) | CloseDone(c: nat)

  /** A step of the bus itself, as opposed to a new call or a cancel. */
  predicate Internal(l: Label) {
    !l.CallPublish? && !l.CallSubscribe? && !l.CallUnsubscribe? && !l.Cancel?
  }

  predicate Enabled(s: State, l: Label) {
    match l
    case CallPublish(_) => true
    case CallSubscribe(_, _) => true
    case CallUnsubscribe(h) => CanCallUnsubscribe(s, h)
    case Cancel => CanCancel(s)
    case RLock(t) => CanRLock(s, t)
    case Send(t, id) => CanSend(s, t, id)
    case RUnlock(t) => CanRUnlock(s, t)
    case Announce(t) => CanAnnounce(s, t)
    case Acquire(t) => CanAcquire(s, t)
    case Unlock(t) => CanUnlock(s, t)
    case Register(t) => CanRegister(s, t)
    case EnterOnce(t) => CanEnterOnce(s, t)
    case Remove(t) => CanRemove(s, t)
    case AwaitDone(t) => CanAwaitDone(s, t)
    case Wake(t) => CanWake(s, t)
    case Swap(t) => CanSwap(s, t)
    case Spawn(t) => CanSpawn(s, t)
    case Join(t) => CanJoin(s, t)
    case TakeOne(c, w) => CanTake(s, c, w)
    case FinishOne(c, w) => CanFinish(s, c, w)
    case Exit(c, w) => CanExit(s, c, w)
    case CloseDone(c) => CanCloseDone(s, c)
  }

  function Apply(s: State, l: Label): State
    requires Enabled(s, l)
  {
    match l
    case CallPublish(v) => DoCallPublish(s, v)
    case CallSubscribe(nilHandler, workers) => DoCallSubscribe(s, nilHandler, workers)
    case CallUnsubscribe(h) => DoCallUnsubscribe(s, h)
    case Cancel => DoCancel(s)
    case RLock(t) => DoRLock(s, t)
    case Send(t, id) => DoSend(s, t, id)
    case RUnlock(t) => DoRUnlock(s, t)
    case Announce(t) => DoAnnounce(s, t)
    case Acquire(t) => DoAcquire(s, t)
    case Unlock(t) => DoUnlock(s, t)
    case Register(t) => DoRegister(s, t)
    case EnterOnce(t) => DoEnterOnce(s, t)
    case Remove(t) => DoRemove(s, t)
    case AwaitDone(t) => DoAwaitDone(s, t)
    case Wake(t) => DoWake(s, t)
    case Swap(t) => DoSwap(s, t)
    case Spawn(t) => DoSpawn(s, t)
    case Join(t) => DoJoin(s, t)
    case TakeOne(c, w) => DoTake(s, c, w)
    case FinishOne(c, w) => DoFinish(s, c, w)
    case Exit(c, w) => DoExit(s, c, w)
    case CloseDone(c) => DoCloseDone(s, c)
  }

  /** `ls` is a run from `s`. */
  predicate IsRun(s: State, ls: seq<Label>)
    decreases |ls|
  {
    ls == [] || (Enabled(s, ls[0]) && IsRun(Apply(s, ls[0]), ls[1..]))
  }

  /** The state a run ends in. */
  function After(s: State, ls: seq<Label>): State
    requires IsRun(s, ls)
    decreases |ls|
  {
    if ls == [] then s else After(Apply(s, ls[0]), ls[1..])
  }

  lemma {:induction false} RunAppend(s: State, a: seq<Label>, b: seq<Label>)
    requires IsRun(s, a) && IsRun(After(s, a), b)
    ensures IsRun(s, a + b) && After(s, a + b) == After(After(s, a), b)
    decreases |a|
  {
    hide Enabled, Apply;
    if a == [] {
      assert a + b == b;
    } else {
      RunAppend(Apply(s, a[0]), a[1..], b);
      assert (a + b)[0] == a[0] && (a + b)[1..] == a[1..] + b;
    }
  }

  lemma {:induction false} RunCons(s: State, l: Label, ls: seq<Label>)
    requires Enabled(s, l) && IsRun(Apply(s, l), ls)
    ensures IsRun(s, [l] + ls) && After(s, [l] + ls) == After(Apply(s, l), ls)
  {
    hide Enabled, Apply;
    assert ([l] + ls)[0] == l && ([l] + ls)[1..] == ls;
  }

  /** `ls` is a run from `s` to `s'`. */
  predicate Leads(s: State, ls: seq<Label>, s': State) { IsRun(s, ls) && After(s, ls) == s' }

  lemma {:induction false} LeadsOn(s: State, ls: seq<Label>, s': State, l: Label)
    requires Leads(s, ls, s') && Enabled(s', l)
    ensures Leads(s, ls + [l], Apply(s', l))
  {
    hide Enabled, Apply;
    assert [l] + [] == [l] && IsRun(Apply(s', l), []) && After(Apply(s', l), []) == Apply(s', l);
    RunCons(s', l, []);
    RunAppend(s, ls, [l]);
  }

  lemma {:induction false} LeadsFurther(s: State, ls: seq<Label>, s1: State, more: seq<Label>, s2: State)
    requires Leads(s, ls, s1) && Leads(s1, more, s2)
    ensures Leads(s, ls + more, s2)
  {
    hide IsRun, After;
    RunAppend(s, ls, more);
  }
}
