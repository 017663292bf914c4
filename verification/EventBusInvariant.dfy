/** What every step of the event bus keeps. The invariant comes in parts, each about one
    mechanism: the buffers and workers of one subscriber, the lock, the table of subscribers, the
    sync.Once of the handles, what publishes have delivered, and who is going to remove what. */
module EventBusInvariant {
  import opened Basics
  import opened EventBusModel

  // One subscriber on its own

  /** The message a worker holds, as a sequence of length 0 or 1. */
  function Current(w: Worker): seq<Message> {
    if w.Running? then [w.msg] else []
  }

  /** The same as a multiset. */
  function Carried(w: Worker): multiset<Message> {
    if w.Running? then multiset{w.msg} else multiset{}
  }

  /** The messages inside handlers. */
  ghost function InFlight(ws: seq<Worker>): multiset<Message> {
    if ws == [] then multiset{} else Carried(ws[0]) + InFlight(ws[1..])
  }

  lemma {:induction false} InFlightUpdate(ws: seq<Worker>, i: nat, w: Worker, m: Message)
    requires i < |ws|
    ensures InFlight(ws[i := w])[m] + Carried(ws[i])[m] == InFlight(ws)[m] + Carried(w)[m]
  {
    if i == 0 {
      assert ws[i := w][1..] == ws[1..];
    } else {
      assert ws[i := w][1..] == ws[1..][i - 1 := w];
      InFlightUpdate(ws[1..], i - 1, w, m);
    }
  }

  lemma InFlightStarts(ws: seq<Worker>, i: nat, m: Message)
    requires i < |ws| && ws[i].Idle?
    ensures InFlight(ws[i := Running(m)]) == InFlight(ws) + multiset{m}
  {
    forall x: Message
      ensures InFlight(ws[i := Running(m)])[x] == InFlight(ws)[x] + multiset{m}[x]
    {
      InFlightUpdate(ws, i, Running(m), x);
    }
  }

  lemma InFlightEnds(ws: seq<Worker>, i: nat)
    requires i < |ws| && ws[i].Running?
    ensures InFlight(ws) == multiset{ws[i].msg} + InFlight(ws[i := Idle])
  {
    forall x: Message
      ensures InFlight(ws)[x] == multiset{ws[i].msg}[x] + InFlight(ws[i := Idle])[x]
    {
      InFlightUpdate(ws, i, Idle, x);
    }
  }

  lemma InFlightLeaves(ws: seq<Worker>, i: nat)
    requires i < |ws| && ws[i].Idle?
    ensures InFlight(ws[i := Exited]) == InFlight(ws)
  {
    forall x: Message
      ensures InFlight(ws[i := Exited])[x] == InFlight(ws)[x]
    {
      InFlightUpdate(ws, i, Exited, x);
    }
  }

  lemma AppendOne(ms: seq<Message>, m: Message, rest: multiset<Message>)
    ensures multiset(ms + [m]) == multiset(ms) + multiset{m}
    ensures (multiset(ms) + rest) + multiset{m} == multiset(ms) + (rest + multiset{m})
    ensures multiset(ms) + (multiset{m} + rest) == multiset(ms + [m]) + rest
  {
  }

  lemma {:induction false} InFlightSize(ws: seq<Worker>)
    ensures |InFlight(ws)| <= |ws|
  {
    if ws != [] { InFlightSize(ws[1..]); }
  }

  lemma {:induction false} InFlightNone(ws: seq<Worker>)
    requires forall w | 0 <= w < |ws| :: !ws[w].Running?
    ensures InFlight(ws) == multiset{}
  {
    if ws != [] { InFlightNone(ws[1..]); }
  }

  /** Conservation: accepted = taken ++ buffer, and what was taken is handled or in flight. */
  ghost predicate Conserved(sub: Subscriber) {
    && |sub.buf| <= sub.cap
    && sub.accepted == sub.taken + sub.buf
    && multiset(sub.taken) == multiset(sub.handled) + InFlight(sub.workers)
    && (|sub.workers| == 1 ==> sub.taken == sub.handled + Current(sub.workers[0]))
  }

  ghost predicate SubscriberOk(sub: Subscriber) {
    && 1 <= sub.cap && 1 <= |sub.workers|
    && Conserved(sub)
    && (forall w | 0 <= w < |sub.workers| && sub.workers[w].Exited? :: sub.closed && sub.buf == [])
    && (sub.done ==> AllExited(sub))
  }

  lemma NewSubscriberOk(id: nat, cap: nat, workers: nat, now: nat)
    requires 1 <= cap && 1 <= workers
    ensures SubscriberOk(NewSubscriber(id, cap, workers, now))
  {
    InFlightNone(NewSubscriber(id, cap, workers, now).workers);
  }

  lemma AcceptOk(sub: Subscriber, m: Message)
    requires SubscriberOk(sub) && !sub.closed && |sub.buf| < sub.cap
    ensures SubscriberOk(Accept(sub, m))
  {
  }

  lemma TakeOk(sub: Subscriber, w: nat)
    requires SubscriberOk(sub) && w < |sub.workers| && sub.workers[w].Idle? && sub.buf != []
    ensures SubscriberOk(Take(sub, w))
  {
    hide InFlight;
    var m := sub.buf[0];
    InFlightStarts(sub.workers, w, m);
    AppendOne(sub.taken, m, multiset{});
    AppendOne(sub.handled, m, InFlight(sub.workers));
    assert sub.accepted == (sub.taken + [m]) + sub.buf[1..];
  }

  lemma FinishOk(sub: Subscriber, w: nat)
    requires SubscriberOk(sub) && w < |sub.workers| && sub.workers[w].Running?
    ensures SubscriberOk(Finish(sub, w))
  {
    hide InFlight;
    InFlightEnds(sub.workers, w);
    AppendOne(sub.handled, sub.workers[w].msg, InFlight(sub.workers[w := Idle]));
  }

  lemma ExitOk(sub: Subscriber, w: nat)
    requires SubscriberOk(sub) && w < |sub.workers| && sub.workers[w].Idle? && sub.closed && sub.buf == []
    ensures SubscriberOk(sub.(workers := sub.workers[w := Exited]))
  {
    hide InFlight;
    InFlightLeaves(sub.workers, w);
  }

  // The whole bus

  ghost predicate LockOk(s: State) {
    && (!s.lock.Free? ==> s.lock.owner < |s.threads|)
    && (s.lock.Announced? ==> WantsWrite(s.threads[s.lock.owner]))
    && (s.lock.Held? ==> s.readers == {} && (WantsWrite(s.threads[s.lock.owner]) || Inside(s.threads[s.lock.owner])))
    && (forall t | 0 <= t < |s.threads| && Inside(s.threads[t]) :: s.lock == Held(t))
    && (forall t: nat :: t in s.readers <==> t < |s.threads| && s.threads[t].PubSend?)
  }

  /** The handle Subscribe makes for channel `c`. */
  function HandleOf(c: nat): Handle { Handle(c + 1, c) }

  predicate HandleOk(s: State, h: Handle) { h.ch < |s.pool| && h.id == h.ch + 1 }

  predicate Lists(th: Thread, h: Handle) { (th.WatchIn? || th.WatchWalk?) && h in th.list }

  /** Channel `c` belongs to id `c + 1`, is in the table exactly while it is open. */
  ghost predicate TableOk(s: State) {
    && s.next == |s.pool|
    && (forall id | id in s.subs :: 1 <= id <= |s.pool| && s.subs[id] == id - 1)
    && (forall c | 0 <= c < |s.pool| ::
          && s.pool[c].id == c + 1
          && s.pool[c].cap == BufferSize(s.buffer)
          && (s.pool[c].closed <==> c + 1 !in s.subs)
          && (s.pool[c].closed <==> s.pool[c].removed.Some?)
          && s.pool[c].registered < s.clock
          && (s.pool[c].removed.Some? ==> s.pool[c].registered < s.pool[c].removed.value < s.clock))
    && (forall t | 0 <= t < |s.threads| && s.threads[t].SubWant? :: 1 <= s.threads[t].pool)
  }

  ghost predicate PoolOk(s: State) {
    forall c | 0 <= c < |s.pool| :: SubscriberOk(s.pool[c])
  }

  ghost predicate HandlesOk(s: State) {
    && (forall t | 0 <= t < |s.threads| && HasHandle(s.threads[t]) :: HandleOk(s, s.threads[t].h))
    && (forall i | 0 <= i < |s.unsubs| :: HandleOk(s, s.unsubs[i]))
    && (forall t | 0 <= t < |s.threads| && (s.threads[t].WatchIn? || s.threads[t].WatchWalk?) ::
          forall i | 0 <= i < |s.threads[t].list| :: HandleOk(s, s.threads[t].list[i]))
  }

  /** At most one thread is inside the Once of a handle, and who it is. */
  ghost predicate OnceOk(s: State) {
    && (forall c | 0 <= c < |s.pool| ::
          match s.pool[c].once
          case Fresh => !s.pool[c].closed
          case Busy(t) => t < |s.threads| && InOnce(s.threads[t]) && s.threads[t].h.ch == c
          case Spent => s.pool[c].closed && s.pool[c].done)
    && (forall t | 0 <= t < |s.threads| && InOnce(s.threads[t]) ::
          && s.threads[t].h.ch < |s.pool|
          && s.pool[s.threads[t].h.ch].once == Busy(t)
          && (s.pool[s.threads[t].h.ch].closed <==> !s.threads[t].UnWant?))
    && (forall t | 0 <= t < |s.threads| && s.threads[t].UnDone? ::
          s.threads[t].h.ch < |s.pool| && s.pool[s.threads[t].h.ch].once.Spent?)
  }

  ghost predicate Got(sub: Subscriber, p: nat) {
    exists i | 0 <= i < |sub.accepted| :: sub.accepted[i].call == p
  }

  /** Every accepted message comes from a publish that has taken the read lock, once, unchanged. */
  ghost predicate OriginOk(s: State) {
    forall c | 0 <= c < |s.pool| ::
      && (forall i | 0 <= i < |s.pool[c].accepted| ::
            && s.pool[c].accepted[i].call < |s.threads|
            && Published(s.threads[s.pool[c].accepted[i].call])
            && s.threads[s.pool[c].accepted[i].call].v == s.pool[c].accepted[i].value)
      && (forall i, j | 0 <= i < j < |s.pool[c].accepted| ::
            s.pool[c].accepted[i].call != s.pool[c].accepted[j].call)
  }

  /** Stamp `at` lies outside the critical section of publish `th`. */
  predicate Outside(at: nat, th: Thread)
    requires Published(th)
  {
    at < th.begin || (th.PubDone? && th.end < at)
  }

  /** The subscriber was in the table during the critical section of publish `th`. */
  predicate Covers(sub: Subscriber, th: Thread)
    requires Published(th)
  {
    sub.registered < th.begin && (sub.removed.None? || th.begin < sub.removed.value)
  }

  /** Fan-out so far: a finished publish has reached exactly the subscribers it overlaps with,
      a running one exactly those it has ticked off; no table change falls inside either. */
  ghost predicate FanOutOk(s: State) {
    forall p | 0 <= p < |s.threads| && Published(s.threads[p]) ::
      && s.threads[p].begin < s.clock
      && (s.threads[p].PubDone? ==> s.threads[p].begin < s.threads[p].end < s.clock)
      && (s.threads[p].PubSend? ==> s.threads[p].sent <= s.subs.Keys)
      && (forall c | 0 <= c < |s.pool| ::
            && Outside(s.pool[c].registered, s.threads[p])
            && (s.pool[c].removed.Some? ==> Outside(s.pool[c].removed.value, s.threads[p]))
            && (Got(s.pool[c], p) <==>
                  if s.threads[p].PubSend? then c + 1 in s.threads[p].sent
                  else Covers(s.pool[c], s.threads[p])))
  }

  predicate InOrder(s: State, p: nat, q: nat) {
    && p < |s.threads| && q < |s.threads| && Published(s.threads[p]) && Published(s.threads[q])
    && (s.threads[q].PubDone? ==> s.threads[p].begin < s.threads[q].end)
  }

  /** A publish that ended before another began is never accepted after it. */
  ghost predicate OrderOk(s: State) {
    forall c | 0 <= c < |s.pool| ::
      forall i, j | 0 <= i < j < |s.pool[c].accepted| ::
        InOrder(s, s.pool[c].accepted[i].call, s.pool[c].accepted[j].call)
  }

  /** Thread `th` is on its way to run, or is running, the handle of channel `c`. */
  predicate Tends(th: Thread, c: nat) {
    (th.SubIn? || th.UnEnter? || InOnce(th)) && th.h.ch == c
  }

  /** Somebody has run or is going to run the handle of channel `c`. */
  ghost predicate Doomed(s: State, c: nat)
    requires c < |s.pool| && 0 < |s.threads|
  {
    || s.pool[c].once.Spent?
    || Lists(s.threads[0], HandleOf(c))
    || exists t | 0 <= t < |s.threads| :: Tends(s.threads[t], c)
  }

  predicate BeforeSwap(s: State) {
    s.threads == [] || !(s.threads[0].WatchIn? || s.threads[0].WatchWalk? || s.threads[0].WatchDone?)
  }

  /** Before the swap every handle ever made is in the list; after it every subscriber is doomed. */
  ghost predicate CancelOk(s: State) {
    && (s.cancelled ==> s.hasCtx)
    && (s.hasCtx ==> 0 < |s.threads| && Watching(s.threads[0]))
    && (forall t | 0 <= t < |s.threads| && Watching(s.threads[t]) :: s.hasCtx && t == 0)
    && (forall t | 0 <= t < |s.threads| && Watching(s.threads[t]) && !s.threads[t].WatchIdle? :: s.cancelled)
    && (forall t | 0 <= t < |s.threads| && s.threads[t].WatchWalk? ::
          forall k | k in s.threads[t].kids :: k < |s.threads| && Unsubscribing(s.threads[k]))
    && (BeforeSwap(s) ==> forall c | 0 <= c < |s.pool| :: HandleOf(c) in s.unsubs)
    && (!BeforeSwap(s) ==> forall c | 0 <= c < |s.pool| :: Doomed(s, c))
  }

  /** The part about the present: lock, table, handles and Once. */
  ghost predicate Core(s: State) {
    LockOk(s) && TableOk(s) && HandlesOk(s) && OnceOk(s)
  }

  /** The part about the past. */
  ghost predicate History(s: State) {
    OriginOk(s) && FanOutOk(s) && OrderOk(s)
  }

  ghost predicate Inv(s: State) {
    !s.crashed && Core(s) && PoolOk(s) && History(s) && CancelOk(s)
  }

  lemma InitInv(hasCtx: bool, buffer: int)
    ensures Inv(Init(hasCtx, buffer))
  {
  }
}
