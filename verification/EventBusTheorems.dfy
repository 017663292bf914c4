/** What the event bus promises, for every reachable state and every run. */
module EventBusTheorems {
  import opened EventBusModel
  import opened EventBusInvariant
  import opened EventBusSafety

  ghost predicate Reaches(hasCtx: bool, buffer: int, ls: seq<Label>, s: State) {
    IsRun(Init(hasCtx, buffer), ls) && After(Init(hasCtx, buffer), ls) == s
  }

  /** Some interleaving of some calls leads to `s`. */
  ghost predicate Reachable(s: State) {
    exists hasCtx: bool, buffer: int, ls: seq<Label> :: Reaches(hasCtx, buffer, ls, s)
  }

  lemma ReachableInv(s: State)
    requires Reachable(s)
    ensures Inv(s)
  {
    hide Inv, Enabled, Apply;
    var hasCtx: bool, buffer: int, ls: seq<Label> :| Reaches(hasCtx, buffer, ls, s);
    InitInv(hasCtx, buffer);
    RunKept(Init(hasCtx, buffer), ls);
  }

  // Channels and ids

  /** No run sends on a closed channel or closes one twice, ids are never reused, and a channel is
      open exactly while it is the one its id names in the table. */
  lemma ChannelSafety(s: State)
    requires Reachable(s)
    ensures !s.crashed
    ensures forall c, d | 0 <= c < |s.pool| && 0 <= d < |s.pool| && c != d :: s.pool[c].id != s.pool[d].id
    ensures forall c | 0 <= c < |s.pool| ::
              !s.pool[c].closed <==> s.pool[c].id in s.subs && s.subs[s.pool[c].id] == c
    ensures forall id | id in s.subs :: s.subs[id] < |s.pool| && s.pool[s.subs[id]].id == id
  {
    ReachableInv(s);
  }

  /** Deleting and closing through one handle leaves every other subscriber, and its table entry, alone. */
  lemma HandleIsolation(s: State, t: nat)
    requires Reachable(s) && CanRemove(s, t)
    ensures var s', h := DoRemove(s, t), s.threads[t].h;
            && h.ch < |s.pool| && !s.pool[h.ch].closed
            && |s'.pool| == |s.pool| && s'.pool[h.ch].closed
            && s'.subs == s.subs - {s.pool[h.ch].id}
            && forall c | 0 <= c < |s.pool| && c != h.ch :: s'.pool[c] == s.pool[c]
  {
    ReachableInv(s);
    hide PoolOk, History, CancelOk;
    RemoveKept(s, t);
  }

  // Conservation

  /** Nothing is lost, invented or duplicated between the send and the handler, at any moment. */
  lemma Conservation(s: State, c: nat)
    requires Reachable(s) && c < |s.pool|
    ensures var sub := s.pool[c];
            && sub.accepted == sub.taken + sub.buf
            && |sub.buf| <= sub.cap == BufferSize(s.buffer)
            && multiset(sub.taken) == multiset(sub.handled) + InFlight(sub.workers)
            && |InFlight(sub.workers)| <= |sub.workers|
  {
    ReachableInv(s);
    InFlightSize(s.pool[c].workers);
    hide History, CancelOk;
    assert SubscriberOk(s.pool[c]);
  }

  /** With one worker the handler runs see the accepted values in order, panics or not. */
  lemma SingleWorkerFifo(s: State, c: nat)
    requires Reachable(s) && c < |s.pool| && |s.pool[c].workers| == 1
    ensures var sub := s.pool[c];
            sub.accepted == sub.handled + Current(sub.workers[0]) + sub.buf
  {
    ReachableInv(s);
    hide History, CancelOk;
    assert SubscriberOk(s.pool[c]);
  }

  // Fan-out

  /** What a subscriber must have accepted: one message of each finished publish that overlaps its
      time in the table. */
  ghost function Expected(s: State, c: nat): set<Message>
    requires c < |s.pool|
  {
    set p | 0 <= p < |s.threads| && s.threads[p].PubDone? && Covers(s.pool[c], s.threads[p])
      :: Message(p, s.threads[p].v)
  }

  lemma {:induction false} DistinctMultiset(ms: seq<Message>)
    requires forall i, j | 0 <= i < j < |ms| :: ms[i].call != ms[j].call
    ensures multiset(ms) == multiset(set m | m in ms)
  {
    var elems := set m | m in ms;
    forall m
      ensures multiset(ms)[m] == multiset(elems)[m]
    {
      if m in ms {
        var i :| 0 <= i < |ms| && ms[i] == m;
        assert ms == ms[..i] + [m] + ms[i + 1..];
        assert m !in ms[..i] && m !in ms[i + 1..];
      }
    }
  }

  /** No registration and no removal falls inside the critical section of a publish. */
  lemma PublishIsAtomic(s: State, p: nat, c: nat)
    requires Reachable(s) && p < |s.threads| && Published(s.threads[p]) && c < |s.pool|
    ensures Outside(s.pool[c].registered, s.threads[p])
    ensures s.pool[c].removed.Some? ==> Outside(s.pool[c].removed.value, s.threads[p])
  {
    ReachableInv(s);
    hide Core, PoolOk, CancelOk;
  }

  /** Exact fan-out: with no publish in progress, a subscriber has accepted exactly the values of
      the publishes that ran while it was registered, one copy each. */
  lemma ExactFanOut(s: State, c: nat)
    requires Reachable(s) && c < |s.pool| && s.readers == {}
    ensures multiset(s.pool[c].accepted) == multiset(Expected(s, c))
  {
    ReachableInv(s);
    hide PoolOk, CancelOk, TableOk, HandlesOk, OnceOk, OrderOk;
    var acc := s.pool[c].accepted;
    DistinctMultiset(acc);
    forall m
      ensures m in acc <==> m in Expected(s, c)
    {
      if m in acc {
        var i :| 0 <= i < |acc| && acc[i] == m;
        assert Got(s.pool[c], m.call);
      }
      if m in Expected(s, c) {
        assert Got(s.pool[c], m.call);
        var i :| 0 <= i < |acc| && acc[i].call == m.call;
        assert acc[i] == m;
      }
    }
    assert (set m | m in acc) == Expected(s, c);
  }

  // Two states of one run

  /** A subscriber whose pool has ended never changes again, apart from the mark of its Once. */
  predicate Ended(a: Subscriber, b: Subscriber) {
    && b.closed == a.closed && b.buf == a.buf && b.workers == a.workers && b.done == a.done
    && b.accepted == a.accepted && b.taken == a.taken && b.handled == a.handled
  }

  /** The threads of `b` may come after those of `a`: publishes keep their start, finished ones
      everything, and those that had not taken the lock in `a` take it no earlier than that. */
  ghost predicate ThreadsLater(a: State, b: State) {
    && a.clock <= b.clock && |a.threads| <= |b.threads|
    && (forall t | 0 <= t < |a.threads| && Published(a.threads[t]) ::
          && Published(b.threads[t])
          && b.threads[t].begin == a.threads[t].begin && b.threads[t].v == a.threads[t].v
          && (a.threads[t].PubDone? ==> b.threads[t] == a.threads[t]))
    && (forall t | 0 <= t < |b.threads| && Published(b.threads[t]) ::
          (t < |a.threads| && Published(a.threads[t])) || a.clock <= b.threads[t].begin)
  }

  ghost predicate PoolLater(a: State, b: State) {
    && |a.pool| <= |b.pool|
    && (forall c | 0 <= c < |a.pool| && a.pool[c].done :: Ended(a.pool[c], b.pool[c]))
  }

  predicate PublishStep(l: Label) { l.RLock? || l.Send? || l.RUnlock? }

  predicate PoolStep(l: Label) { l.TakeOne? || l.FinishOne? || l.Exit? || l.CloseDone? }

  predicate TableStep(l: Label) { l.Register? || l.EnterOnce? || l.Remove? || l.AwaitDone? }

  lemma PublishThreadsLater(s: State, l: Label)
    requires Enabled(s, l) && PublishStep(l)
    ensures ThreadsLater(s, Apply(s, l))
  {
  }

  lemma PublishPoolLater(s: State, l: Label)
    requires Enabled(s, l) && PublishStep(l)
    requires forall c | 0 <= c < |s.pool| && s.pool[c].done :: s.pool[c].closed
    ensures PoolLater(s, Apply(s, l))
  {
  }

  lemma WorkersThreadsLater(s: State, l: Label)
    requires Enabled(s, l) && PoolStep(l)
    ensures ThreadsLater(s, Apply(s, l))
  {
    assert Apply(s, l).threads == s.threads;
  }

  lemma WorkersPoolLater(s: State, l: Label)
    requires PoolOk(s) && Enabled(s, l) && PoolStep(l)
    ensures PoolLater(s, Apply(s, l))
  {
    hide Conserved;
  }

  /** Only thread `t` moves, and it does not publish. */
  lemma OneThreadLater(s: State, s': State, t: nat)
    requires t < |s.threads| == |s'.threads| && s'.threads == s.threads[t := s'.threads[t]] && s.clock <= s'.clock
    requires !Published(s.threads[t]) && !Published(s'.threads[t])
    ensures ThreadsLater(s, s')
  {
  }

  lemma TableThreadsLater(s: State, l: Label)
    requires Enabled(s, l) && TableStep(l)
    ensures ThreadsLater(s, Apply(s, l))
  {
    hide ThreadsLater;
    match l {
      case Register(t) => OneThreadLater(s, DoRegister(s, t), t);
      case EnterOnce(t) => OneThreadLater(s, DoEnterOnce(s, t), t);
      case Remove(t) => OneThreadLater(s, DoRemove(s, t), t);
      case AwaitDone(t) => OneThreadLater(s, DoAwaitDone(s, t), t);
    }
  }

  lemma TablePoolLater(s: State, l: Label)
    requires Enabled(s, l) && TableStep(l)
    requires forall c | 0 <= c < |s.pool| && s.pool[c].done :: s.pool[c].closed
    ensures PoolLater(s, Apply(s, l))
  {
  }

  lemma OtherLater(s: State, l: Label)
    requires Enabled(s, l) && !PublishStep(l) && !PoolStep(l) && !TableStep(l)
    ensures ThreadsLater(s, Apply(s, l)) && PoolLater(s, Apply(s, l))
  {
  }

  lemma StepLater(s: State, l: Label)
    requires PoolOk(s) && Enabled(s, l)
    ensures ThreadsLater(s, Apply(s, l)) && PoolLater(s, Apply(s, l))
  {
    hide Enabled, Apply, ThreadsLater, PoolLater, Conserved;
    assert forall c | 0 <= c < |s.pool| && s.pool[c].done :: s.pool[c].workers[0].Exited?;
    if PublishStep(l) {
      PublishThreadsLater(s, l);
      PublishPoolLater(s, l);
    } else if PoolStep(l) {
      WorkersThreadsLater(s, l);
      WorkersPoolLater(s, l);
    } else if TableStep(l) {
      TableThreadsLater(s, l);
      TablePoolLater(s, l);
    } else {
      OtherLater(s, l);
    }
  }

  lemma {:induction false} RunLater(s: State, ls: seq<Label>)
    requires Inv(s) && IsRun(s, ls)
    ensures ThreadsLater(s, After(s, ls)) && PoolLater(s, After(s, ls))
    decreases |ls|
  {
    hide Core, History, CancelOk, PoolOk, Enabled, Apply;
    if ls != [] {
      StepLater(s, ls[0]);
      StepKept(s, ls[0]);
      RunLater(Apply(s, ls[0]), ls[1..]);
    }
  }

  lemma {:induction false} ReachableOn(s: State, ls: seq<Label>)
    requires Reachable(s) && IsRun(s, ls)
    ensures Reachable(After(s, ls))
  {
    hide Enabled, Apply;
    var hasCtx: bool, buffer: int, prefix: seq<Label> :| Reaches(hasCtx, buffer, prefix, s);
    RunAppend(Init(hasCtx, buffer), prefix, ls);
    assert Reaches(hasCtx, buffer, prefix + ls, After(s, ls));
  }

  // Drain

  /** Everything the subscriber ever accepted has been handled, and nobody is left to handle more. */
  ghost predicate Drained(sub: Subscriber) {
    && sub.closed && sub.buf == [] && AllExited(sub)
    && multiset(sub.handled) == multiset(sub.accepted)
    && (|sub.workers| == 1 ==> sub.handled == sub.accepted)
  }

  lemma DoneIsDrained(sub: Subscriber)
    requires SubscriberOk(sub) && sub.done
    ensures Drained(sub)
  {
    InFlightNone(sub.workers);
    assert sub.workers[0].Exited?;
    assert sub.taken + [] == sub.taken && sub.handled + [] == sub.handled;
  }

  /** Once any call of an unsubscribe handle has returned, its subscriber is drained, is out of
      the table, and stays exactly so in every continuation: no handler runs for it again. */
  lemma {:induction false} UnsubscribeDrains(s: State, t: nat, ls: seq<Label>)
    requires Reachable(s) && t < |s.threads| && s.threads[t].UnDone? && IsRun(s, ls)
    ensures var h, s' := s.threads[t].h, After(s, ls);
            && h.ch < |s.pool| <= |s'.pool| && s.pool[h.ch].id == h.id
            && Drained(s.pool[h.ch]) && h.id !in s.subs
            && Ended(s.pool[h.ch], s'.pool[h.ch]) && h.id !in s'.subs
  {
    ReachableInv(s);
    var h, s' := s.threads[t].h, After(s, ls);
    assert h.ch < |s.pool| && s.pool[h.ch].id == h.id && s.pool[h.ch].done && h.id !in s.subs by {
      hide PoolOk, History, CancelOk;
    }
    DoneIsDrained(s.pool[h.ch]) by { hide Core, History, CancelOk; }
    RunLater(s, ls);
    RunKept(s, ls);
    assert h.id !in s'.subs by { hide PoolOk, History, CancelOk; assert s'.pool[h.ch].closed; }
  }

  // Order

  lemma EndsByNow(s: State, p: nat)
    requires History(s) && p < |s.threads| && s.threads[p].PubDone?
    ensures s.threads[p].end < s.clock
  {
    hide OriginOk, OrderOk;
  }

  lemma OrderOfCalls(s: State, p: nat, q: nat, c: nat, i: nat, j: nat)
    requires OriginOk(s) && OrderOk(s) && c < |s.pool| && i < |s.pool[c].accepted| && j < |s.pool[c].accepted|
    requires s.pool[c].accepted[i].call == p && s.pool[c].accepted[j].call == q && p != q
    requires p < |s.threads| && q < |s.threads| && Published(s.threads[q]) && s.threads[p].PubDone?
    requires s.threads[p].end <= s.threads[q].begin
    ensures i < j
  {
    assert j < i ==> InOrder(s, q, p);
  }

  /** If publish `p` has returned before `q` is called, then every subscriber that accepts both
      accepts `p` first, whatever else runs. */
  lemma {:induction false} RealTimeOrder(s: State, p: nat, q: nat, ls: seq<Label>, c: nat, i: nat, j: nat)
    requires Reachable(s) && p < |s.threads| && s.threads[p].PubDone? && |s.threads| <= q
    requires IsRun(s, ls) && c < |After(s, ls).pool|
    requires var acc := After(s, ls).pool[c].accepted;
             i < |acc| && j < |acc| && acc[i].call == p && acc[j].call == q
    ensures i < j
  {
    var s' := After(s, ls);
    ReachableInv(s);
    assert History(s);
    hide Core, PoolOk, CancelOk, History;
    RunLater(s, ls);
    RunKept(s, ls);
    EndsByNow(s, p);
    assert OriginOk(s') && OrderOk(s') by { assert Inv(s'); HistoryParts(s'); }
    hide Inv, PoolLater;
    assert q < |s'.threads| && Published(s'.threads[q]) && s.clock <= s'.threads[q].begin;
    hide ThreadsLater, OriginOk, OrderOk;
    OrderOfCalls(s', p, q, c, i, j);
  }

  lemma HistoryParts(s: State)
    requires History(s)
    ensures OriginOk(s) && OrderOk(s)
  {
  }

  /** ... and with one worker it also handles `p` first. */
  lemma {:induction false} RealTimeHandling(s: State, p: nat, q: nat, ls: seq<Label>, c: nat, j: nat)
    requires Reachable(s) && p < |s.threads| && s.threads[p].PubDone? && |s.threads| <= q
    requires IsRun(s, ls) && c < |After(s, ls).pool| && |After(s, ls).pool[c].workers| == 1
    requires Got(After(s, ls).pool[c], p)
    requires var handled := After(s, ls).pool[c].handled; j < |handled| && handled[j].call == q
    ensures exists i :: 0 <= i < j && After(s, ls).pool[c].handled[i].call == p
  {
    var s' := After(s, ls);
    var sub := s'.pool[c];
    ReachableOn(s, ls);
    SingleWorkerFifo(s', c);
    assert sub.accepted[j] == sub.handled[j];
    var i :| 0 <= i < |sub.accepted| && sub.accepted[i].call == p;
    RealTimeOrder(s, p, q, ls, c, i, j);
    assert sub.handled[i] == sub.accepted[i];
  }

  // Cancellation

  /** A Subscribe that has not yet returned, or a running call of a handle. */
  predicate InProgress(th: Thread) {
    th.SubWant? || th.SubIn? || (Unsubscribing(th) && !th.UnDone?)
  }

  /** Cancellation is complete in spite of racing Subscribe calls: when the watcher has finished
      and no Subscribe or unsubscribe is in progress, the table is empty and every pool has ended. */
  lemma CancelCompletes(s: State)
    requires Reachable(s) && s.threads != [] && s.threads[0].WatchDone?
    requires forall t | 0 <= t < |s.threads| :: !InProgress(s.threads[t])
    ensures s.subs == map[]
    ensures forall c | 0 <= c < |s.pool| :: s.pool[c].done && Drained(s.pool[c])
  {
    ReachableInv(s);
    forall c | 0 <= c < |s.pool|
      ensures s.pool[c].closed && s.pool[c].done && Drained(s.pool[c])
    {
      assert s.pool[c].once.Spent? && s.pool[c].closed && s.pool[c].done by {
        hide PoolOk, History;
        assert Doomed(s, c);
      }
      DoneIsDrained(s.pool[c]) by { hide Core, History, CancelOk; }
    }
    assert s.subs.Keys == {} by {
      hide PoolOk, History, CancelOk;
      forall id | 1 <= id <= |s.pool|
        ensures id !in s.subs
      {
        assert s.pool[id - 1].closed;
      }
    }
  }
}
