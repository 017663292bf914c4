/** Every step of the event bus keeps the invariant. Three frame lemmas settle what a step leaves
    alone; the lemmas named after a step settle what it changes. */
module EventBusSafety {
  import opened EventBusModel
  import opened EventBusInvariant

  // Frames

  /** The step neither accepts a message nor touches the table or the stamps. */
  ghost predicate SameHistory(s: State, s': State) {
    && |s.threads| <= |s'.threads| && s.clock <= s'.clock && s'.subs == s.subs
    && (forall t | 0 <= t < |s'.threads| ::
          if t < |s.threads| && Published(s.threads[t]) then s'.threads[t] == s.threads[t]
          else !Published(s'.threads[t]))
    && |s'.pool| == |s.pool|
    && (forall c | 0 <= c < |s.pool| ::
          && s'.pool[c].accepted == s.pool[c].accepted
          && s'.pool[c].registered == s.pool[c].registered
          && s'.pool[c].removed == s.pool[c].removed)
  }

  lemma SameHistoryKept(s: State, s': State)
    requires SameHistory(s, s') && History(s)
    ensures History(s')
  {
    forall p, c | 0 <= p < |s'.threads| && Published(s'.threads[p]) && 0 <= c < |s.pool|
      ensures Got(s'.pool[c], p) <==> Got(s.pool[c], p)
    {
    }
  }

  /** Nobody who was going to run a handle gives up, and the watcher stays where it is. */
  ghost predicate SameDoom(s: State, s': State) {
    && s'.hasCtx == s.hasCtx && (s.cancelled ==> s'.cancelled) && (s'.cancelled ==> s.hasCtx)
    && s'.unsubs == s.unsubs
    && |s.threads| <= |s'.threads|
    && (forall t | 0 <= t < |s'.threads| ::
          if t < |s.threads| && Watching(s.threads[t]) then s'.threads[t] == s.threads[t]
          else !Watching(s'.threads[t]))
    && (forall t | 0 <= t < |s.threads| && Unsubscribing(s.threads[t]) :: Unsubscribing(s'.threads[t]))
    && |s'.pool| == |s.pool|
    && (forall c | 0 <= c < |s.pool| && s.pool[c].once.Spent? :: s'.pool[c].once.Spent?)
    && (!BeforeSwap(s) ==>
          forall t, c | 0 <= t < |s.threads| && 0 <= c < |s.pool| && Tends(s.threads[t], c) ::
            Tends(s'.threads[t], c) || s'.pool[c].once.Spent?)
  }

  lemma SameDoomKept(s: State, s': State)
    requires SameDoom(s, s') && CancelOk(s)
    ensures CancelOk(s')
  {
    if !BeforeSwap(s) {
      forall d | 0 <= d < |s.pool|
        ensures Doomed(s', d)
      {
        assert Doomed(s, d);
        if t :| 0 <= t < |s.threads| && Tends(s.threads[t], d) {
          assert Tends(s'.threads[t], d) || s'.pool[d].once.Spent?;
        }
      }
    }
  }

  /** A soundness of a subscriber that only its channel and workers matter to. */
  lemma SubscriberOkFrame(a: Subscriber, b: Subscriber)
    requires SubscriberOk(a)
    requires b.cap == a.cap && b.workers == a.workers && b.buf == a.buf && b.done == a.done
    requires b.accepted == a.accepted && b.taken == a.taken && b.handled == a.handled
    requires a.closed ==> b.closed
    ensures SubscriberOk(b)
  {
  }

  /** What the rest of the bus sees of a subscriber while its workers run. */
  predicate SameOutside(a: Subscriber, b: Subscriber) {
    && a.id == b.id && a.cap == b.cap && a.closed == b.closed && a.once == b.once
    && a.accepted == b.accepted && a.registered == b.registered && a.removed == b.removed
    && (a.done ==> b.done)
  }

  lemma WorkerStepKept(s: State, c: nat, sub: Subscriber)
    requires Inv(s) && c < |s.pool| && SameOutside(s.pool[c], sub) && SubscriberOk(sub)
    ensures Inv(s.(pool := s.pool[c := sub], clock := s.clock + 1))
  {
    hide LockOk, TableOk, HandlesOk, OnceOk, OriginOk, FanOutOk, OrderOk, SubscriberOk;
    var s' := s.(pool := s.pool[c := sub], clock := s.clock + 1);
    WorkerStepCore(s, c, sub);
    SameHistoryKept(s, s');
    SameDoomKept(s, s');
  }

  lemma WorkerStepCore(s: State, c: nat, sub: Subscriber)
    requires Core(s) && c < |s.pool| && SameOutside(s.pool[c], sub)
    ensures Core(s.(pool := s.pool[c := sub], clock := s.clock + 1))
  {
    var s' := s.(pool := s.pool[c := sub], clock := s.clock + 1);
    assert LockOk(s') by { hide TableOk, HandlesOk, OnceOk; }
    assert TableOk(s') by { hide LockOk, HandlesOk, OnceOk; }
    assert HandlesOk(s') by { hide LockOk, TableOk, OnceOk; }
    assert OnceOk(s') by { hide LockOk, TableOk, HandlesOk; }
  }

  // Calls, the cancel and the lock

  predicate NewCall(s: State, th: Thread) {
    || th.PubWant? || (th.SubWant? && 1 <= th.pool) || th.SubPanic?
    || (th.UnEnter? && CanCallUnsubscribe(s, th.h))
  }

  lemma CallCore(s: State, th: Thread)
    requires Core(s) && NewCall(s, th)
    ensures Core(Call(s, th))
  {
  }

  lemma CallFrame(s: State, th: Thread)
    requires (s.cancelled ==> s.hasCtx) && NewCall(s, th)
    ensures var s' := Call(s, th); SameHistory(s, s') && SameDoom(s, s')
  {
  }

  lemma CallKept(s: State, th: Thread)
    requires Inv(s) && NewCall(s, th)
    ensures Inv(Call(s, th))
  {
    hide LockOk, TableOk, HandlesOk, OnceOk, OriginOk, FanOutOk, OrderOk, SubscriberOk;
    var s' := Call(s, th);
    CallCore(s, th);
    CallFrame(s, th);
    SameHistoryKept(s, s');
    SameDoomKept(s, s');
  }

  lemma CancelCore(s: State)
    requires Core(s) && CanCancel(s)
    ensures Core(DoCancel(s))
  {
  }

  lemma CancelFrame(s: State)
    requires (s.cancelled ==> s.hasCtx) && CanCancel(s)
    ensures var s' := DoCancel(s); SameHistory(s, s') && SameDoom(s, s')
  {
  }

  lemma CancelKept(s: State)
    requires Inv(s) && CanCancel(s)
    ensures Inv(DoCancel(s))
  {
    hide LockOk, TableOk, HandlesOk, OnceOk, OriginOk, FanOutOk, OrderOk, SubscriberOk;
    var s' := DoCancel(s);
    CancelCore(s);
    CancelFrame(s);
    SameHistoryKept(s, s');
    SameDoomKept(s, s');
  }

  lemma AnnounceCore(s: State, t: nat)
    requires Core(s) && CanAnnounce(s, t)
    ensures Core(DoAnnounce(s, t))
  {
  }

  lemma AnnounceFrame(s: State, t: nat)
    requires (s.cancelled ==> s.hasCtx) && CanAnnounce(s, t)
    ensures var s' := DoAnnounce(s, t); SameHistory(s, s') && SameDoom(s, s')
  {
  }

  lemma AnnounceKept(s: State, t: nat)
    requires Inv(s) && CanAnnounce(s, t)
    ensures Inv(DoAnnounce(s, t))
  {
    hide LockOk, TableOk, HandlesOk, OnceOk, OriginOk, FanOutOk, OrderOk, SubscriberOk;
    var s' := DoAnnounce(s, t);
    AnnounceCore(s, t);
    AnnounceFrame(s, t);
    SameHistoryKept(s, s');
    SameDoomKept(s, s');
  }

  lemma AcquireCore(s: State, t: nat)
    requires Core(s) && CanAcquire(s, t)
    ensures Core(DoAcquire(s, t))
  {
  }

  lemma AcquireFrame(s: State, t: nat)
    requires (s.cancelled ==> s.hasCtx) && CanAcquire(s, t)
    ensures var s' := DoAcquire(s, t); SameHistory(s, s') && SameDoom(s, s')
  {
  }

  lemma AcquireKept(s: State, t: nat)
    requires Inv(s) && CanAcquire(s, t)
    ensures Inv(DoAcquire(s, t))
  {
    hide LockOk, TableOk, HandlesOk, OnceOk, OriginOk, FanOutOk, OrderOk, SubscriberOk;
    var s' := DoAcquire(s, t);
    AcquireCore(s, t);
    AcquireFrame(s, t);
    SameHistoryKept(s, s');
    SameDoomKept(s, s');
  }

  lemma UnlockCore(s: State, t: nat)
    requires Core(s) && CanUnlock(s, t)
    ensures Core(DoUnlock(s, t))
  {
    var s' := DoUnlock(s, t);
    assert LockOk(s') by { hide TableOk, HandlesOk, OnceOk; }
    assert TableOk(s') by { hide LockOk, HandlesOk, OnceOk; }
    assert HandlesOk(s') by { hide LockOk, TableOk, OnceOk; }
    assert OnceOk(s') by { hide LockOk; }
  }

  lemma UnlockFrame(s: State, t: nat)
    requires CanUnlock(s, t)
    ensures var s' := DoUnlock(s, t); SameHistory(s, s')
  {
  }

  lemma UnlockKept(s: State, t: nat)
    requires Inv(s) && CanUnlock(s, t)
    ensures Inv(DoUnlock(s, t))
  {
    hide LockOk, TableOk, HandlesOk, OnceOk, OriginOk, FanOutOk, OrderOk, SubscriberOk;
    var s' := DoUnlock(s, t);
    UnlockCore(s, t);
    UnlockFrame(s, t);
    SameHistoryKept(s, s');
    UnlockCancel(s, t);
  }

  lemma UnlockCancel(s: State, t: nat)
    requires Core(s) && CancelOk(s) && CanUnlock(s, t)
    ensures CancelOk(DoUnlock(s, t))
  {
    hide LockOk, TableOk, HandlesOk, OnceOk;
    var s' := DoUnlock(s, t);
    if !s.threads[t].WatchIn? {
      assert SameDoom(s, s');
      SameDoomKept(s, s');
    } else {
      forall c | 0 <= c < |s.pool|
        ensures Doomed(s', c)
      {
        assert Doomed(s, c);
        if u :| 0 <= u < |s.threads| && Tends(s.threads[u], c) {
          assert Tends(s'.threads[u], c);
        }
      }
    }
  }

  // Publish

  predicate CanDeliver(s: State, t: nat, id: nat) {
    CanSend(s, t, id) && !s.pool[s.subs[id]].closed
  }

  lemma RLockCore(s: State, t: nat)
    requires Core(s) && CanRLock(s, t)
    ensures Core(DoRLock(s, t))
  {
  }

  lemma RLockFrame(s: State, t: nat)
    requires (s.cancelled ==> s.hasCtx) && CanRLock(s, t)
    ensures var s' := DoRLock(s, t); SameDoom(s, s')
  {
  }

  lemma RLockKept(s: State, t: nat)
    requires Inv(s) && CanRLock(s, t)
    ensures Inv(DoRLock(s, t))
  {
    hide LockOk, TableOk, HandlesOk, OnceOk, OriginOk, FanOutOk, OrderOk, SubscriberOk;
    var s' := DoRLock(s, t);
    RLockCore(s, t);
    RLockFrame(s, t);
    RLockHistory(s, t);
    SameDoomKept(s, s');
  }

  lemma DeliverTable(s: State, t: nat, id: nat)
    requires LockOk(s) && TableOk(s) && CanDeliver(s, t, id)
    ensures LockOk(Deliver(s, t, id, s.subs[id])) && TableOk(Deliver(s, t, id, s.subs[id]))
  {
    assert LockOk(Deliver(s, t, id, s.subs[id])) by { hide TableOk; }
  }

  lemma DeliverHandles(s: State, t: nat, id: nat)
    requires HandlesOk(s) && OnceOk(s) && CanDeliver(s, t, id)
    ensures HandlesOk(Deliver(s, t, id, s.subs[id])) && OnceOk(Deliver(s, t, id, s.subs[id]))
  {
    assert HandlesOk(Deliver(s, t, id, s.subs[id])) by { hide OnceOk; }
  }

  lemma DeliverCore(s: State, t: nat, id: nat)
    requires Core(s) && CanDeliver(s, t, id)
    ensures Core(Deliver(s, t, id, s.subs[id]))
  {
    hide LockOk, TableOk, HandlesOk, OnceOk;
    DeliverTable(s, t, id);
    DeliverHandles(s, t, id);
  }

  lemma DeliverFrame(s: State, t: nat, id: nat)
    requires (s.cancelled ==> s.hasCtx) && CanDeliver(s, t, id)
    ensures var s' := Deliver(s, t, id, s.subs[id]); SameDoom(s, s')
  {
  }

  lemma DeliverKept(s: State, t: nat, id: nat)
    requires Inv(s) && CanDeliver(s, t, id)
    ensures Inv(Deliver(s, t, id, s.subs[id]))
  {
    hide LockOk, TableOk, HandlesOk, OnceOk, OriginOk, FanOutOk, OrderOk, SubscriberOk;
    var s' := Deliver(s, t, id, s.subs[id]);
    DeliverCore(s, t, id);
    DeliverFrame(s, t, id);
    DeliverHistory(s, t, id);
    SameDoomKept(s, s');
    AcceptOk(s.pool[s.subs[id]], Message(t, s.threads[t].v));
  }

  lemma RUnlockCore(s: State, t: nat)
    requires Core(s) && CanRUnlock(s, t)
    ensures Core(DoRUnlock(s, t))
  {
  }

  lemma RUnlockFrame(s: State, t: nat)
    requires (s.cancelled ==> s.hasCtx) && CanRUnlock(s, t)
    ensures var s' := DoRUnlock(s, t); SameDoom(s, s')
  {
  }

  lemma RUnlockKept(s: State, t: nat)
    requires Inv(s) && CanRUnlock(s, t)
    ensures Inv(DoRUnlock(s, t))
  {
    hide LockOk, TableOk, HandlesOk, OnceOk, OriginOk, FanOutOk, OrderOk, SubscriberOk;
    var s' := DoRUnlock(s, t);
    RUnlockCore(s, t);
    RUnlockFrame(s, t);
    RUnlockHistory(s, t);
    SameDoomKept(s, s');
  }

  lemma RLockHistory(s: State, t: nat)
    requires Core(s) && History(s) && CanRLock(s, t)
    ensures History(DoRLock(s, t))
  {
    hide HandlesOk, OnceOk;
  }

  lemma DeliverFanOut(s: State, t: nat, id: nat)
    requires Core(s) && FanOutOk(s) && CanDeliver(s, t, id)
    ensures FanOutOk(Deliver(s, t, id, s.subs[id]))
  {
    hide OnceOk, HandlesOk;
    var s', c := Deliver(s, t, id, s.subs[id]), s.subs[id];
    var sub, sub' := s.pool[c], s'.pool[c];
    assert c == id - 1;
    assert sub'.accepted[|sub.accepted|].call == t;
    forall p | 0 <= p < |s.threads| && Published(s'.threads[p])
      ensures forall d | 0 <= d < |s.pool| ::
        Got(s'.pool[d], p) <==>
          if s'.threads[p].PubSend? then d + 1 in s'.threads[p].sent else Covers(s'.pool[d], s'.threads[p])
    {
      forall d | 0 <= d < |s.pool|
        ensures Got(s'.pool[d], p) <==> (Got(s.pool[d], p) || (d == c && p == t))
      {
        if d == c {
          if i :| 0 <= i < |sub.accepted| && sub.accepted[i].call == p { assert sub'.accepted[i].call == p; }
        }
      }
    }
  }

  lemma DeliverOrigin(s: State, t: nat, id: nat)
    requires TableOk(s) && OriginOk(s) && FanOutOk(s) && CanDeliver(s, t, id)
    ensures OriginOk(Deliver(s, t, id, s.subs[id]))
  {
    var c := s.subs[id];
    var sub, sub' := s.pool[c], Accept(s.pool[c], Message(t, s.threads[t].v));
    assert c == id - 1 && !Got(sub, t);
    forall i, j | 0 <= i < j < |sub'.accepted|
      ensures sub'.accepted[i].call != sub'.accepted[j].call
    {
      assert sub'.accepted[i] == sub.accepted[i];
    }
  }

  lemma DeliverOrder(s: State, t: nat, id: nat)
    requires TableOk(s) && OriginOk(s) && OrderOk(s) && CanDeliver(s, t, id)
    ensures OrderOk(Deliver(s, t, id, s.subs[id]))
  {
  }

  lemma DeliverHistory(s: State, t: nat, id: nat)
    requires Core(s) && History(s) && CanDeliver(s, t, id)
    ensures History(Deliver(s, t, id, s.subs[id]))
  {
    hide LockOk, TableOk, HandlesOk, OnceOk, OriginOk, FanOutOk, OrderOk;
    DeliverOrigin(s, t, id);
    DeliverFanOut(s, t, id);
    DeliverOrder(s, t, id);
  }

  lemma RUnlockHistory(s: State, t: nat)
    requires Core(s) && History(s) && CanRUnlock(s, t)
    ensures History(DoRUnlock(s, t))
  {
    hide HandlesOk, OnceOk;
  }

  // Subscribe

  lemma RegisterCore(s: State, t: nat)
    requires Core(s) && CanRegister(s, t)
    ensures Core(DoRegister(s, t)) && 1 <= s.threads[t].pool
  {
    var s' := DoRegister(s, t);
    assert LockOk(s') by { hide TableOk, HandlesOk, OnceOk; }
    assert TableOk(s') by { hide LockOk, HandlesOk, OnceOk; }
    assert HandlesOk(s') by { hide LockOk, OnceOk; }
    assert OnceOk(s') by { hide LockOk; }
  }

  lemma RegisterKept(s: State, t: nat)
    requires Inv(s) && CanRegister(s, t)
    ensures Inv(DoRegister(s, t))
  {
    hide LockOk, TableOk, HandlesOk, OnceOk, OriginOk, FanOutOk, OrderOk, SubscriberOk;
    var s' := DoRegister(s, t);
    RegisterCore(s, t);
    RegisterHistory(s, t);
    RegisterCancel(s, t);
    NewSubscriberOk(s.next + 1, BufferSize(s.buffer), s.threads[t].pool, s.clock);
  }

  lemma RegisterHistory(s: State, t: nat)
    requires Core(s) && History(s) && CanRegister(s, t)
    ensures History(DoRegister(s, t))
  {
    hide HandlesOk, OnceOk;
  }

  lemma RegisterCancel(s: State, t: nat)
    requires Core(s) && CancelOk(s) && CanRegister(s, t)
    ensures CancelOk(DoRegister(s, t))
  {
    var s' := DoRegister(s, t);
    if !BeforeSwap(s) {
      forall c | 0 <= c < |s'.pool|
        ensures Doomed(s', c)
      {
        if c == |s.pool| {
          assert Tends(s'.threads[t], c);
        } else {
          assert Doomed(s, c);
          if u :| 0 <= u < |s.threads| && Tends(s.threads[u], c) {
            assert Tends(s'.threads[u], c);
          }
        }
      }
    }
  }

  // The unsubscribe handle

  lemma SeizeCore(s: State, t: nat, h: Handle)
    requires Core(s) && CanEnterOnce(s, t) && h == s.threads[t].h && s.pool[h.ch].once.Fresh?
    ensures Core(Seize(s, t, h))
  {
    var s' := Seize(s, t, h);
    assert LockOk(s') by { hide TableOk, HandlesOk, OnceOk; }
    assert TableOk(s') by { hide LockOk, HandlesOk, OnceOk; }
    assert HandlesOk(s') by { hide LockOk, TableOk, OnceOk; }
    assert OnceOk(s') by { hide LockOk; }
  }

  lemma SeizeFrame(s: State, t: nat, h: Handle)
    requires (s.cancelled ==> s.hasCtx) && CanEnterOnce(s, t) && h == s.threads[t].h && s.pool[h.ch].once.Fresh?
    ensures var s' := Seize(s, t, h); SameHistory(s, s') && SameDoom(s, s')
  {
  }

  lemma SeizeKept(s: State, t: nat, h: Handle)
    requires Inv(s) && CanEnterOnce(s, t) && h == s.threads[t].h && s.pool[h.ch].once.Fresh?
    ensures Inv(Seize(s, t, h))
  {
    hide LockOk, TableOk, HandlesOk, OnceOk, OriginOk, FanOutOk, OrderOk, SubscriberOk;
    var s' := Seize(s, t, h);
    SeizeCore(s, t, h);
    SeizeFrame(s, t, h);
    SameHistoryKept(s, s');
    SameDoomKept(s, s');
    SubscriberOkFrame(s.pool[h.ch], s'.pool[h.ch]);
  }

  lemma PassCore(s: State, t: nat, h: Handle)
    requires Core(s) && CanEnterOnce(s, t) && h == s.threads[t].h && s.pool[h.ch].once.Spent?
    ensures Core(Goto(s, t, UnDone(h)))
  {
  }

  lemma PassFrame(s: State, t: nat, h: Handle)
    requires (s.cancelled ==> s.hasCtx) && CanEnterOnce(s, t) && h == s.threads[t].h && s.pool[h.ch].once.Spent?
    ensures var s' := Goto(s, t, UnDone(h)); SameHistory(s, s') && SameDoom(s, s')
  {
  }

  lemma PassKept(s: State, t: nat, h: Handle)
    requires Inv(s) && CanEnterOnce(s, t) && h == s.threads[t].h && s.pool[h.ch].once.Spent?
    ensures Inv(Goto(s, t, UnDone(h)))
  {
    hide LockOk, TableOk, HandlesOk, OnceOk, OriginOk, FanOutOk, OrderOk, SubscriberOk;
    var s' := Goto(s, t, UnDone(h));
    PassCore(s, t, h);
    PassFrame(s, t, h);
    SameHistoryKept(s, s');
    SameDoomKept(s, s');
  }

  lemma RetireCore(s: State, t: nat, h: Handle)
    requires Core(s) && CanRemove(s, t) && h == s.threads[t].h && h.ch < |s.pool|
    ensures Core(Retire(s, t, h, h.ch))
  {
    var s' := Retire(s, t, h, h.ch);
    assert LockOk(s') by { hide TableOk, HandlesOk, OnceOk; }
    assert TableOk(s') by { hide LockOk; }
    assert HandlesOk(s') by { hide LockOk, TableOk, OnceOk; }
    assert OnceOk(s') by { hide LockOk; }
  }

  lemma RetireFrame(s: State, t: nat, h: Handle)
    requires (s.cancelled ==> s.hasCtx) && CanRemove(s, t) && h == s.threads[t].h && h.ch < |s.pool|
    ensures var s' := Retire(s, t, h, h.ch); SameDoom(s, s')
  {
  }

  lemma RetireKept(s: State, t: nat, h: Handle)
    requires Inv(s) && CanRemove(s, t) && h == s.threads[t].h && h.ch < |s.pool|
    ensures Inv(Retire(s, t, h, h.ch))
  {
    hide LockOk, TableOk, HandlesOk, OnceOk, OriginOk, FanOutOk, OrderOk, SubscriberOk;
    var s' := Retire(s, t, h, h.ch);
    RetireCore(s, t, h);
    RetireFrame(s, t, h);
    RetireHistory(s, t, h);
    SameDoomKept(s, s');
    SubscriberOkFrame(s.pool[h.ch], s'.pool[h.ch]);
  }

  lemma AwaitDoneCore(s: State, t: nat)
    requires Core(s) && CanAwaitDone(s, t)
    ensures Core(DoAwaitDone(s, t))
  {
    var s' := DoAwaitDone(s, t);
    assert LockOk(s') by { hide TableOk, HandlesOk, OnceOk; }
    assert TableOk(s') by { hide LockOk, HandlesOk, OnceOk; }
    assert HandlesOk(s') by { hide LockOk, OnceOk; }
    assert OnceOk(s') by { hide LockOk; }
  }

  lemma AwaitDoneFrame(s: State, t: nat)
    requires (s.cancelled ==> s.hasCtx) && CanAwaitDone(s, t)
    ensures var s' := DoAwaitDone(s, t); SameHistory(s, s') && SameDoom(s, s')
  {
  }

  lemma AwaitDoneKept(s: State, t: nat)
    requires Inv(s) && CanAwaitDone(s, t)
    ensures Inv(DoAwaitDone(s, t))
  {
    hide LockOk, TableOk, HandlesOk, OnceOk, OriginOk, FanOutOk, OrderOk, SubscriberOk;
    var s' := DoAwaitDone(s, t);
    AwaitDoneCore(s, t);
    AwaitDoneFrame(s, t);
    SameHistoryKept(s, s');
    SameDoomKept(s, s');
    SubscriberOkFrame(s.pool[s.threads[t].h.ch], s'.pool[s.threads[t].h.ch]);
  }

  lemma RetireHistory(s: State, t: nat, h: Handle)
    requires Core(s) && History(s) && CanRemove(s, t) && h == s.threads[t].h && h.ch < |s.pool|
    ensures History(Retire(s, t, h, h.ch))
  {
    var s' := Retire(s, t, h, h.ch);
    assert OriginOk(s') by { hide LockOk, HandlesOk, OnceOk, FanOutOk, OrderOk; }
    assert OrderOk(s') by { hide LockOk, HandlesOk, OnceOk, FanOutOk, OriginOk; }
    assert FanOutOk(s') by { hide OriginOk, OrderOk; }
  }

  // The watcher

  lemma WakeCore(s: State, t: nat)
    requires Core(s) && CanWake(s, t)
    ensures Core(DoWake(s, t))
  {
  }

  lemma WakeFrame(s: State, t: nat)
    requires CanWake(s, t)
    ensures var s' := DoWake(s, t); SameHistory(s, s')
  {
  }

  lemma WakeKept(s: State, t: nat)
    requires Inv(s) && CanWake(s, t)
    ensures Inv(DoWake(s, t))
  {
    hide LockOk, TableOk, HandlesOk, OnceOk, OriginOk, FanOutOk, OrderOk, SubscriberOk;
    var s' := DoWake(s, t);
    WakeCore(s, t);
    WakeFrame(s, t);
    SameHistoryKept(s, s');
    WakeCancel(s, t);
  }

  lemma SwapCore(s: State, t: nat)
    requires Core(s) && CanSwap(s, t)
    ensures Core(DoSwap(s, t))
  {
  }

  lemma SwapFrame(s: State, t: nat)
    requires CanSwap(s, t)
    ensures var s' := DoSwap(s, t); SameHistory(s, s')
  {
  }

  lemma SwapKept(s: State, t: nat)
    requires Inv(s) && CanSwap(s, t)
    ensures Inv(DoSwap(s, t))
  {
    hide LockOk, TableOk, HandlesOk, OnceOk, OriginOk, FanOutOk, OrderOk, SubscriberOk;
    var s' := DoSwap(s, t);
    SwapCore(s, t);
    SwapFrame(s, t);
    SameHistoryKept(s, s');
    SwapCancel(s, t);
  }

  lemma SpawnTable(s: State, t: nat)
    requires LockOk(s) && TableOk(s) && CanSpawn(s, t)
    ensures LockOk(DoSpawn(s, t)) && TableOk(DoSpawn(s, t))
  {
    assert LockOk(DoSpawn(s, t)) by { hide TableOk; }
    assert TableOk(DoSpawn(s, t)) by { hide LockOk; }
  }

  lemma SpawnHandles(s: State, t: nat)
    requires HandlesOk(s) && CanSpawn(s, t)
    ensures HandlesOk(DoSpawn(s, t))
  {
  }

  lemma SpawnOnce(s: State, t: nat)
    requires HandlesOk(s) && OnceOk(s) && CanSpawn(s, t)
    ensures OnceOk(DoSpawn(s, t))
  {
  }

  lemma SpawnCore(s: State, t: nat)
    requires Core(s) && CanSpawn(s, t)
    ensures Core(DoSpawn(s, t))
  {
    hide LockOk, TableOk, HandlesOk, OnceOk, DoSpawn, CanSpawn;
    SpawnTable(s, t);
    SpawnHandles(s, t);
    SpawnOnce(s, t);
  }

  lemma SpawnFrame(s: State, t: nat)
    requires CanSpawn(s, t)
    ensures var s' := DoSpawn(s, t); SameHistory(s, s')
  {
  }

  lemma SpawnKept(s: State, t: nat)
    requires Inv(s) && CanSpawn(s, t)
    ensures Inv(DoSpawn(s, t))
  {
    hide LockOk, TableOk, HandlesOk, OnceOk, OriginOk, FanOutOk, OrderOk, SubscriberOk;
    var s' := DoSpawn(s, t);
    SpawnCore(s, t);
    SpawnFrame(s, t);
    SameHistoryKept(s, s');
    SpawnCancel(s, t);
  }

  lemma JoinCore(s: State, t: nat)
    requires Core(s) && CanJoin(s, t)
    ensures Core(DoJoin(s, t))
  {
  }

  lemma JoinFrame(s: State, t: nat)
    requires CanJoin(s, t)
    ensures var s' := DoJoin(s, t); SameHistory(s, s')
  {
  }

  lemma JoinKept(s: State, t: nat)
    requires Inv(s) && CanJoin(s, t)
    ensures Inv(DoJoin(s, t))
  {
    hide LockOk, TableOk, HandlesOk, OnceOk, OriginOk, FanOutOk, OrderOk, SubscriberOk;
    var s' := DoJoin(s, t);
    JoinCore(s, t);
    JoinFrame(s, t);
    SameHistoryKept(s, s');
    JoinCancel(s, t);
  }

  lemma WakeCancel(s: State, t: nat)
    requires Core(s) && CancelOk(s) && CanWake(s, t)
    ensures CancelOk(DoWake(s, t))
  {
  }

  /** The handles leave the field and enter the walk. */
  lemma SwapCancel(s: State, t: nat)
    requires Core(s) && CancelOk(s) && CanSwap(s, t)
    ensures CancelOk(DoSwap(s, t))
  {
  }

  lemma SpawnCancel(s: State, t: nat)
    requires Core(s) && CancelOk(s) && CanSpawn(s, t)
    ensures CancelOk(DoSpawn(s, t))
  {
    var s' := DoSpawn(s, t);
    forall c | 0 <= c < |s.pool|
      ensures Doomed(s', c)
    {
      assert Doomed(s, c);
      if u :| 0 <= u < |s.threads| && Tends(s.threads[u], c) {
        assert Tends(s'.threads[u], c);
      } else if s.threads[0].list[0] == HandleOf(c) {
        assert Tends(s'.threads[|s.threads|], c);
      }
    }
  }

  lemma JoinCancel(s: State, t: nat)
    requires Core(s) && CancelOk(s) && CanJoin(s, t)
    ensures CancelOk(DoJoin(s, t))
  {
    var s' := DoJoin(s, t);
    forall c | 0 <= c < |s.pool|
      ensures Doomed(s', c)
    {
      assert Doomed(s, c);
      if u :| 0 <= u < |s.threads| && Tends(s.threads[u], c) {
        assert Tends(s'.threads[u], c);
      }
    }
  }

  // The worker pool

  lemma TakeKept(s: State, c: nat, w: nat)
    requires Inv(s) && CanTake(s, c, w)
    ensures Inv(DoTake(s, c, w))
  {
    hide Core, History, CancelOk, SubscriberOk;
    TakeOk(s.pool[c], w);
    WorkerStepKept(s, c, Take(s.pool[c], w));
  }

  lemma FinishKept(s: State, c: nat, w: nat)
    requires Inv(s) && CanFinish(s, c, w)
    ensures Inv(DoFinish(s, c, w))
  {
    hide Core, History, CancelOk, SubscriberOk;
    FinishOk(s.pool[c], w);
    WorkerStepKept(s, c, Finish(s.pool[c], w));
  }

  lemma ExitKept(s: State, c: nat, w: nat)
    requires Inv(s) && CanExit(s, c, w)
    ensures Inv(DoExit(s, c, w))
  {
    hide Core, History, CancelOk;
    ExitOk(s.pool[c], w);
    WorkerStepKept(s, c, s.pool[c].(workers := s.pool[c].workers[w := Exited]));
  }

  lemma CloseDoneKept(s: State, c: nat)
    requires Inv(s) && CanCloseDone(s, c)
    ensures Inv(DoCloseDone(s, c))
  {
    hide Core, History, CancelOk;
    WorkerStepKept(s, c, s.pool[c].(done := true));
  }

  // The two guarded panics of the code never fire

  /** A registered channel is open, so no send hits a closed channel. */
  lemma SendKept(s: State, t: nat, id: nat)
    requires Inv(s) && CanSend(s, t, id)
    ensures CanDeliver(s, t, id) && Inv(DoSend(s, t, id))
  {
    hide PoolOk, History, CancelOk;
    assert !s.pool[s.subs[id]].closed;
    DeliverKept(s, t, id);
  }

  /** Only the thread inside the Once deletes the id, so no channel is closed twice. */
  lemma RemoveKept(s: State, t: nat)
    requires Inv(s) && CanRemove(s, t)
    ensures var h := s.threads[t].h;
            && h.ch < |s.pool| && !s.pool[h.ch].closed
            && h.id in s.subs && s.subs[h.id] == h.ch
            && DoRemove(s, t) == Retire(s, t, h, h.ch)
    ensures Inv(DoRemove(s, t))
  {
    hide PoolOk, History, CancelOk;
    RetireKept(s, t, s.threads[t].h);
  }

  lemma EnterOnceKept(s: State, t: nat)
    requires Inv(s) && CanEnterOnce(s, t)
    ensures Inv(DoEnterOnce(s, t))
  {
    hide Inv;
    var h := s.threads[t].h;
    if s.pool[h.ch].once.Spent? { PassKept(s, t, h); } else { SeizeKept(s, t, h); }
  }

  /** Every step keeps the invariant. */
  lemma StepKept(s: State, l: Label)
    requires Inv(s) && Enabled(s, l)
    ensures Inv(Apply(s, l))
  {
    hide Inv;
    match l {
      case CallPublish(v) => CallKept(s, PubWant(v));
      case CallSubscribe(nilHandler, workers) =>
        CallKept(s, if nilHandler || workers <= 0 then SubPanic else SubWant(workers));
      case CallUnsubscribe(h) => CallKept(s, UnEnter(h));
      case Cancel => CancelKept(s);
      case RLock(t) => RLockKept(s, t);
      case Send(t, id) => SendKept(s, t, id);
      case RUnlock(t) => RUnlockKept(s, t);
      case Announce(t) => AnnounceKept(s, t);
      case Acquire(t) => AcquireKept(s, t);
      case Unlock(t) => UnlockKept(s, t);
      case Register(t) => RegisterKept(s, t);
      case EnterOnce(t) => EnterOnceKept(s, t);
      case Remove(t) => RemoveKept(s, t);
      case AwaitDone(t) => AwaitDoneKept(s, t);
      case Wake(t) => WakeKept(s, t);
      case Swap(t) => SwapKept(s, t);
      case Spawn(t) => SpawnKept(s, t);
      case Join(t) => JoinKept(s, t);
      case TakeOne(c, w) => TakeKept(s, c, w);
      case FinishOne(c, w) => FinishKept(s, c, w);
      case Exit(c, w) => ExitKept(s, c, w);
      case CloseDone(c) => CloseDoneKept(s, c);
    }
  }

  lemma {:induction false} RunKept(s: State, ls: seq<Label>)
    requires Inv(s) && IsRun(s, ls)
    ensures Inv(After(s, ls))
    decreases |ls|
  {
    hide Inv, Enabled, Apply;
    if ls != [] {
      StepKept(s, ls[0]);
      RunKept(Apply(s, ls[0]), ls[1..]);
    }
  }
}
