/** unsubscribeAll waits: when the watcher has finished, every handle that it found in the list has been
    run to its end. */
module EventBusWatcher {
  import opened Basics
  import opened EventBusModel
  import opened EventBusInvariant
  import opened EventBusSafety
  import opened EventBusTheorems

  /** One of the calls that the watcher waits for is a call of `h`. */
  ghost predicate Awaited(s: State, kids: set<nat>, h: Handle) {
    exists k :: k in kids && k < |s.threads| && Unsubscribing(s.threads[k]) && s.threads[k].h == h
  }

  /** The handle of channel `c` is in the list, or the watcher has it, or it has been run to its end. */
  ghost predicate Settled(s: State, c: nat)
    requires c < |s.pool|
  {
    || HandleOf(c) in s.unsubs
    || s.pool[c].once.Spent?
    || (s.threads != [] && Lists(s.threads[0], HandleOf(c)))
    || (s.threads != [] && s.threads[0].WatchWalk? && Awaited(s, s.threads[0].kids, HandleOf(c)))
  }

  ghost predicate AllSettled(s: State) { forall c | 0 <= c < |s.pool| :: Settled(s, c) }

  predicate WatcherStep(l: Label) { l.Unlock? || l.Swap? || l.Spawn? || l.Join? }

  lemma AwaitedOn(s: State, s': State, kids: set<nat>, h: Handle)
    requires Awaited(s, kids, h) && |s.threads| <= |s'.threads|
    requires forall t | 0 <= t < |s.threads| && Unsubscribing(s.threads[t]) ::
               Unsubscribing(s'.threads[t]) && s'.threads[t].h == s.threads[t].h
    ensures Awaited(s', kids, h)
  {
    var k :| k in kids && k < |s.threads| && Unsubscribing(s.threads[k]) && s.threads[k].h == h;
    assert Unsubscribing(s'.threads[k]) && s'.threads[k].h == h;
  }

  /** A step leaves the lists and what the watcher has, and no call of a handle goes back. */
  ghost predicate KeepsLists(s: State, s': State) {
    && |s.threads| <= |s'.threads| && |s'.pool| == |s.pool|
    && (forall h :: h in s.unsubs ==> h in s'.unsubs)
    && (s.threads != [] && (s.threads[0].WatchIn? || s.threads[0].WatchWalk?) ==> s'.threads[0] == s.threads[0])
    && (forall t | 0 <= t < |s.threads| && Unsubscribing(s.threads[t]) ::
          Unsubscribing(s'.threads[t]) && s'.threads[t].h == s.threads[t].h)
    && (forall c | 0 <= c < |s.pool| && s.pool[c].once.Spent? :: s'.pool[c].once.Spent?)
  }

  lemma KeepsSettled(s: State, s': State)
    requires AllSettled(s) && KeepsLists(s, s')
    ensures AllSettled(s')
  {
    forall c | 0 <= c < |s'.pool|
      ensures Settled(s', c)
    {
      assert Settled(s, c);
      if s.threads != [] && s.threads[0].WatchWalk? && Awaited(s, s.threads[0].kids, HandleOf(c)) {
        AwaitedOn(s, s', s.threads[0].kids, HandleOf(c));
      }
    }
  }

  lemma TableStepKeeps(s: State, l: Label)
    requires Inv(s) && Enabled(s, l) && TableStep(l) && !l.Register?
    ensures KeepsLists(s, Apply(s, l))
  {
    hide PoolOk, History, LockOk, TableOk, HandlesOk, Doomed;
  }

  lemma OtherStepKeeps(s: State, l: Label)
    requires Enabled(s, l) && !TableStep(l) && !WatcherStep(l)
    ensures KeepsLists(s, Apply(s, l))
  {
  }

  lemma RegisterSettles(s: State, t: nat)
    requires Inv(s) && CanRegister(s, t) && AllSettled(s)
    ensures AllSettled(DoRegister(s, t))
  {
    assert s.next == |s.pool| by { hide PoolOk, History, CancelOk, LockOk, HandlesOk, OnceOk; }
    hide Inv;
    var s' := DoRegister(s, t);
    forall c | 0 <= c < |s'.pool|
      ensures Settled(s', c)
    {
      if c < |s.pool| {
        assert Settled(s, c);
        if s.threads != [] && s.threads[0].WatchWalk? && Awaited(s, s.threads[0].kids, HandleOf(c)) {
          AwaitedOn(s, s', s.threads[0].kids, HandleOf(c));
        }
      } else {
        assert s'.unsubs[|s.unsubs|] == HandleOf(c);
      }
    }
  }

  lemma UnlockSettles(s: State, t: nat)
    requires Inv(s) && CanUnlock(s, t) && AllSettled(s)
    ensures AllSettled(DoUnlock(s, t))
  {
    hide PoolOk, History, LockOk, TableOk, HandlesOk, OnceOk, Doomed;
    var s' := DoUnlock(s, t);
    if s.threads[t].WatchIn? {
      forall c | 0 <= c < |s.pool|
        ensures Settled(s', c)
      {
        assert Settled(s, c);
      }
    } else {
      KeepsSettled(s, s');
    }
  }

  lemma SwapSettles(s: State, t: nat)
    requires Inv(s) && CanSwap(s, t) && AllSettled(s)
    ensures AllSettled(DoSwap(s, t))
  {
    hide PoolOk, History, LockOk, TableOk, HandlesOk, OnceOk, Doomed;
    var s' := DoSwap(s, t);
    forall c | 0 <= c < |s.pool|
      ensures Settled(s', c)
    {
      assert Settled(s, c);
    }
  }

  lemma SpawnSettles(s: State, t: nat)
    requires Inv(s) && CanSpawn(s, t) && AllSettled(s)
    ensures AllSettled(DoSpawn(s, t))
  {
    assert t == 0 by { hide PoolOk, History, Core; }
    hide Inv;
    var s', list, kids := DoSpawn(s, 0), s.threads[0].list, s.threads[0].kids;
    forall c | 0 <= c < |s.pool|
      ensures Settled(s', c)
    {
      assert Settled(s, c);
      if Awaited(s, kids, HandleOf(c)) {
        AwaitedOn(s, s', kids, HandleOf(c));
      } else if HandleOf(c) in list {
        assert list == [list[0]] + list[1..];
        assert HandleOf(c) == list[0] ==> s'.threads[|s.threads|] == UnEnter(HandleOf(c));
      }
    }
  }

  lemma JoinSettles(s: State, t: nat)
    requires Inv(s) && CanJoin(s, t) && AllSettled(s)
    ensures AllSettled(DoJoin(s, t))
  {
    hide PoolOk, History, LockOk, TableOk, HandlesOk, Doomed;
    var s' := DoJoin(s, t);
    forall c | 0 <= c < |s.pool|
      ensures Settled(s', c)
    {
      assert Settled(s, c);
    }
  }

  lemma StepSettles(s: State, l: Label)
    requires Inv(s) && Enabled(s, l) && AllSettled(s)
    ensures AllSettled(Apply(s, l))
  {
    hide Inv, AllSettled, KeepsLists;
    match l {
      case Register(t) => RegisterSettles(s, t);
      case Unlock(t) => UnlockSettles(s, t);
      case Swap(t) => SwapSettles(s, t);
      case Spawn(t) => SpawnSettles(s, t);
      case Join(t) => JoinSettles(s, t);
      case _ =>
        hide Enabled, Apply;
        if TableStep(l) { TableStepKeeps(s, l); } else { OtherStepKeeps(s, l); }
        KeepsSettled(s, Apply(s, l));
    }
  }

  lemma {:induction false} RunSettles(s: State, ls: seq<Label>)
    requires Inv(s) && IsRun(s, ls) && AllSettled(s)
    ensures AllSettled(After(s, ls))
    decreases |ls|
  {
    hide Inv, AllSettled, Enabled, Apply;
    if ls != [] {
      StepSettles(s, ls[0]);
      StepKept(s, ls[0]);
      RunSettles(Apply(s, ls[0]), ls[1..]);
    }
  }

  /** When the watcher is done, every subscriber is drained whose Subscribe came before the watcher
      looked at the list; the handles of the others are in the list that was begun anew. */
  lemma WatcherWaits(s: State, c: nat)
    requires Reachable(s) && s.threads != [] && s.threads[0].WatchDone? && c < |s.pool|
    ensures Handle(s.pool[c].id, c) in s.unsubs || (s.pool[c].done && Drained(s.pool[c]))
  {
    var hasCtx: bool, buffer: int, ls: seq<Label> :| Reaches(hasCtx, buffer, ls, s);
    ReachableInv(s);
    InitInv(hasCtx, buffer);
    RunSettles(Init(hasCtx, buffer), ls) by { hide Inv; }
    assert Settled(s, c);
    assert s.pool[c].id == c + 1 && (s.pool[c].once.Spent? ==> s.pool[c].done) by {
      hide PoolOk, History, CancelOk, LockOk, HandlesOk;
    }
    if s.pool[c].done { DoneIsDrained(s.pool[c]) by { hide Core, History, CancelOk; } }
  }
}
