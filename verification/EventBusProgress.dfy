/** No call of the event bus can hang: while something is unfinished some step of the bus is
    enabled, even with publishers blocked on full channels under the read lock and writers waiting
    for them, and without new calls only finitely many steps remain.
    Handlers are assumed to return or panic and not to call back into the topic. */
module EventBusProgress {
  import opened Basics
  import opened EventBusModel
  import opened EventBusInvariant
  import opened EventBusSafety
  import opened EventBusTheorems

  // Deadlock freedom

  /** Nothing is left to do: every call has returned, every channel is empty, every handler has
      returned, and the pools of removed subscribers are gone. */
  predicate Quiet(s: State) {
    && (forall t | 0 <= t < |s.threads| :: Finished(s.threads[t], s.cancelled))
    && (forall c | 0 <= c < |s.pool| ::
          && s.pool[c].buf == []
          && (forall w | 0 <= w < |s.pool[c].workers| :: !s.pool[c].workers[w].Running?)
          && (s.pool[c].closed ==> s.pool[c].done))
  }

  ghost predicate CanStep(s: State) {
    exists l :: Internal(l) && Enabled(s, l)
  }

  predicate Rested(sub: Subscriber) {
    && sub.buf == []
    && (forall w | 0 <= w < |sub.workers| :: !sub.workers[w].Running?)
    && (sub.closed ==> sub.done)
  }

  /** A pool with work left can do some of it. */
  lemma PoolSteps(s: State, c: nat)
    requires PoolOk(s) && c < |s.pool| && !Rested(s.pool[c])
    ensures CanStep(s)
  {
    hide Conserved;
    var sub := s.pool[c];
    if w: nat :| w < |sub.workers| && sub.workers[w].Running? {
      assert Enabled(s, FinishOne(c, w));
    } else if sub.buf != [] {
      assert Enabled(s, TakeOne(c, 0));
    } else if w: nat :| w < |sub.workers| && sub.workers[w].Idle? {
      assert Enabled(s, Exit(c, w));
    } else {
      assert Enabled(s, CloseDone(c));
    }
  }

  /** With the pools at rest, whoever holds or wants the lock gets on. */
  lemma LockSteps(s: State, t: nat)
    requires Core(s) && t < |s.threads|
    requires forall c | 0 <= c < |s.pool| :: s.pool[c].buf == [] && 1 <= s.pool[c].cap
    requires s.threads[t].PubWant? || s.threads[t].PubSend? || WantsWrite(s.threads[t]) || Inside(s.threads[t])
    ensures CanStep(s)
  {
    if s.readers != {} {
      var r :| r in s.readers;
      if s.subs.Keys <= s.threads[r].sent {
        assert Enabled(s, RUnlock(r));
      } else {
        var id :| id in s.subs && id !in s.threads[r].sent;
        assert Enabled(s, Send(r, id));
      }
    } else {
      match s.lock {
        case Announced(o) => assert Enabled(s, Acquire(o));
        case Held(o) =>
          if s.threads[o].SubWant? {
            assert Enabled(s, Register(o));
          } else if s.threads[o].UnWant? {
            assert Enabled(s, Remove(o));
          } else if s.threads[o].WatchWant? {
            assert Enabled(s, Swap(o));
          } else {
            assert Enabled(s, Unlock(o));
          }
        case Free =>
          if s.threads[t].PubWant? {
            assert Enabled(s, RLock(t));
          } else {
            assert Enabled(s, Announce(t));
          }
      }
    }
  }

  /** ... and so does everybody who waits for somebody else. */
  lemma WaitSteps(s: State, t: nat)
    requires Core(s) && CancelOk(s) && t < |s.threads| && !Finished(s.threads[t], s.cancelled)
    requires forall c | 0 <= c < |s.pool| :: Rested(s.pool[c]) && 1 <= s.pool[c].cap
    requires forall u | 0 <= u < |s.threads| ::
               !s.threads[u].PubWant? && !s.threads[u].PubSend? && !WantsWrite(s.threads[u]) && !Inside(s.threads[u])
    ensures CanStep(s)
  {
    hide LockOk, TableOk;
    match s.threads[t]
    case WatchIdle => assert Enabled(s, Wake(t));
    case UnWait(h) => assert Enabled(s, AwaitDone(t));
    case UnEnter(h) =>
      if s.pool[h.ch].once.Busy? {
        assert Enabled(s, AwaitDone(s.pool[h.ch].once.owner));
      } else {
        assert Enabled(s, EnterOnce(t));
      }
    case WatchWalk(list, kids) =>
      if list != [] {
        assert Enabled(s, Spawn(t));
      } else if k :| k in kids && !s.threads[k].UnDone? {
        if s.threads[k].UnWait? {
          assert Enabled(s, AwaitDone(k));
        } else if s.pool[s.threads[k].h.ch].once.Busy? {
          assert Enabled(s, AwaitDone(s.pool[s.threads[k].h.ch].once.owner));
        } else {
          assert Enabled(s, EnterOnce(k));
        }
      } else {
        assert Enabled(s, Join(t));
      }
  }

  lemma InvSteps(s: State)
    requires Inv(s) && !Quiet(s)
    ensures CanStep(s)
  {
    hide History;
    if c: nat :| c < |s.pool| && !Rested(s.pool[c]) {
      PoolSteps(s, c);
    } else {
      assert forall c | 0 <= c < |s.pool| :: SubscriberOk(s.pool[c]) && Rested(s.pool[c]);
      hide LockOk, TableOk, HandlesOk, OnceOk, PoolOk, CancelOk;
      if t: nat :| t < |s.threads|
                   && (s.threads[t].PubWant? || s.threads[t].PubSend?
                       || WantsWrite(s.threads[t]) || Inside(s.threads[t])) {
        LockSteps(s, t);
      } else {
        var t: nat :| t < |s.threads| && !Finished(s.threads[t], s.cancelled);
        WaitSteps(s, t);
      }
    }
  }

  /** The bus is stuck exactly when there is nothing left to do. */
  lemma StuckIffQuiet(s: State)
    requires Reachable(s)
    ensures CanStep(s) <==> !Quiet(s)
  {
    ReachableInv(s);
    if Quiet(s) {
      QuietIsStuck(s);
    } else {
      InvSteps(s);
    }
  }

  lemma QuietIsStuck(s: State)
    requires Inv(s) && Quiet(s)
    ensures !CanStep(s)
  {
    hide TableOk, HandlesOk, OnceOk, History, CancelOk;
  }

  // Termination

  lemma {:induction false} SumIdle(workers: nat)
    ensures Sum(WorkerWeights(seq(workers, i => Idle))) == workers
  {
    if workers != 0 {
      SumIdle(workers - 1);
      assert WorkerWeights(seq(workers, i => Idle))[1..] == WorkerWeights(seq(workers - 1, i => Idle));
    }
  }

  /** A buffered message still has to be taken and handled, a running one handled. */
  function WorkerWeight(w: Worker): nat {
    match w case Idle => 1 case Running(_) => 2 case Exited => 0
  }

  function WorkerWeights(ws: seq<Worker>): seq<nat> { seq(|ws|, i requires 0 <= i < |ws| => WorkerWeight(ws[i])) }

  function PoolWeight(sub: Subscriber): nat {
    2 * |sub.buf| + Sum(WorkerWeights(sub.workers)) + if sub.done then 0 else 1
  }

  function PoolWeights(subs: seq<Subscriber>): seq<nat> {
    seq(|subs|, i requires 0 <= i < |subs| => PoolWeight(subs[i]))
  }

  /** A bound on the steps a thread causes, when there will never be more than `n` subscribers.
      Each send costs its publisher 3 and leaves 2 in the buffer. A handle that the watcher has
      yet to call costs 7: the spawn and the six of the call. */
  function ThreadWeight(th: Thread, n: nat): nat {
    match th
    case PubWant(_) => 3 * n + 3
    case PubSend(_, _, sent) => (if |sent| <= n then 3 * (n - |sent|) else 0) + 2
    case SubWant(workers) => workers + 18
    case SubIn(_) => 9
    case UnEnter(_) => 6
    case UnWant(_) => 5
    case UnIn(_) => 4
    case UnWait(_) => 1
    case WatchIdle => 6
    case WatchWant => 5
    case WatchIn(list) => 7 * |list| + 4
    case WatchWalk(list, _) => 7 * |list| + 1
    case _ => 0
  }

  function ThreadWeights(ts: seq<Thread>, n: nat): seq<nat> {
    seq(|ts|, i requires 0 <= i < |ts| => ThreadWeight(ts[i], n))
  }

  function LockWeight(l: Lock): nat {
    match l case Free => 2 case Announced(_) => 1 case Held(_) => 0
  }

  function Registering(th: Thread): nat { if th.SubWant? then 1 else 0 }

  function Registerings(ts: seq<Thread>): seq<nat> { seq(|ts|, i requires 0 <= i < |ts| => Registering(ts[i])) }

  /** The subscribers there are and the ones still to register. Steps of the bus keep this number. */
  function Subscribers(s: State): nat { |s.pool| + Sum(Registerings(s.threads)) }

  function Measure(s: State): nat {
    LockWeight(s.lock) + 7 * |s.unsubs|
    + Sum(ThreadWeights(s.threads, Subscribers(s)))
    + Sum(PoolWeights(s.pool))
  }

  lemma ThreadMoves(ts: seq<Thread>, t: nat, th: Thread, n: nat)
    requires t < |ts|
    ensures Sum(ThreadWeights(ts[t := th], n)) ==
              Sum(ThreadWeights(ts, n)) - ThreadWeight(ts[t], n) + ThreadWeight(th, n)
    ensures Sum(Registerings(ts[t := th])) == Sum(Registerings(ts)) - Registering(ts[t]) + Registering(th)
  {
    SumUpdate(ThreadWeights(ts, n), t, ThreadWeight(th, n));
    SumUpdate(Registerings(ts), t, Registering(th));
    assert ThreadWeights(ts[t := th], n) == ThreadWeights(ts, n)[t := ThreadWeight(th, n)];
    assert Registerings(ts[t := th]) == Registerings(ts)[t := Registering(th)];
  }

  lemma ThreadAdded(ts: seq<Thread>, th: Thread, n: nat)
    ensures Sum(ThreadWeights(ts + [th], n)) == Sum(ThreadWeights(ts, n)) + ThreadWeight(th, n)
    ensures Sum(Registerings(ts + [th])) == Sum(Registerings(ts)) + Registering(th)
  {
    SumAppend(ThreadWeights(ts, n), ThreadWeight(th, n));
    SumAppend(Registerings(ts), Registering(th));
    assert ThreadWeights(ts + [th], n) == ThreadWeights(ts, n) + [ThreadWeight(th, n)];
    assert Registerings(ts + [th]) == Registerings(ts) + [Registering(th)];
  }

  lemma PoolMoves(subs: seq<Subscriber>, c: nat, sub: Subscriber)
    requires c < |subs|
    ensures Sum(PoolWeights(subs[c := sub])) == Sum(PoolWeights(subs)) - PoolWeight(subs[c]) + PoolWeight(sub)
  {
    SumUpdate(PoolWeights(subs), c, PoolWeight(sub));
    assert PoolWeights(subs[c := sub]) == PoolWeights(subs)[c := PoolWeight(sub)];
  }

  lemma PoolAdded(subs: seq<Subscriber>, sub: Subscriber)
    ensures Sum(PoolWeights(subs + [sub])) == Sum(PoolWeights(subs)) + PoolWeight(sub)
  {
    SumAppend(PoolWeights(subs), PoolWeight(sub));
    assert PoolWeights(subs + [sub]) == PoolWeights(subs) + [PoolWeight(sub)];
  }

  lemma WorkerMoves(ws: seq<Worker>, w: nat, x: Worker)
    requires w < |ws|
    ensures Sum(WorkerWeights(ws[w := x])) == Sum(WorkerWeights(ws)) - WorkerWeight(ws[w]) + WorkerWeight(x)
  {
    SumUpdate(WorkerWeights(ws), w, WorkerWeight(x));
    assert WorkerWeights(ws[w := x]) == WorkerWeights(ws)[w := WorkerWeight(x)];
  }

  lemma {:induction false} SubsetSize(a: set<nat>, n: nat)
    requires forall id | id in a :: 1 <= id <= n
    ensures |a| <= n
  {
    if n == 0 {
      assert a == {};
    } else {
      SubsetSize(a - {n}, n - 1);
    }
  }

  ghost predicate Drops(s: State, s': State) {
    Subscribers(s') == Subscribers(s) && Measure(s') < Measure(s)
  }

  /** A publish always has a subscriber left to pay for its next send. */
  lemma SendPays(s: State, t: nat, id: nat)
    requires Inv(s) && CanSend(s, t, id)
    ensures CanDeliver(s, t, id) && |s.threads[t].sent| < |s.pool|
  {
    hide PoolOk, OnceOk, HandlesOk, OriginOk, OrderOk, CancelOk;
    var sent := s.threads[t].sent + {id};
    assert sent <= s.subs.Keys;
    SubsetSize(sent, |s.pool|);
  }

  lemma SendDrops(s: State, t: nat, id: nat)
    requires CanDeliver(s, t, id) && |s.threads[t].sent| < |s.pool|
    ensures Drops(s, DoSend(s, t, id))
  {
    var c, n, s' := s.subs[id], Subscribers(s), DoSend(s, t, id);
    ThreadMoves(s.threads, t, s'.threads[t], n);
    PoolMoves(s.pool, c, s'.pool[c]);
  }

  lemma RegisterDrops(s: State, t: nat)
    requires CanRegister(s, t)
    ensures Drops(s, DoRegister(s, t))
  {
    var n, s' := Subscribers(s), DoRegister(s, t);
    var sub := s'.pool[|s.pool|];
    ThreadMoves(s.threads, t, s'.threads[t], n);
    PoolAdded(s.pool, sub);
    SumIdle(s.threads[t].pool);
  }

  lemma SeizeDrops(s: State, t: nat, h: Handle)
    requires t < |s.threads| && s.threads[t].UnEnter? && h.ch < |s.pool|
    ensures Drops(s, Seize(s, t, h))
  {
    var n, s' := Subscribers(s), Seize(s, t, h);
    ThreadMoves(s.threads, t, s'.threads[t], n);
    PoolMoves(s.pool, h.ch, s'.pool[h.ch]);
  }

  lemma EnterOnceDrops(s: State, t: nat)
    requires CanEnterOnce(s, t)
    ensures Drops(s, DoEnterOnce(s, t))
  {
    if s.pool[s.threads[t].h.ch].once.Spent? {
      MoveDrops(s, DoEnterOnce(s, t), t);
    } else {
      SeizeDrops(s, t, s.threads[t].h);
    }
  }

  lemma RetireDrops(s: State, t: nat, h: Handle)
    requires t < |s.threads| && s.threads[t].UnWant? && h.ch < |s.pool|
    ensures Drops(s, Retire(s, t, h, h.ch))
  {
    var n, s' := Subscribers(s), Retire(s, t, h, h.ch);
    ThreadMoves(s.threads, t, s'.threads[t], n);
    PoolMoves(s.pool, h.ch, s'.pool[h.ch]);
  }

  lemma AwaitDoneDrops(s: State, t: nat)
    requires CanAwaitDone(s, t)
    ensures Drops(s, DoAwaitDone(s, t))
  {
    var n, s', c := Subscribers(s), DoAwaitDone(s, t), s.threads[t].h.ch;
    ThreadMoves(s.threads, t, s'.threads[t], n);
    PoolMoves(s.pool, c, s'.pool[c]);
  }

  lemma SpawnDrops(s: State, t: nat)
    requires CanSpawn(s, t)
    ensures Drops(s, DoSpawn(s, t))
  {
    var n, s' := Subscribers(s), DoSpawn(s, t);
    ThreadMoves(s.threads, t, s'.threads[t], n);
    ThreadAdded(s.threads[t := s'.threads[t]], s'.threads[|s.threads|], n);
  }

  /** A step of one worker. */
  lemma WorkerDrops(s: State, s': State, c: nat, w: nat)
    requires IsWorker(s, c, w) && |s'.pool| == |s.pool| && |s'.pool[c].workers| == |s.pool[c].workers|
    requires s' == s.(pool := s.pool[c := s'.pool[c]], clock := s'.clock)
    requires s'.pool[c].workers == s.pool[c].workers[w := s'.pool[c].workers[w]] && s'.pool[c].done == s.pool[c].done
    requires 2 * |s'.pool[c].buf| + WorkerWeight(s'.pool[c].workers[w])
             < 2 * |s.pool[c].buf| + WorkerWeight(s.pool[c].workers[w])
    ensures Drops(s, s')
  {
    PoolMoves(s.pool, c, s'.pool[c]);
    WorkerMoves(s.pool[c].workers, w, s'.pool[c].workers[w]);
  }

  lemma CloseDoneDrops(s: State, c: nat)
    requires CanCloseDone(s, c)
    ensures Drops(s, DoCloseDone(s, c))
  {
    PoolMoves(s.pool, c, DoCloseDone(s, c).pool[c]);
  }

  lemma LockDrops(s: State, s': State)
    requires s' == s.(lock := s'.lock, clock := s'.clock) && LockWeight(s'.lock) < LockWeight(s.lock)
    ensures Drops(s, s')
  {
  }

  /** A step that moves one thread and touches no pool. */
  lemma MoveDrops(s: State, s': State, t: nat)
    requires t < |s.threads| == |s'.threads| && s'.threads == s.threads[t := s'.threads[t]] && s'.pool == s.pool
    requires !s.threads[t].SubWant? && !s'.threads[t].SubWant?
    requires var n := Subscribers(s);
             LockWeight(s'.lock) + 7 * |s'.unsubs| + ThreadWeight(s'.threads[t], n)
             < LockWeight(s.lock) + 7 * |s.unsubs| + ThreadWeight(s.threads[t], n)
    ensures Drops(s, s')
  {
    ThreadMoves(s.threads, t, s'.threads[t], Subscribers(s));
  }

  lemma PoolStepDrops(s: State, l: Label)
    requires PoolStep(l) && Enabled(s, l)
    ensures Drops(s, Apply(s, l))
  {
    hide Drops;
    match l {
      case TakeOne(c, w) => WorkerDrops(s, DoTake(s, c, w), c, w);
      case FinishOne(c, w) => WorkerDrops(s, DoFinish(s, c, w), c, w);
      case Exit(c, w) => WorkerDrops(s, DoExit(s, c, w), c, w);
      case CloseDone(c) => CloseDoneDrops(s, c);
    }
  }

  predicate MoveStep(l: Label) {
    l.RLock? || l.RUnlock? || l.Unlock? || l.Wake? || l.Swap? || l.Join?
  }

  lemma MoveStepDrops(s: State, l: Label)
    requires MoveStep(l) && Enabled(s, l)
    ensures Drops(s, Apply(s, l))
  {
    hide Drops, Subscribers, Measure;
    match l {
      case RLock(t) => MoveDrops(s, DoRLock(s, t), t);
      case RUnlock(t) => MoveDrops(s, DoRUnlock(s, t), t);
      case Unlock(t) => MoveDrops(s, DoUnlock(s, t), t);
      case Wake(t) => MoveDrops(s, DoWake(s, t), t);
      case Swap(t) => MoveDrops(s, DoSwap(s, t), t);
      case Join(t) => MoveDrops(s, DoJoin(s, t), t);
    }
  }

  /** Every step of the bus lowers the measure. */
  lemma StepDrops(s: State, l: Label)
    requires Inv(s) && Internal(l) && Enabled(s, l)
    ensures Drops(s, Apply(s, l))
  {
    hide Inv, Drops;
    if MoveStep(l) {
      MoveStepDrops(s, l);
    } else if PoolStep(l) {
      PoolStepDrops(s, l);
    } else {
      match l {
        case Announce(t) => LockDrops(s, DoAnnounce(s, t));
        case Acquire(t) => LockDrops(s, DoAcquire(s, t));
        case Send(t, id) => SendPays(s, t, id); SendDrops(s, t, id);
        case Register(t) => RegisterDrops(s, t);
        case EnterOnce(t) => EnterOnceDrops(s, t);
        case Remove(t) => RemoveKept(s, t); RetireDrops(s, t, s.threads[t].h);
        case AwaitDone(t) => AwaitDoneDrops(s, t);
        case Spawn(t) => SpawnDrops(s, t);
      }
    }
  }

  predicate AllInternal(ls: seq<Label>) {
    forall i | 0 <= i < |ls| :: Internal(ls[i])
  }

  lemma {:induction false} RunDrops(s: State, ls: seq<Label>)
    requires Inv(s) && IsRun(s, ls) && AllInternal(ls)
    ensures |ls| + Measure(After(s, ls)) <= Measure(s)
    decreases |ls|
  {
    hide Inv, Enabled, Apply, Measure;
    if ls != [] {
      StepDrops(s, ls[0]) by { assert Internal(ls[0]); }
      StepKept(s, ls[0]);
      assert Measure(Apply(s, ls[0])) < Measure(s);
      RunDrops(Apply(s, ls[0]), ls[1..]);
    }
  }

  /** Without new calls the bus makes at most Measure(s) more steps, however it is scheduled, and
      when it can make no more, every call has returned and every accepted value is handled. */
  lemma {:induction false} EveryCallReturns(s: State, ls: seq<Label>)
    requires Reachable(s) && IsRun(s, ls) && AllInternal(ls)
    ensures |ls| <= Measure(s)
    ensures !CanStep(After(s, ls)) ==> Quiet(After(s, ls))
  {
    hide Inv, Enabled, Apply, Measure;
    ReachableInv(s);
    RunDrops(s, ls);
    ReachableOn(s, ls);
    StuckIffQuiet(After(s, ls));
  }

  /** A cancelled bus that has come to rest has no subscriber left, and each one it ever had is drained. */
  lemma CancelledAtRest(s: State)
    requires Reachable(s) && s.cancelled && !CanStep(s)
    ensures s.subs == map[]
    ensures forall c | 0 <= c < |s.pool| :: s.pool[c].done && Drained(s.pool[c])
  {
    ReachableInv(s);
    StuckIffQuiet(s);
    assert s.threads != [] && s.threads[0].WatchDone? by { hide Core, PoolOk, History; }
    hide Inv;
    CancelCompletes(s);
  }
}
