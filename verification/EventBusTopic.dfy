/** EventBusTopic as an object whose methods change it in place. Each method is one atomic action
    of one goroutine; it refines the step of the same name of the state machine, so every promise
    about reachable states holds of the object whatever the order of the calls. */
module EventBusTopic {
  import opened Basics
  import opened EventBusModel
  import opened EventBusInvariant
  import opened EventBusSafety

  /** A Go channel of fixed capacity as a ring buffer, with the goroutines that read it. */
  class Pool {
    const id: nat
    const ring: array<Option<Message>>
    const workers: array<Worker>
    var start: nat
    var len: nat
    var closed: bool
    var done: bool
    var once: Once
    ghost var accepted: seq<Message>
    ghost var taken: seq<Message>
    ghost var handled: seq<Message>
    ghost const registered: nat
    ghost var removed: Option<nat>

    function Slot(i: nat): nat
      reads this`start
    {
      if start + i < ring.Length then start + i else start + i - ring.Length
    }

    ghost predicate Valid()
      reads this, ring
    {
      && 0 < ring.Length && start < ring.Length && len <= ring.Length
      && (forall i | 0 <= i < len :: ring[Slot(i)].Some?)
    }

    ghost function Buffered(): (ms: seq<Message>)
      requires Valid()
      reads this, ring
      ensures |ms| == len
    {
      seq(len, i requires 0 <= i < len && Valid() reads this, ring => ring[Slot(i)].value)
    }

    ghost function View(): Subscriber
      requires Valid()
      reads this, ring, workers
    {
      Subscriber(id, ring.Length, workers[..], closed, Buffered(), done, once,
                 accepted, taken, handled, registered, removed)
    }

    constructor (id: nat, cap: nat, size: nat, ghost now: nat)
      requires 0 < cap
      ensures Valid() && View() == NewSubscriber(id, cap, size, now)
      ensures fresh(ring) && fresh(workers)
    {
      this.id := id;
      ring := new Option<Message>[cap](_ => None);
      workers := new Worker[size](_ => Idle);
      start, len := 0, 0;
      closed, done, once := false, false, Fresh;
      accepted, taken, handled := [], [], [];
      registered, removed := now, None;
    }

    method Push(m: Message)
      requires Valid() && len < ring.Length
      modifies this`len, this`accepted, ring
      ensures Valid() && View() == Accept(old(View()), m)
    {
      var at := Slot(len);
      assert forall i | 0 <= i < len :: Slot(i) != at;
      ring[at] := Some(m);
      len := len + 1;
      accepted := accepted + [m];
      assert forall i | 0 <= i < len :: ring[Slot(i)] == if i == old(len) then Some(m) else old(ring[Slot(i)]);
      assert Buffered() == old(Buffered()) + [m];
    }

    method Pop(w: nat)
      requires Valid() && 0 < len && w < workers.Length
      modifies this`start, this`len, this`taken, ring, workers
      ensures Valid() && View() == Take(old(View()), w)
    {
      assert start == Slot(0);
      var m := ring[start].value;
      ring[start] := None;
      start, len := Slot(1), len - 1;
      taken := taken + [m];
      workers[w] := Running(m);
      assert forall i | 0 <= i < len :: Slot(i) == old(Slot(i + 1)) && Slot(i) != old(start);
      assert Buffered() == old(Buffered())[1..];
    }

    /** The handler has returned, or has panicked and the deferred recover has caught it. */
    method FinishOne(w: nat)
      requires Valid() && w < workers.Length && workers[w].Running?
      modifies this`handled, workers
      ensures Valid() && View() == Finish(old(View()), w)
    {
      handled := handled + [workers[w].msg];
      workers[w] := Idle;
    }

    method ExitOne(w: nat)
      requires Valid() && w < workers.Length
      modifies workers
      ensures Valid() && View() == old(View()).(workers := old(View()).workers[w := Exited])
    {
      workers[w] := Exited;
    }

    method CloseDone()
      requires Valid()
      modifies this`done
      ensures Valid() && View() == old(View()).(done := true)
    {
      done := true;
    }

    method Close(ghost now: nat)
      requires Valid()
      modifies this`closed, this`removed
      ensures Valid() && View() == old(View()).(closed := true, removed := Some(now))
    {
      closed := true;
      removed := Some(now);
    }

    method SetOnce(o: Once)
      requires Valid()
      modifies this`once
      ensures Valid() && View() == old(View()).(once := o)
    {
      once := o;
    }
  }

  class EventBusTopic {
    const hasCtx: bool
    const buffer: int
    var cancelled: bool
    var lock: Lock
    var readers: set<nat>
    var next: nat
    var subs: map<nat, nat>
    var unsubs: seq<Handle>
    var pool: seq<Pool>
    var threads: seq<Thread>
    var clock: nat

    ghost predicate Shape()
      reads this, pool, set p | p in pool :: p.ring
    {
      && (forall i | 0 <= i < |pool| :: pool[i].Valid())
      && (forall i, j | 0 <= i < j < |pool| ::
            pool[i] != pool[j] && pool[i].ring != pool[j].ring && pool[i].workers != pool[j].workers)
    }

    ghost function Views(): (vs: seq<Subscriber>)
      requires Shape()
      reads this, pool, set p | p in pool :: p.ring, set p | p in pool :: p.workers
      ensures |vs| == |pool|
    {
      seq(|pool|, i requires 0 <= i < |pool| && Shape()
            reads this, pool, set p | p in pool :: p.ring, set p | p in pool :: p.workers => pool[i].View())
    }

    /** The state of the state machine that the object stands for. */
    ghost function Abs(): State
      requires Shape()
      reads this, pool, set p | p in pool :: p.ring, set p | p in pool :: p.workers
    {
      State(hasCtx, cancelled, buffer, lock, readers, next, subs, unsubs, Views(), threads, clock, false)
    }

    ghost predicate Valid()
      reads this, pool, set p | p in pool :: p.ring, set p | p in pool :: p.workers
    {
      Shape() && Inv(Abs())
    }

    constructor (hasCtx: bool, buffer: int)
      ensures Valid() && Abs() == Init(hasCtx, buffer)
    {
      this.hasCtx, this.buffer := hasCtx, buffer;
      cancelled, lock, readers := false, Free, {};
      next, subs, unsubs, pool := 0, map[], [], [];
      threads := if hasCtx then [WatchIdle] else [];
      clock := 0;
      new;
      InitInv(hasCtx, buffer);
      assert Abs() == Init(hasCtx, buffer);
    }

    method CallPublish(v: Value)
      requires Valid()
      modifies this`threads, this`clock
      ensures Valid() && Abs() == DoCallPublish(old(Abs()), v)
    {
      hide Inv;
      CallKept(Abs(), PubWant(v));
      threads := threads + [PubWant(v)];
      clock := clock + 1;
      assert Views() == old(Views());
    }

    method CallSubscribe(nilHandler: bool, workers: int)
      requires Valid()
      modifies this`threads, this`clock
      ensures Valid() && Abs() == DoCallSubscribe(old(Abs()), nilHandler, workers)
    {
      hide Inv;
      CallKept(Abs(), if nilHandler || workers <= 0 then SubPanic else SubWant(workers));
      threads := threads + [if nilHandler || workers <= 0 then SubPanic else SubWant(workers)];
      clock := clock + 1;
      assert Views() == old(Views());
    }

    method CallUnsubscribe(h: Handle)
      requires Valid() && CanCallUnsubscribe(Abs(), h)
      modifies this`threads, this`clock
      ensures Valid() && Abs() == DoCallUnsubscribe(old(Abs()), h)
    {
      hide Inv;
      CallKept(Abs(), UnEnter(h));
      threads := threads + [UnEnter(h)];
      clock := clock + 1;
      assert Views() == old(Views());
    }

    method Cancel()
      requires Valid() && CanCancel(Abs())
      modifies this`cancelled, this`clock
      ensures Valid() && Abs() == DoCancel(old(Abs()))
    {
      hide Inv;
      CancelKept(Abs());
      cancelled := true;
      clock := clock + 1;
      assert Views() == old(Views());
    }

    method Announce(t: nat)
      requires Valid() && CanAnnounce(Abs(), t)
      modifies this`lock, this`clock
      ensures Valid() && Abs() == DoAnnounce(old(Abs()), t)
    {
      hide Inv;
      AnnounceKept(Abs(), t);
      lock := Announced(t);
      clock := clock + 1;
      assert Views() == old(Views());
    }

    method Acquire(t: nat)
      requires Valid() && CanAcquire(Abs(), t)
      modifies this`lock, this`clock
      ensures Valid() && Abs() == DoAcquire(old(Abs()), t)
    {
      hide Inv;
      AcquireKept(Abs(), t);
      lock := Held(t);
      clock := clock + 1;
      assert Views() == old(Views());
    }

    method Unlock(t: nat)
      requires Valid() && CanUnlock(Abs(), t)
      modifies this`lock, this`threads, this`clock
      ensures Valid() && Abs() == DoUnlock(old(Abs()), t)
    {
      hide Inv;
      UnlockKept(Abs(), t);
      lock := Free;
      threads := threads[t := AfterUnlock(threads[t], cancelled)];
      clock := clock + 1;
      assert Views() == old(Views());
    }

    method RLock(t: nat)
      requires Valid() && CanRLock(Abs(), t)
      modifies this`readers, this`threads, this`clock
      ensures Valid() && Abs() == DoRLock(old(Abs()), t)
    {
      hide Inv;
      RLockKept(Abs(), t);
      readers := readers + {t};
      threads := threads[t := PubSend(threads[t].v, clock, {})];
      clock := clock + 1;
      assert Views() == old(Views());
    }

    /** One turn of the loop over t.subs. The channel is not tested for being closed: the invariant
        makes the plain send the whole effect. */
    method Send(t: nat, id: nat)
      requires Valid() && CanSend(Abs(), t, id)
      modifies this`threads, this`clock, pool[subs[id]], pool[subs[id]].ring
      ensures Valid() && Abs() == DoSend(old(Abs()), t, id)
    {
      hide Inv;
      SendKept(Abs(), t, id);
      var c := subs[id];
      pool[c].Push(Message(t, threads[t].v));
      threads := threads[t := PubSend(threads[t].v, threads[t].begin, threads[t].sent + {id})];
      clock := clock + 1;
      assert Views() == old(Views())[c := pool[c].View()];
    }

    method RUnlock(t: nat)
      requires Valid() && CanRUnlock(Abs(), t)
      modifies this`readers, this`threads, this`clock
      ensures Valid() && Abs() == DoRUnlock(old(Abs()), t)
    {
      hide Inv;
      RUnlockKept(Abs(), t);
      readers := readers - {t};
      threads := threads[t := PubDone(threads[t].v, threads[t].begin, clock)];
      clock := clock + 1;
      assert Views() == old(Views());
    }

    /** make(chan V, t.bufferSize()) and runSubscriber. */
    method AddPool(id: nat, size: nat, ghost now: nat)
      requires Shape()
      modifies this`pool
      ensures Shape() && Views() == old(Views()) + [NewSubscriber(id, BufferSize(buffer), size, now)]
    {
      hide BufferSize, NewSubscriber;
      assert 0 < BufferSize(buffer) by { PositiveBuffer(buffer); }
      var ch := new Pool(id, BufferSize(buffer), size, now);
      pool := pool + [ch];
      assert Views() == old(Views()) + [ch.View()];
    }

    static lemma PositiveBuffer(buffer: int)
      ensures 0 < BufferSize(buffer)
    {
    }

    method Register(t: nat)
      requires Valid() && CanRegister(Abs(), t)
      modifies this`next, this`subs, this`pool, this`unsubs, this`threads, this`clock
      ensures Valid() && Abs() == DoRegister(old(Abs()), t)
    {
      hide Inv;
      RegisterKept(Abs(), t);
      next := next + 1;
      var id, c, size := next, |pool|, threads[t].pool;
      subs := subs[id := c];
      unsubs := unsubs + [Handle(id, c)];
      threads := threads[t := SubIn(Handle(id, c))];
      clock := clock + 1;
      assert Views() == old(Views());
      AddPool(id, size, old(clock));
    }

    method EnterOnce(t: nat)
      requires Valid() && CanEnterOnce(Abs(), t)
      modifies this`threads, this`clock, pool[threads[t].h.ch]
      ensures Valid() && Abs() == DoEnterOnce(old(Abs()), t)
    {
      hide Inv;
      EnterOnceKept(Abs(), t);
      var h := threads[t].h;
      assert Abs().pool[h.ch].once == pool[h.ch].once;
      if pool[h.ch].once.Spent? {
        threads := threads[t := UnDone(h)];
        clock := clock + 1;
        assert Views() == old(Views());
        assert Abs() == Goto(old(Abs()), t, UnDone(h));
      } else {
        pool[h.ch].SetOnce(Busy(t));
        threads := threads[t := UnWant(h)];
        clock := clock + 1;
        assert Views() == old(Views())[h.ch := pool[h.ch].View()];
        assert Abs() == Seize(old(Abs()), t, h);
      }
    }

    method Remove(t: nat)
      requires Valid() && CanRemove(Abs(), t)
      modifies this`subs, this`threads, this`clock, pool[threads[t].h.ch]
      ensures Valid() && Abs() == DoRemove(old(Abs()), t)
    {
      hide Inv;
      RemoveKept(Abs(), t);
      var h := threads[t].h;
      if h.id in subs {
        pool[subs[h.id]].Close(clock);
        subs := subs - {h.id};
      }
      threads := threads[t := UnIn(h)];
      clock := clock + 1;
      assert Views() == old(Views())[h.ch := pool[h.ch].View()];
    }

    method AwaitDone(t: nat)
      requires Valid() && CanAwaitDone(Abs(), t)
      modifies this`threads, this`clock, pool[threads[t].h.ch]
      ensures Valid() && Abs() == DoAwaitDone(old(Abs()), t)
    {
      hide Inv;
      AwaitDoneKept(Abs(), t);
      var h := threads[t].h;
      pool[h.ch].SetOnce(Spent);
      threads := threads[t := UnDone(h)];
      clock := clock + 1;
      assert Views() == old(Views())[h.ch := pool[h.ch].View()];
    }

    method Wake(t: nat)
      requires Valid() && CanWake(Abs(), t)
      modifies this`threads, this`clock
      ensures Valid() && Abs() == DoWake(old(Abs()), t)
    {
      hide Inv;
      WakeKept(Abs(), t);
      threads := threads[t := WatchWant];
      clock := clock + 1;
      assert Views() == old(Views());
    }

    method Swap(t: nat)
      requires Valid() && CanSwap(Abs(), t)
      modifies this`unsubs, this`threads, this`clock
      ensures Valid() && Abs() == DoSwap(old(Abs()), t)
    {
      hide Inv;
      SwapKept(Abs(), t);
      threads := threads[t := WatchIn(unsubs)];
      unsubs := [];
      clock := clock + 1;
      assert Views() == old(Views());
    }

    method Spawn(t: nat)
      requires Valid() && CanSpawn(Abs(), t)
      modifies this`threads, this`clock
      ensures Valid() && Abs() == DoSpawn(old(Abs()), t)
    {
      hide Inv;
      SpawnKept(Abs(), t);
      var list, kids := threads[t].list, threads[t].kids;
      threads := threads[t := WatchWalk(list[1..], kids + {|threads|})] + [UnEnter(list[0])];
      clock := clock + 1;
      assert Views() == old(Views());
    }

    method Join(t: nat)
      requires Valid() && CanJoin(Abs(), t)
      modifies this`threads, this`clock
      ensures Valid() && Abs() == DoJoin(old(Abs()), t)
    {
      hide Inv;
      JoinKept(Abs(), t);
      threads := threads[t := WatchDone];
      clock := clock + 1;
      assert Views() == old(Views());
    }

    method TakeOne(c: nat, w: nat)
      requires Valid() && CanTake(Abs(), c, w)
      modifies this`clock, pool[c], pool[c].ring, pool[c].workers
      ensures Valid() && Abs() == DoTake(old(Abs()), c, w)
    {
      hide Inv;
      TakeKept(Abs(), c, w);
      pool[c].Pop(w);
      clock := clock + 1;
      assert Views() == old(Views())[c := pool[c].View()];
    }

    method FinishOne(c: nat, w: nat)
      requires Valid() && CanFinish(Abs(), c, w)
      modifies this`clock, pool[c], pool[c].workers
      ensures Valid() && Abs() == DoFinish(old(Abs()), c, w)
    {
      hide Inv;
      FinishKept(Abs(), c, w);
      pool[c].FinishOne(w);
      clock := clock + 1;
      assert Views() == old(Views())[c := pool[c].View()];
    }

    method Exit(c: nat, w: nat)
      requires Valid() && CanExit(Abs(), c, w)
      modifies this`clock, pool[c].workers
      ensures Valid() && Abs() == DoExit(old(Abs()), c, w)
    {
      hide Inv;
      ExitKept(Abs(), c, w);
      pool[c].ExitOne(w);
      clock := clock + 1;
      assert Views() == old(Views())[c := pool[c].View()];
    }

    method CloseDone(c: nat)
      requires Valid() && CanCloseDone(Abs(), c)
      modifies this`clock, pool[c]
      ensures Valid() && Abs() == DoCloseDone(old(Abs()), c)
    {
      hide Inv;
      CloseDoneKept(Abs(), c);
      pool[c].CloseDone();
      clock := clock + 1;
      assert Views() == old(Views())[c := pool[c].View()];
    }
  }
}
