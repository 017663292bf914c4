/** What no operation waits for: with the lock free each operation gets through, or to its one wait, by
    its own steps only, wherever the handlers and all other calls may be. */
module EventBusAlone {
  import opened Basics
  import opened EventBusModel
  import opened EventBusInvariant
  import opened EventBusSafety
  import opened EventBusTheorems

  // The worker pool

  function IdleWorkers(ws: seq<Worker>): nat {
    if ws == [] then 0 else (if ws[0].Idle? then 1 else 0) + IdleWorkers(ws[1..])
  }

  lemma {:induction false} SomeIdle(ws: seq<Worker>, m: Message) returns (w: nat)
    requires IdleWorkers(ws) > 0
    ensures w < |ws| && ws[w].Idle? && IdleWorkers(ws[w := Running(m)]) == IdleWorkers(ws) - 1
  {
    if ws[0].Idle? {
      w := 0;
      assert ws[0 := Running(m)][1..] == ws[1..];
    } else {
      var v := SomeIdle(ws[1..], m);
      w := v + 1;
      assert ws[w := Running(m)][1..] == ws[1..][v := Running(m)];
    }
  }

  /** Some idle worker takes the next value. */
  lemma OneTakes(s: State, c: nat) returns (ls: seq<Label>, s': State)
    requires c < |s.pool| && s.pool[c].buf != [] && IdleWorkers(s.pool[c].workers) > 0
    ensures Leads(s, ls, s') && s'.lock == s.lock && s'.subs == s.subs
    ensures |s'.pool| == |s.pool| && s'.pool == s.pool[c := s'.pool[c]]
    ensures var a, b := s.pool[c], s'.pool[c];
            && IdleWorkers(b.workers) == IdleWorkers(a.workers) - 1 && |b.workers| == |a.workers|
            && |InFlight(b.workers)| == |InFlight(a.workers)| + 1
            && b == a.(workers := b.workers, taken := a.taken + a.buf[..1], buf := a.buf[1..])
  {
    var a := s.pool[c];
    var w := SomeIdle(a.workers, a.buf[0]);
    InFlightStarts(a.workers, w, a.buf[0]);
    s' := DoTake(s, c, w);
    assert s'.pool[c] == Take(a, w);
    assert Leads(s, [], s);
    LeadsOn(s, [], s, TakeOne(c, w));
    ls := [] + [TakeOne(c, w)];
    hide Leads, InFlight, IdleWorkers;
  }

  /** As many workers as there are idle ones and waiting values can get busy at once, while no handler
      returns: all workers of a pool work. */
  lemma {:induction false} WorkersTake(s: State, c: nat, n: nat) returns (ls: seq<Label>, s': State)
    requires c < |s.pool| && n <= IdleWorkers(s.pool[c].workers) && n <= |s.pool[c].buf|
    ensures Leads(s, ls, s') && |s'.pool| == |s.pool|
    ensures var a, b := s.pool[c], s'.pool[c];
            && |InFlight(b.workers)| == |InFlight(a.workers)| + n
            && b.taken == a.taken + a.buf[..n] && b.buf == a.buf[n..] && b.handled == a.handled
    decreases n
  {
    var a := s.pool[c];
    if n == 0 {
      ls, s' := [], s;
      assert a.taken + a.buf[..0] == a.taken;
    } else {
      hide InFlight, IdleWorkers, Leads;
      var first, s1 := OneTakes(s, c);
      var rest;
      rest, s' := WorkersTake(s1, c, n - 1);
      LeadsFurther(s, first, s1, rest, s');
      ls := first + rest;
      assert (a.taken + a.buf[..1]) + a.buf[1..][..n - 1] == a.taken + a.buf[..n];
    }
  }

  // Subscribe

  /** A subscriber that nobody has published to yet. */
  predicate Blank(sub: Subscriber, id: nat, workers: nat) {
    && sub.id == id && |sub.workers| == workers && (forall w | 0 <= w < workers :: sub.workers[w].Idle?)
    && sub.buf == [] && !sub.closed && !sub.done && sub.once.Fresh?
  }

  /** With nobody else at the lock a writer gets it. */
  lemma LockTaken(s: State, t: nat) returns (ls: seq<Label>)
    requires s.lock.Free? && s.readers == {} && t < |s.threads| && WantsWrite(s.threads[t])
    ensures Leads(s, ls, s.(lock := Held(t), clock := s.clock + 2))
  {
    var s1 := DoAnnounce(s, t);
    ls := [];
    assert Leads(s, ls, s);
    LeadsOn(s, ls, s, Announce(t));
    ls := ls + [Announce(t)];
    LeadsOn(s, ls, s1, Acquire(t));
    ls := ls + [Acquire(t)];
  }

  /** Two steps one after the other. */
  lemma BothSteps(s: State, a: Label, b: Label)
    requires Enabled(s, a) && Enabled(Apply(s, a), b)
    ensures Leads(s, [a, b], Apply(Apply(s, a), b))
  {
    assert Leads(s, [], s);
    hide Enabled, Apply, IsRun, After;
    LeadsOn(s, [], s, a);
    LeadsOn(s, [] + [a], Apply(s, a), b);
    assert [] + [a] + [b] == [a, b];
  }

  /** A Subscribe on its own adds its subscriber and returns its handle, with no other thread's help. */
  lemma SubscribeAlone(s: State, workers: nat) returns (ls: seq<Label>, s': State)
    requires s.lock.Free? && s.readers == {} && workers > 0
    ensures Leads(s, ls, s')
    ensures var h := Handle(s.next + 1, |s.pool|);
            && s' == s.(threads := s.threads + [if s.cancelled then UnEnter(h) else SubDone(h)],
                        next := h.id, subs := s.subs[h.id := h.ch], pool := s'.pool,
                        unsubs := s.unsubs + [h], clock := s'.clock)
            && |s'.pool| == |s.pool| + 1 && s'.pool[..|s.pool|] == s.pool
            && Blank(s'.pool[h.ch], h.id, workers)
            && s'.pool[h.ch].cap == (if s.buffer <= 0 then 16 else s.buffer)
  {
    var t, l := |s.threads|, CallSubscribe(false, workers);
    var s1 := Apply(s, l);
    assert Leads(s, [], s);
    LeadsOn(s, [], s, l);
    var locking := LockTaken(s1, t);
    var s2 := s1.(lock := Held(t), clock := s1.clock + 2);
    s' := DoUnlock(DoRegister(s2, t), t);
    assert s'.threads == s.threads + [s'.threads[t]];
    BothSteps(s2, Register(t), Unlock(t));
    ls := [] + [l] + locking + [Register(t), Unlock(t)];
    hide Leads;
    LeadsFurther(s, [] + [l], s1, locking, s2);
    LeadsFurther(s, [] + [l] + locking, s2, [Register(t), Unlock(t)], s');
  }

  // Publish

  predicate Roomy(s: State, c: nat) { c < |s.pool| && !s.pool[c].closed && |s.pool[c].buf| < s.pool[c].cap }

  /** The subscribers with an id in `sent` have got `m`, and no others. */
  function Reached(pool: seq<Subscriber>, sent: set<nat>, m: Message): (r: seq<Subscriber>)
    ensures |r| == |pool|
  {
    seq(|pool|, c requires 0 <= c < |pool| => if pool[c].id in sent then Accept(pool[c], m) else pool[c])
  }

  predicate TableFits(s: State) {
    && (forall id | id in s.subs :: Roomy(s, s.subs[id]) && s.pool[s.subs[id]].id == id)
    && (forall c, d | 0 <= c < d < |s.pool| :: s.pool[c].id != s.pool[d].id)
  }

  /** A publish in the middle of its loop. */
  function InLoop(s: State, v: Value, sent: set<nat>): State {
    s.(threads := s.threads + [PubSend(v, s.clock + 1, sent)], readers := s.readers + {|s.threads|},
       pool := Reached(s.pool, sent, Message(|s.threads|, v)), clock := s.clock + 2 + |sent|)
  }

  lemma LoopTurns(s: State, v: Value, sent: set<nat>, id: nat)
    requires TableFits(s) && id in s.subs && id !in sent
    ensures Enabled(InLoop(s, v, sent), Send(|s.threads|, id))
    ensures Apply(InLoop(s, v, sent), Send(|s.threads|, id)) == InLoop(s, v, sent + {id})
  {
    var p, c, m := |s.threads|, s.subs[id], Message(|s.threads|, v);
    var a, b := InLoop(s, v, sent), InLoop(s, v, sent + {id});
    assert a.pool[c] == s.pool[c];
    assert a.threads[p := PubSend(v, s.clock + 1, sent + {id})] == b.threads;
    assert a.pool[c := Accept(a.pool[c], m)] == b.pool;
  }

  lemma {:induction false} LoopRuns(s: State, v: Value, sent: set<nat>) returns (ls: seq<Label>)
    requires TableFits(s) && sent <= s.subs.Keys
    ensures Leads(InLoop(s, v, sent), ls, InLoop(s, v, s.subs.Keys))
    decreases s.subs.Keys - sent
  {
    if id :| id in s.subs.Keys - sent {
      LoopTurns(s, v, sent, id);
      hide Enabled, Apply, InLoop, TableFits, IsRun, After;
      ls := LoopRuns(s, v, sent + {id});
      RunCons(InLoop(s, v, sent), Send(|s.threads|, id), ls);
      ls := [Send(|s.threads|, id)] + ls;
    } else {
      ls := [];
      assert sent == s.subs.Keys by {
        assert forall id | id in s.subs.Keys :: id !in s.subs.Keys - sent;
      }
    }
  }

  lemma LoopEntered(s: State, v: Value)
    requires s.lock.Free?
    ensures Leads(s, [CallPublish(v), RLock(|s.threads|)], InLoop(s, v, {}))
  {
    var p := |s.threads|;
    assert Reached(s.pool, {}, Message(p, v)) == s.pool;
    var s1 := DoCallPublish(s, v);
    assert s1.threads[p := PubSend(v, s.clock + 1, {})] == s.threads + [PubSend(v, s.clock + 1, {})];
    assert Apply(s1, RLock(p)) == InLoop(s, v, {});
    BothSteps(s, CallPublish(v), RLock(p));
  }

  lemma LoopLeft(s: State, v: Value)
    ensures var p, s2 := |s.threads|, InLoop(s, v, s.subs.Keys);
            && Enabled(s2, RUnlock(p))
            && Apply(s2, RUnlock(p)) ==
                 s2.(threads := s.threads + [PubDone(v, s.clock + 1, s2.clock)], readers := s.readers - {p},
                     clock := s2.clock + 1)
  {
    var p, s2 := |s.threads|, InLoop(s, v, s.subs.Keys);
    assert s2.threads[p := PubDone(v, s.clock + 1, s2.clock)] == s.threads + [PubDone(v, s.clock + 1, s2.clock)];
    assert s2.readers - {p} == s.readers - {p};
  }

  /** A Publish on its own reaches every subscriber with room and returns; no handler has to return, and
      no other publish. */
  lemma PublishAlone(s: State, v: Value) returns (ls: seq<Label>, s': State)
    requires Reachable(s) && s.lock.Free? && forall id | id in s.subs :: Roomy(s, s.subs[id])
    ensures Leads(s, ls, s') && 0 < s'.clock
    ensures var p := |s.threads|;
            && s' == s.(threads := s.threads + [PubDone(v, s.clock + 1, s'.clock - 1)],
                        readers := s.readers - {p}, clock := s'.clock, pool := s'.pool)
            && |s'.pool| == |s.pool|
            && forall c | 0 <= c < |s.pool| ::
                 s'.pool[c] == if s.pool[c].id in s.subs then Accept(s.pool[c], Message(p, v)) else s.pool[c]
  {
    ChannelSafety(s);
    LoopEntered(s, v);
    var s2 := InLoop(s, v, s.subs.Keys);
    LoopLeft(s, v);
    s' := Apply(s2, RUnlock(|s.threads|));
    assert s'.pool == Reached(s.pool, s.subs.Keys, Message(|s.threads|, v));
    hide Enabled, Apply, IsRun, After, Reachable;
    var more := LoopRuns(s, v, {});
    hide InLoop;
    ls := [CallPublish(v), RLock(|s.threads|)];
    RunAppend(s, ls, more);
    LeadsOn(s, ls + more, s2, RUnlock(|s.threads|));
    ls := ls + more + [RUnlock(|s.threads|)];
  }

  // Unsubscribe and the watcher

  /** The state in which thread `t` is inside the Once of `h`. */
  function Entered(s: State, h: Handle): State
    requires h.ch < |s.pool|
  {
    s.(threads := s.threads + [UnWant(h)], pool := s.pool[h.ch := s.pool[h.ch].(once := Busy(|s.threads|))],
       clock := s.clock + 2)
  }

  lemma HandleEntered(s: State, h: Handle)
    requires CanCallUnsubscribe(s, h) && s.pool[h.ch].once.Fresh?
    ensures Leads(s, [CallUnsubscribe(h), EnterOnce(|s.threads|)], Entered(s, h))
  {
    var t := |s.threads|;
    assert (s.threads + [UnEnter(h)])[t := UnWant(h)] == s.threads + [UnWant(h)];
    assert Apply(Apply(s, CallUnsubscribe(h)), EnterOnce(t)) == Entered(s, h);
    BothSteps(s, CallUnsubscribe(h), EnterOnce(t));
  }

  lemma HandleRemoved(s: State, t: nat, h: Handle) returns (s': State)
    requires t < |s.threads| && s.lock == Held(t) && s.threads[t] == UnWant(h)
    requires h.ch < |s.pool| && !s.pool[h.ch].closed && h.id in s.subs && s.subs[h.id] == h.ch
    ensures Leads(s, [Remove(t), Unlock(t)], s')
    ensures s' == s.(threads := s.threads[t := UnWait(h)], subs := s.subs - {h.id}, lock := Free,
                     pool := s.pool[h.ch := s.pool[h.ch].(closed := true, removed := Some(s.clock))],
                     clock := s.clock + 2)
  {
    BothSteps(s, Remove(t), Unlock(t));
    s' := DoUnlock(DoRemove(s, t), t);
    hide Leads;
    assert s'.threads == s.threads[t := UnWait(h)];
  }

  /** A handle called on its own takes its subscriber out of the table and closes its channel before it
      waits: no handler has to return for that, its own or another's. */
  lemma UnsubscribeAlone(s: State, h: Handle) returns (ls: seq<Label>, s': State)
    requires Reachable(s) && s.lock.Free? && s.readers == {}
    requires CanCallUnsubscribe(s, h) && s.pool[h.ch].once.Fresh?
    ensures Leads(s, ls, s')
    ensures s' == s.(threads := s.threads + [UnWait(h)], subs := s.subs - {h.id}, clock := s'.clock, pool := s'.pool)
    ensures |s'.pool| == |s.pool| && s'.pool == s.pool[h.ch := s'.pool[h.ch]]
    ensures s'.pool[h.ch] ==
              s.pool[h.ch].(closed := true, removed := s'.pool[h.ch].removed, once := Busy(|s.threads|))
  {
    var t := |s.threads|;
    assert !s.pool[h.ch].closed && h.id in s.subs && s.subs[h.id] == h.ch by {
      ReachableInv(s);
      hide PoolOk, History, CancelOk, LockOk, HandlesOk;
    }
    hide Reachable, Leads;
    var s1 := Entered(s, h);
    HandleEntered(s, h);
    var locking := LockTaken(s1, t);
    var s2 := s1.(lock := Held(t), clock := s1.clock + 2);
    s' := HandleRemoved(s2, t, h);
    ls := [CallUnsubscribe(h), EnterOnce(t)] + locking + [Remove(t), Unlock(t)];
    LeadsFurther(s, [CallUnsubscribe(h), EnterOnce(t)], s1, locking, s2);
    LeadsFurther(s, [CallUnsubscribe(h), EnterOnce(t)] + locking, s2, [Remove(t), Unlock(t)], s');
    assert s'.threads == s.threads + [UnWait(h)];
  }

  /** The watcher in its loop, with the calls for the first `n` handles started. */
  predicate Walking(s0: State, s: State, n: nat) {
    && s0.threads != [] && n <= |s0.unsubs| && |s.threads| == |s0.threads| + n
    && s == s0.(threads := s.threads, unsubs := [], clock := s.clock)
    && s.threads[1..|s0.threads|] == s0.threads[1..]
    && s.threads[0].WatchWalk? && s.threads[0].list == s0.unsubs[n..]
    && forall i | 0 <= i < n :: s.threads[|s0.threads| + i] == UnEnter(s0.unsubs[i])
  }

  lemma {:induction false} WalkGoesOn(s0: State, s: State, n: nat) returns (ls: seq<Label>, s': State)
    requires Walking(s0, s, n)
    ensures Leads(s, ls, s') && Walking(s0, s', |s0.unsubs|)
    decreases |s0.unsubs| - n
  {
    if n == |s0.unsubs| {
      ls, s' := [], s;
    } else {
      var s1 := DoSpawn(s, 0);
      assert Walking(s0, s1, n + 1) by {
        assert s0.unsubs[n..][0] == s0.unsubs[n] && s0.unsubs[n..][1..] == s0.unsubs[n + 1..];
      }
      assert Enabled(s, Spawn(0)) && Apply(s, Spawn(0)) == s1;
      hide Enabled, Apply, Walking, IsRun, After;
      ls, s' := WalkGoesOn(s0, s1, n + 1);
      RunCons(s, Spawn(0), ls);
      ls := [Spawn(0)] + ls;
    }
  }

  lemma ListSwapped(s: State) returns (s': State)
    requires s.threads != [] && s.lock == Held(0) && s.threads[0].WatchWant?
    ensures Leads(s, [Swap(0), Unlock(0)], s')
    ensures s' == s.(threads := s.threads[0 := WatchWalk(s.unsubs, {})], unsubs := [], lock := Free,
                     clock := s.clock + 2)
  {
    BothSteps(s, Swap(0), Unlock(0));
    s' := DoUnlock(DoSwap(s, 0), 0);
  }

  /** After a cancel the watcher on its own starts the calls of all handles in the list at once: it waits
      for none before it starts the next. */
  lemma WatcherAlone(s: State) returns (ls: seq<Label>, s': State)
    requires s.lock.Free? && s.readers == {} && s.cancelled && s.threads != [] && s.threads[0].WatchIdle?
    ensures Leads(s, ls, s') && Walking(s, s', |s.unsubs|)
  {
    var s1 := DoWake(s, 0);
    assert Leads(s, [], s);
    LeadsOn(s, [], s, Wake(0));
    var locking := LockTaken(s1, 0);
    var s2 := s1.(lock := Held(0), clock := s1.clock + 2);
    var s3 := ListSwapped(s2);
    assert Walking(s, s3, 0);
    hide Leads, Walking;
    var walk;
    walk, s' := WalkGoesOn(s, s3, 0);
    LeadsFurther(s, [] + [Wake(0)], s1, locking, s2);
    LeadsFurther(s, [] + [Wake(0)] + locking, s2, [Swap(0), Unlock(0)], s3);
    ls := [] + [Wake(0)] + locking + [Swap(0), Unlock(0)] + walk;
    LeadsFurther(s, [] + [Wake(0)] + locking + [Swap(0), Unlock(0)], s3, walk, s');
  }

  // All workers of a pool

  predicate HasRoom(s: State, d: nat, n: nat) { d < |s.pool| && |s.pool[d].buf| + n <= s.pool[d].cap }

  /** Channel `c` is idle and the others have room for `n` more values. */
  predicate Fillable(s: State, c: nat, n: nat) {
    && s.lock.Free? && c < |s.pool| && s.pool[c].id in s.subs && s.pool[c].buf == []
    && (forall id | id in s.subs && id != s.pool[c].id :: HasRoom(s, s.subs[id], n))
  }

  lemma RoomToBegin(s: State)
    requires Reachable(s)
    ensures forall d | 0 <= d < |s.pool| :: 0 < s.pool[d].cap
  {
    ReachableInv(s);
    hide Core, History, CancelOk, Conserved;
  }

  /** A publish into an idle channel. */
  lemma PublishFills(s: State, c: nat, v: Value, n: nat) returns (ls: seq<Label>, s': State)
    requires Reachable(s) && Fillable(s, c, n + 1)
    ensures Leads(s, ls, s') && Reachable(s') && s'.lock.Free? && |s'.pool| == |s.pool| && s'.subs == s.subs
    ensures s'.pool[c] == Accept(s.pool[c], Message(|s.threads|, v))
    ensures forall id | id in s.subs && id != s.pool[c].id :: HasRoom(s', s.subs[id], n)
  {
    ChannelSafety(s);
    RoomToBegin(s);
    hide Reachable, IsRun, After;
    ls, s' := PublishAlone(s, v);
    ReachableOn(s, ls);
  }

  lemma FillsOne(s: State, c: nat, v: Value, n: nat) returns (ls: seq<Label>, s': State)
    requires Reachable(s) && Fillable(s, c, n + 1) && IdleWorkers(s.pool[c].workers) > 0
    ensures Leads(s, ls, s') && Reachable(s') && Fillable(s', c, n)
    ensures var a, b := s.pool[c], s'.pool[c];
            && |InFlight(b.workers)| == |InFlight(a.workers)| + 1
            && IdleWorkers(b.workers) == IdleWorkers(a.workers) - 1 && |b.workers| == |a.workers|
  {
    var publish, s1 := PublishFills(s, c, v, n);
    hide IsRun, After, Reachable, InFlight, IdleWorkers;
    var take;
    take, s' := OneTakes(s1, c);
    LeadsFurther(s, publish, s1, take, s');
    ls := publish + take;
    ReachableOn(s, ls);
  }

  /** A pool gets as many values in flight as it has idle workers. */
  lemma {:induction false} PoolFills(s: State, c: nat, vs: seq<Value>) returns (ls: seq<Label>, s': State)
    requires Reachable(s) && Fillable(s, c, |vs|) && |vs| <= IdleWorkers(s.pool[c].workers)
    ensures Leads(s, ls, s') && |s'.pool| > c && |s'.pool[c].workers| == |s.pool[c].workers|
    ensures |InFlight(s'.pool[c].workers)| == |InFlight(s.pool[c].workers)| + |vs|
    decreases |vs|
  {
    if vs == [] {
      ls, s' := [], s;
    } else {
      var first, s1 := FillsOne(s, c, vs[0], |vs| - 1);
      hide Leads, Reachable, InFlight, IdleWorkers, Fillable;
      var more;
      more, s' := PoolFills(s1, c, vs[1..]);
      LeadsFurther(s, first, s1, more, s');
      ls := first + more;
    }
  }

  lemma {:induction false} AllIdle(ws: seq<Worker>)
    requires forall w | 0 <= w < |ws| :: ws[w].Idle?
    ensures IdleWorkers(ws) == |ws| && InFlight(ws) == multiset{}
  {
    if ws != [] { AllIdle(ws[1..]); }
  }

  /** A subscriber with as many workers as there are values can have all of them in its handler at once. */
  lemma FullPool(hasCtx: bool, buffer: int, vs: seq<Value>) returns (s: State)
    requires vs != []
    ensures Reachable(s) && |s.pool| > 0 && |s.pool[0].workers| == |vs| == |InFlight(s.pool[0].workers)|
  {
    var s0 := Init(hasCtx, buffer);
    var ls, s1 := SubscribeAlone(s0, |vs|);
    assert Reaches(hasCtx, buffer, [], s0) && Reaches(hasCtx, buffer, ls, s1);
    AllIdle(s1.pool[0].workers);
    assert Fillable(s1, 0, |vs|);
    hide Leads, IdleWorkers, InFlight;
    var more;
    more, s := PoolFills(s1, 0, vs);
    assert Reachable(s) by { assert Leads(s1, more, s); ReachableOn(s1, more); }
  }
}
