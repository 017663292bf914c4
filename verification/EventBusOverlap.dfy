/** Publishes that overlap need not agree: wherever two subscribers have room, two concurrent calls
    of Publish can reach them in opposite orders. */
module EventBusOverlap {
  import opened EventBusModel
  import opened EventBusInvariant
  import opened EventBusSafety
  import opened EventBusTheorems

  /** Two calls of Publish that both hold the read lock. */
  lemma BothInside(s: State, u: Value, v: Value) returns (ls: seq<Label>)
    requires s.lock.Free?
    ensures IsRun(s, ls)
    ensures var p := |s.threads|;
            After(s, ls) == s.(threads := s.threads + [PubSend(u, s.clock + 2, {}), PubSend(v, s.clock + 3, {})],
                               readers := s.readers + {p} + {p + 1}, clock := s.clock + 4)
  {
    var p := |s.threads|;
    var s1, s2 := DoCallPublish(s, u), DoCallPublish(DoCallPublish(s, u), v);
    var s3 := DoRLock(s2, p);
    var s4 := DoRLock(s3, p + 1);
    assert s4.threads == s.threads + [PubSend(u, s.clock + 2, {}), PubSend(v, s.clock + 3, {})];
    assert IsRun(s4, []) && After(s4, []) == s4;
    RunCons(s3, RLock(p + 1), []);
    RunCons(s2, RLock(p), [RLock(p + 1)] + []);
    RunCons(s1, CallPublish(v), [RLock(p)] + ([RLock(p + 1)] + []));
    ls := [CallPublish(u)] + ([CallPublish(v)] + ([RLock(p)] + ([RLock(p + 1)] + [])));
    RunCons(s, CallPublish(u), [CallPublish(v)] + ([RLock(p)] + ([RLock(p + 1)] + [])));
  }

  predicate Roomy(s: State, id: nat, n: nat) {
    && id in s.subs && s.subs[id] < |s.pool|
    && !s.pool[s.subs[id]].closed && |s.pool[s.subs[id]].buf| + n <= s.pool[s.subs[id]].cap
  }

  /** What one send does to the subscribers `id` and `other`. */
  lemma SendTo(s: State, t: nat, id: nat, other: nat)
    requires t < |s.threads| && s.threads[t].PubSend? && id !in s.threads[t].sent
    requires Roomy(s, id, 1) && other in s.subs && s.subs[other] != s.subs[id] && s.subs[other] < |s.pool|
    ensures CanSend(s, t, id)
    ensures var s' := DoSend(s, t, id);
            && s'.subs == s.subs && |s'.pool| == |s.pool| && |s'.threads| == |s.threads|
            && s'.pool[s.subs[other]] == s.pool[s.subs[other]]
            && s'.pool[s.subs[id]] == Accept(s.pool[s.subs[id]], Message(t, s.threads[t].v))
            && s'.threads[t] == s.threads[t].(sent := s.threads[t].sent + {id})
            && (forall k | 0 <= k < |s.threads| && k != t :: s'.threads[k] == s.threads[k])
  {
  }

  lemma OverlapMayDisagree(s: State, a: nat, b: nat, u: Value, v: Value) returns (ls: seq<Label>)
    requires Reachable(s) && s.lock.Free? && a != b && Roomy(s, a, 2) && Roomy(s, b, 2)
    ensures IsRun(s, ls) && |After(s, ls).pool| == |s.pool|
    ensures var p, s' := |s.threads|, After(s, ls);
            && s'.pool[s.subs[a]].accepted == s.pool[s.subs[a]].accepted + [Message(p, u), Message(p + 1, v)]
            && s'.pool[s.subs[b]].accepted == s.pool[s.subs[b]].accepted + [Message(p + 1, v), Message(p, u)]
  {
    ChannelSafety(s);
    var p, q := |s.threads|, |s.threads| + 1;
    assert s.subs[a] != s.subs[b];
    hide Reachable, IsRun, After;
    ls := BothInside(s, u, v);
    var s4 := After(s, ls);
    SendTo(s4, p, a, b);
    var s5 := DoSend(s4, p, a);
    SendTo(s5, q, b, a) by { hide DoSend; }
    var s6 := DoSend(s5, q, b);
    SendTo(s6, q, a, b) by { hide DoSend; }
    var s7 := DoSend(s6, q, a);
    SendTo(s7, p, b, a) by { hide DoSend; }
    var s8 := DoSend(s7, p, b);
    hide DoSend;
    FourSends(s4, p, q, a, b);
    RunAppend(s, ls, [Send(p, a), Send(q, b), Send(q, a), Send(p, b)]);
    ls := ls + [Send(p, a), Send(q, b), Send(q, a), Send(p, b)];
  }

  lemma {:induction false} FourSends(s: State, p: nat, q: nat, a: nat, b: nat)
    requires CanSend(s, p, a) && CanSend(DoSend(s, p, a), q, b)
    requires CanSend(DoSend(DoSend(s, p, a), q, b), q, a)
    requires CanSend(DoSend(DoSend(DoSend(s, p, a), q, b), q, a), p, b)
    ensures var ls := [Send(p, a), Send(q, b), Send(q, a), Send(p, b)];
            IsRun(s, ls) && After(s, ls) == DoSend(DoSend(DoSend(DoSend(s, p, a), q, b), q, a), p, b)
  {
    hide CanSend, DoSend;
    var s1 := DoSend(s, p, a);
    var s2 := DoSend(s1, q, b);
    var s3 := DoSend(s2, q, a);
    var s4 := DoSend(s3, p, b);
    assert IsRun(s4, []) && After(s4, []) == s4;
    RunCons(s3, Send(p, b), []);
    RunCons(s2, Send(q, a), [Send(p, b)] + []);
    RunCons(s1, Send(q, b), [Send(q, a)] + ([Send(p, b)] + []));
    RunCons(s, Send(p, a), [Send(q, b)] + ([Send(q, a)] + ([Send(p, b)] + [])));
    assert [Send(p, a)] + ([Send(q, b)] + ([Send(q, a)] + ([Send(p, b)] + [])))
        == [Send(p, a), Send(q, b), Send(q, a), Send(p, b)];
  }
}
