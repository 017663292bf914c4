/** What a caller of the bus can count on: a subscription stands until somebody asks for its end, it has
    the workers that it was asked for, and what is published while it stands reaches its handler. */
module EventBusStays {
  import opened Basics
  import opened EventBusModel
  import opened EventBusInvariant
  import opened EventBusSafety
  import opened EventBusTheorems
  import opened EventBusProgress

  // A subscription stands until somebody asks for its end

  /** Somebody has cancelled the context, or has called handle `h`. */
  ghost predicate Asked(s: State, h: Handle) {
    s.cancelled || exists t | 0 <= t < |s.threads| :: Unsubscribing(s.threads[t]) && s.threads[t].h == h
  }

  predicate Made(s: State, h: Handle) { h.ch < |s.pool| && s.pool[h.ch].id == h.id }

  ghost predicate Stands(s: State, h: Handle) {
    !Asked(s, h) && (Made(s, h) ==> !s.pool[h.ch].closed)
  }

  predicate Asks(l: Label, h: Handle) { l == Cancel || l == CallUnsubscribe(h) }

  lemma TableStepAsks(s: State, l: Label, h: Handle)
    requires TableStep(l) && Enabled(s, l) && !Asked(s, h)
    ensures !Asked(Apply(s, l), h)
  {
  }

  lemma OtherStepAsks(s: State, l: Label, h: Handle)
    requires CancelOk(s) && !TableStep(l) && !l.Send? && Enabled(s, l) && !Asked(s, h) && !Asks(l, h)
    ensures !Asked(Apply(s, l), h)
  {
    hide Doomed;
  }

  lemma SendAsks(s: State, l: Label, h: Handle)
    requires l.Send? && Enabled(s, l) && !Asked(s, h)
    ensures !Asked(Apply(s, l), h)
  {
  }

  /** Apart from a call and from the watcher, nobody takes up a handle. */
  lemma StepAsks(s: State, l: Label, h: Handle)
    requires CancelOk(s) && Enabled(s, l) && !Asked(s, h) && !Asks(l, h)
    ensures !Asked(Apply(s, l), h)
  {
    hide CancelOk, Asked, Enabled, Apply;
    if TableStep(l) {
      TableStepAsks(s, l, h);
    } else if l.Send? {
      SendAsks(s, l, h);
    } else {
      OtherStepAsks(s, l, h);
    }
  }

  lemma RemoveSpares(s: State, t: nat, h: Handle)
    requires Inv(s) && CanRemove(s, t) && Stands(s, h)
    ensures Made(DoRemove(s, t), h) ==> !DoRemove(s, t).pool[h.ch].closed
  {
    RemoveKept(s, t) by { hide Inv; }
    assert s.threads[t].h != h;
    assert forall c | 0 <= c < |s.pool| :: s.pool[c].id == c + 1 by { hide PoolOk, History, CancelOk; }
    hide Inv;
  }

  /** Only the step of Unsubscribe that deletes the entry closes a channel. */
  lemma OthersClose(s: State, l: Label, h: Handle)
    requires Enabled(s, l) && !l.Remove? && (Made(s, h) ==> !s.pool[h.ch].closed)
    ensures Made(Apply(s, l), h) ==> !Apply(s, l).pool[h.ch].closed
  {
  }

  lemma StepStands(s: State, l: Label, h: Handle)
    requires Inv(s) && Enabled(s, l) && Stands(s, h) && !Asks(l, h)
    ensures Stands(Apply(s, l), h)
  {
    StepAsks(s, l, h) by { hide Core, PoolOk, History, Asked, Enabled, Apply; }
    if l.Remove? {
      hide Inv;
      RemoveSpares(s, l.t, h);
    } else {
      hide Inv, Enabled, Apply, Asked;
      OthersClose(s, l, h);
    }
  }

  lemma {:induction false} RunStands(s: State, ls: seq<Label>, h: Handle)
    requires Inv(s) && IsRun(s, ls) && Stands(s, h) && Cancel !in ls && CallUnsubscribe(h) !in ls
    ensures Stands(After(s, ls), h)
    decreases |ls|
  {
    hide Inv, Enabled, Apply, Stands;
    if ls != [] {
      StepStands(s, ls[0], h);
      StepKept(s, ls[0]);
      RunStands(Apply(s, ls[0]), ls[1..], h);
    }
  }

  /** In every run in which nobody cancels the context or calls its handle, a subscriber is in the
      table and its channel is open. */
  lemma StaysSubscribed(hasCtx: bool, buffer: int, ls: seq<Label>, s: State, c: nat)
    requires Reaches(hasCtx, buffer, ls, s) && c < |s.pool|
    requires Cancel !in ls && CallUnsubscribe(Handle(s.pool[c].id, c)) !in ls
    ensures !s.pool[c].closed && s.pool[c].id in s.subs && s.subs[s.pool[c].id] == c
  {
    var h := Handle(s.pool[c].id, c);
    InitInv(hasCtx, buffer);
    RunStands(Init(hasCtx, buffer), ls, h) by { hide Inv; }
    assert Reachable(s);
    ChannelSafety(s);
  }

  lemma TableStepAsked(s: State, l: Label, h: Handle)
    requires TableStep(l) && Enabled(s, l) && Asked(s, h)
    ensures Asked(Apply(s, l), h)
  {
    var s' := Apply(s, l);
    if t :| 0 <= t < |s.threads| && Unsubscribing(s.threads[t]) && s.threads[t].h == h {
      assert Unsubscribing(s'.threads[t]) && s'.threads[t].h == h;
    }
  }

  lemma OtherStepAsked(s: State, l: Label, h: Handle)
    requires !TableStep(l) && Enabled(s, l) && Asked(s, h)
    ensures Asked(Apply(s, l), h)
  {
    var s' := Apply(s, l);
    if t :| 0 <= t < |s.threads| && Unsubscribing(s.threads[t]) && s.threads[t].h == h {
      assert Unsubscribing(s'.threads[t]) && s'.threads[t].h == h;
    }
  }

  lemma CallIsAsked(s: State, l: Label, h: Handle)
    requires Enabled(s, l) && Asks(l, h)
    ensures Asked(Apply(s, l), h)
  {
    var s' := Apply(s, l);
    assert l == CallUnsubscribe(h) ==> s'.threads[|s.threads|] == UnEnter(h);
  }

  lemma {:induction false} RunAsked(s: State, ls: seq<Label>, h: Handle)
    requires IsRun(s, ls) && (Asked(s, h) || Cancel in ls || CallUnsubscribe(h) in ls)
    ensures Asked(After(s, ls), h)
    decreases |ls|
  {
    hide Enabled, Apply, Asked;
    if ls != [] {
      if Asks(ls[0], h) {
        CallIsAsked(s, ls[0], h);
      } else if Asked(s, h) && TableStep(ls[0]) {
        TableStepAsked(s, ls[0], h);
      } else if Asked(s, h) {
        OtherStepAsked(s, ls[0], h);
      }
      RunAsked(Apply(s, ls[0]), ls[1..], h);
    }
  }

  lemma AskedAtRest(s: State, c: nat)
    requires Reachable(s) && !CanStep(s) && c < |s.pool| && Asked(s, Handle(s.pool[c].id, c))
    ensures s.pool[c].closed
  {
    ReachableInv(s);
    StuckIffQuiet(s);
    if s.cancelled {
      CancelledAtRest(s);
    } else {
      var t :| 0 <= t < |s.threads| && Unsubscribing(s.threads[t]) && s.threads[t].h.ch == c;
      assert s.threads[t].UnDone? by { assert Finished(s.threads[t], s.cancelled); }
      hide CanStep, Quiet, PoolOk, History, CancelOk, TableOk;
    }
  }

  /** At rest the subscribers are exactly those whose end nobody has asked for. */
  lemma SubscribedIff(hasCtx: bool, buffer: int, ls: seq<Label>, s: State, c: nat)
    requires Reaches(hasCtx, buffer, ls, s) && !CanStep(s) && c < |s.pool|
    ensures s.pool[c].id in s.subs <==> Cancel !in ls && CallUnsubscribe(Handle(s.pool[c].id, c)) !in ls
  {
    var h := Handle(s.pool[c].id, c);
    assert Reachable(s);
    ChannelSafety(s);
    hide Reaches, CanStep, IsRun, After;
    if Cancel in ls || CallUnsubscribe(h) in ls {
      assert Asked(s, h) by { RunAsked(Init(hasCtx, buffer), ls, h) by { assert Reaches(hasCtx, buffer, ls, s); } }
      AskedAtRest(s, c);
    } else {
      StaysSubscribed(hasCtx, buffer, ls, s, c);
    }
  }

  // Subscribe

  /** The subscriber behind `h` was made after `s0` with the given number of workers and the buffer of
      the topic. */
  predicate Fitted(s0: State, s: State, h: Handle, workers: int) {
    && |s0.pool| <= h.ch < |s.pool| && s.pool[h.ch].id == h.id && s0.clock <= s.pool[h.ch].registered
    && |s.pool[h.ch].workers| == workers && s.pool[h.ch].cap == BufferSize(s0.buffer)
  }

  /** How far the call of Subscribe that is thread `t` may have come: it runs its own handle only after a
      cancel. */
  predicate Subscribing(s0: State, s: State, t: nat, workers: int) {
    && t < |s.threads| && |s0.pool| <= |s.pool| && s0.clock <= s.clock && s0.buffer == s.buffer
    && (s.threads[t].SubWant? || HasHandle(s.threads[t]))
    && (s.threads[t].SubWant? ==> s.threads[t].pool == workers)
    && (HasHandle(s.threads[t]) ==> Fitted(s0, s, s.threads[t].h, workers))
    && (Unsubscribing(s.threads[t]) ==> s.cancelled)
  }

  /** What a step leaves of a subscriber. */
  predicate SameFit(s: State, s': State) {
    && s'.buffer == s.buffer && s.clock <= s'.clock && (s.cancelled ==> s'.cancelled)
    && |s.threads| <= |s'.threads| && |s.pool| <= |s'.pool|
    && (forall c | 0 <= c < |s.pool| ::
          && s'.pool[c].id == s.pool[c].id && s'.pool[c].cap == s.pool[c].cap
          && |s'.pool[c].workers| == |s.pool[c].workers| && s'.pool[c].registered == s.pool[c].registered)
  }

  lemma PoolStepFits(s: State, l: Label)
    requires Enabled(s, l) && PoolStep(l)
    ensures SameFit(s, Apply(s, l))
  {
  }

  lemma TableStepFits(s: State, l: Label)
    requires Enabled(s, l) && TableStep(l)
    ensures SameFit(s, Apply(s, l))
  {
  }

  lemma OtherStepFits(s: State, l: Label)
    requires Enabled(s, l) && !PoolStep(l) && !TableStep(l)
    ensures SameFit(s, Apply(s, l))
  {
  }

  lemma StepFits(s: State, l: Label)
    requires Enabled(s, l)
    ensures SameFit(s, Apply(s, l))
  {
    hide Enabled, Apply, SameFit;
    if PoolStep(l) {
      PoolStepFits(s, l);
    } else if TableStep(l) {
      TableStepFits(s, l);
    } else {
      OtherStepFits(s, l);
    }
  }

  /** Thread `t` stays where it is, or moves along in its call. */
  predicate Along(s: State, s': State, t: nat)
    requires t < |s.threads|
  {
    && t < |s'.threads|
    && (s'.threads[t] == s.threads[t]
        || (HasHandle(s.threads[t]) && HasHandle(s'.threads[t]) && s'.threads[t].h == s.threads[t].h
            && (Unsubscribing(s.threads[t]) ==> Unsubscribing(s'.threads[t]))
            && (Unsubscribing(s'.threads[t]) ==> Unsubscribing(s.threads[t]) || s.cancelled))
        || (s.threads[t].SubWant? && s'.threads[t].SubIn?
            && s'.threads[t].h == Handle(s.next + 1, |s.pool|) && |s'.pool| == |s.pool| + 1
            && s'.pool[|s.pool|] ==
                 NewSubscriber(s.next + 1, BufferSize(s.buffer), s.threads[t].pool, s.clock)))
  }

  /** A call of Subscribe or of a handle. */
  predicate Calling(th: Thread) { th.SubWant? || th.SubPanic? || HasHandle(th) }

  lemma TableStepAlong(s: State, l: Label, t: nat)
    requires Enabled(s, l) && TableStep(l) && t < |s.threads| && Calling(s.threads[t])
    ensures Along(s, Apply(s, l), t)
  {
  }

  lemma PublishStepAlong(s: State, l: Label, t: nat)
    requires Enabled(s, l) && PublishStep(l) && t < |s.threads| && Calling(s.threads[t])
    ensures Along(s, Apply(s, l), t)
  {
  }

  lemma OtherStepAlong(s: State, l: Label, t: nat)
    requires Enabled(s, l) && !TableStep(l) && !PublishStep(l) && t < |s.threads| && Calling(s.threads[t])
    ensures Along(s, Apply(s, l), t)
  {
  }

  lemma StepAlong(s: State, l: Label, t: nat)
    requires Enabled(s, l) && t < |s.threads| && Calling(s.threads[t])
    ensures Along(s, Apply(s, l), t)
  {
    hide Enabled, Apply, Along, Calling;
    if TableStep(l) {
      TableStepAlong(s, l, t);
    } else if PublishStep(l) {
      PublishStepAlong(s, l, t);
    } else {
      OtherStepAlong(s, l, t);
    }
  }

  lemma StepSubscribing(s0: State, s: State, l: Label, t: nat, workers: int)
    requires Enabled(s, l) && Subscribing(s0, s, t, workers)
    ensures Subscribing(s0, Apply(s, l), t, workers)
  {
    hide Apply, Enabled;
    StepFits(s, l);
    StepAlong(s, l, t);
  }

  lemma {:induction false} RunSubscribing(s0: State, s: State, ls: seq<Label>, t: nat, workers: int)
    requires IsRun(s, ls) && Subscribing(s0, s, t, workers)
    ensures Subscribing(s0, After(s, ls), t, workers)
    decreases |ls|
  {
    hide Apply, Enabled, Subscribing;
    if ls != [] {
      StepSubscribing(s0, s, ls[0], t, workers);
      RunSubscribing(s0, Apply(s, ls[0]), ls[1..], t, workers);
    }
  }

  /** A call of Subscribe panics exactly for a missing handler or pool size. Any other gets a subscriber
      of its own with the workers it asked for, and returns with the handle; it runs the handle itself
      only after a cancel. */
  lemma {:induction false} SubscribeServes(s: State, nilHandler: bool, workers: int, ls: seq<Label>)
    requires Reachable(s) && IsRun(s, [CallSubscribe(nilHandler, workers)] + ls)
    ensures var t, s' := |s.threads|, After(s, [CallSubscribe(nilHandler, workers)] + ls);
            && t < |s'.threads|
            && (s'.threads[t].SubPanic? <==> nilHandler || workers <= 0)
            && (HasHandle(s'.threads[t]) ==> Fitted(s, s', s'.threads[t].h, workers))
            && (Unsubscribing(s'.threads[t]) ==> s'.cancelled)
            && (!CanStep(s') ==> s'.threads[t].SubPanic? || s'.threads[t].SubDone? || s'.threads[t].UnDone?)
  {
    var l, t := CallSubscribe(nilHandler, workers), |s.threads|;
    assert ([l] + ls)[0] == l && ([l] + ls)[1..] == ls;
    var s1, s' := Apply(s, l), After(s, [l] + ls);
    ReachableOn(s, [l] + ls);
    if !CanStep(s') { StuckIffQuiet(s'); }
    if nilHandler || workers <= 0 {
      RunPanicked(s1, ls, t);
    } else {
      RunSubscribing(s, s1, ls, t, workers);
      assert Finished(s'.threads[t], s'.cancelled) ==> s'.threads[t].SubDone? || s'.threads[t].UnDone?;
    }
    hide Reachable, IsRun, After, Apply, CanStep;
  }

  lemma {:induction false} RunPanicked(s: State, ls: seq<Label>, t: nat)
    requires IsRun(s, ls) && t < |s.threads| && s.threads[t].SubPanic?
    ensures t < |After(s, ls).threads| && After(s, ls).threads[t] == s.threads[t]
    decreases |ls|
  {
    hide Apply, Enabled;
    if ls != [] {
      StepAlong(s, ls[0], t);
      RunPanicked(Apply(s, ls[0]), ls[1..], t);
    }
  }

  lemma StepCancelled(s: State, l: Label)
    requires Enabled(s, l) && l != Cancel
    ensures Apply(s, l).cancelled == s.cancelled
  {
  }

  lemma {:induction false} RunCancelled(s: State, ls: seq<Label>)
    requires IsRun(s, ls) && Cancel !in ls
    ensures After(s, ls).cancelled == s.cancelled
    decreases |ls|
  {
    hide Apply, Enabled;
    if ls != [] {
      StepCancelled(s, ls[0]);
      RunCancelled(Apply(s, ls[0]), ls[1..]);
    }
  }

  /** Nobody has a handle before it is made. */
  lemma FreshStands(s: State, h: Handle)
    requires Inv(s) && !s.cancelled && |s.pool| <= h.ch
    ensures Stands(s, h)
  {
    hide PoolOk, History, CancelOk, LockOk, TableOk, OnceOk;
  }

  /** Without a cancel a Subscribe ends with its subscriber in the table, unless its handle was called. */
  lemma {:induction false} SubscriptionStands(s: State, workers: int, ls: seq<Label>)
    requires Reachable(s) && !s.cancelled && workers > 0 && IsRun(s, [CallSubscribe(false, workers)] + ls)
    requires Cancel !in ls && !CanStep(After(s, [CallSubscribe(false, workers)] + ls))
    ensures var t, s' := |s.threads|, After(s, [CallSubscribe(false, workers)] + ls);
            && t < |s'.threads| && s'.threads[t].SubDone? && Fitted(s, s', s'.threads[t].h, workers)
            && (CallUnsubscribe(s'.threads[t].h) !in ls ==>
                  s'.threads[t].h.id in s'.subs && !s'.pool[s'.threads[t].h.ch].closed)
  {
    var all, t := [CallSubscribe(false, workers)] + ls, |s.threads|;
    var s' := After(s, all);
    SubscribeServes(s, false, workers, ls);
    RunCancelled(s, all);
    var h := s'.threads[t].h;
    ReachableInv(s);
    FreshStands(s, h);
    ReachableOn(s, all);
    ChannelSafety(s');
    hide Inv, Stands, Reachable, CanStep, IsRun, After;
    if CallUnsubscribe(h) !in ls {
      RunStands(s, all, h);
      assert !s'.pool[h.ch].closed by { assert Stands(s', h); }
    }
  }

  // The handle

  /** Thread `t` is a call of `h`. */
  predicate Handling(s: State, t: nat, h: Handle) {
    t < |s.threads| && Unsubscribing(s.threads[t]) && s.threads[t].h == h
  }

  lemma {:induction false} RunHandling(s: State, ls: seq<Label>, t: nat, h: Handle)
    requires IsRun(s, ls) && Handling(s, t, h)
    ensures Handling(After(s, ls), t, h)
    decreases |ls|
  {
    hide Apply, Enabled;
    if ls != [] {
      StepAlong(s, ls[0], t);
      RunHandling(Apply(s, ls[0]), ls[1..], t, h);
    }
  }

  /** The handle of any subscriber may be called at any time, any number of times, and every call
      returns with the subscriber drained. */
  lemma {:induction false} HandleServes(s: State, c: nat, ls: seq<Label>)
    requires Reachable(s) && c < |s.pool|
    ensures Enabled(s, CallUnsubscribe(Handle(s.pool[c].id, c)))
    ensures IsRun(s, [CallUnsubscribe(Handle(s.pool[c].id, c))] + ls) ==>
              var t, s' := |s.threads|, After(s, [CallUnsubscribe(Handle(s.pool[c].id, c))] + ls);
              && Handling(s', t, Handle(s.pool[c].id, c))
              && (!CanStep(s') ==> s'.threads[t].UnDone? && c < |s'.pool| && Drained(s'.pool[c]))
  {
    var h, t := Handle(s.pool[c].id, c), |s.threads|;
    var l := CallUnsubscribe(h);
    if IsRun(s, [l] + ls) {
      assert ([l] + ls)[0] == l && ([l] + ls)[1..] == ls;
      var s' := After(s, [l] + ls);
      RunHandling(Apply(s, l), ls, t, h);
      ReachableOn(s, [l] + ls);
      if !CanStep(s') {
        StuckIffQuiet(s');
        assert Finished(s'.threads[t], s'.cancelled);
        hide Reachable, IsRun, After;
        assert IsRun(s', []) by { hide *; EmptyRun(s'); }
        UnsubscribeDrains(s', t, []);
      }
    }
  }

  lemma {:induction false} EmptyRun(s: State)
    ensures IsRun(s, [])
  {
  }

  // Publish

  /** Thread `t` is a publish of `v`. */
  predicate Publishing(s: State, t: nat, v: Value) {
    t < |s.threads| && (s.threads[t].PubWant? || Published(s.threads[t])) && s.threads[t].v == v
  }

  lemma TableStepPublishing(s: State, l: Label, t: nat, v: Value)
    requires Enabled(s, l) && TableStep(l) && Publishing(s, t, v)
    ensures Publishing(Apply(s, l), t, v)
  {
  }

  lemma OtherStepPublishing(s: State, l: Label, t: nat, v: Value)
    requires Enabled(s, l) && !TableStep(l) && Publishing(s, t, v)
    ensures Publishing(Apply(s, l), t, v)
  {
  }

  lemma {:induction false} RunPublishing(s: State, ls: seq<Label>, t: nat, v: Value)
    requires IsRun(s, ls) && Publishing(s, t, v)
    ensures Publishing(After(s, ls), t, v)
    decreases |ls|
  {
    hide Apply, Enabled, Publishing;
    if ls != [] {
      if TableStep(ls[0]) { TableStepPublishing(s, ls[0], t, v); } else { OtherStepPublishing(s, ls[0], t, v); }
      RunPublishing(Apply(s, ls[0]), ls[1..], t, v);
    }
  }

  lemma {:induction false} RunFits(s: State, ls: seq<Label>)
    requires IsRun(s, ls)
    ensures SameFit(s, After(s, ls))
    decreases |ls|
  {
    hide Apply, Enabled;
    if ls != [] {
      StepFits(s, ls[0]);
      RunFits(Apply(s, ls[0]), ls[1..]);
    }
  }

  /** A finished publish that was called while the subscriber stood, which it still does, has reached it. */
  lemma CoveredGets(s: State, p: nat, c: nat)
    requires Inv(s) && c < |s.pool| && !s.pool[c].closed
    requires p < |s.threads| && s.threads[p].PubDone? && s.pool[c].registered < s.threads[p].begin
    ensures Message(p, s.threads[p].v) in s.pool[c].accepted
  {
    hide PoolOk, CancelOk, OrderOk, LockOk, HandlesOk, OnceOk;
    assert Covers(s.pool[c], s.threads[p]);
    assert Got(s.pool[c], p);
    var i :| 0 <= i < |s.pool[c].accepted| && s.pool[c].accepted[i].call == p;
    assert s.pool[c].accepted[i] == Message(p, s.threads[p].v);
  }

  /** What is published to a subscriber that stands reaches it before Publish returns, and its handler
      in the end. */
  lemma {:induction false} PublishReaches(s: State, c: nat, v: Value, ls: seq<Label>)
    requires Reachable(s) && c < |s.pool| && IsRun(s, [CallPublish(v)] + ls)
    requires c < |After(s, [CallPublish(v)] + ls).pool| && !After(s, [CallPublish(v)] + ls).pool[c].closed
    ensures var p, s' := |s.threads|, After(s, [CallPublish(v)] + ls);
            && p < |s'.threads|
            && (s'.threads[p].PubDone? ==> Message(p, v) in s'.pool[c].accepted)
            && (!CanStep(s') ==> s'.threads[p].PubDone? && Message(p, v) in s'.pool[c].handled)
  {
    var l, p := CallPublish(v), |s.threads|;
    assert ([l] + ls)[0] == l && ([l] + ls)[1..] == ls;
    var s1, s' := Apply(s, l), After(s, [l] + ls);
    ReachableInv(s);
    ReachableOn(s, [l] + ls);
    ReachableInv(s');
    RunPublishing(s1, ls, p, v);
    RunLater(s, [l] + ls);
    RunFits(s, [l] + ls);
    assert s.pool[c].registered < s.clock by { hide PoolOk, History, CancelOk; }
    if !CanStep(s') {
      StuckIffQuiet(s');
      assert Finished(s'.threads[p], s'.cancelled);
    }
    hide Inv;
    if s'.threads[p].PubDone? {
      CoveredGets(s', p, c);
      if !CanStep(s') { RestedHandled(s', c); }
    }
  }

  /** An idle subscriber has handled everything that it accepted. */
  lemma RestedHandled(s: State, c: nat)
    requires Reachable(s) && c < |s.pool| && Quiet(s)
    ensures multiset(s.pool[c].handled) == multiset(s.pool[c].accepted)
    ensures forall m :: m in s.pool[c].accepted <==> m in s.pool[c].handled
  {
    Conservation(s, c);
    InFlightNone(s.pool[c].workers);
    assert s.pool[c].taken + [] == s.pool[c].taken;
    assert forall m :: m in s.pool[c].accepted <==> m in multiset(s.pool[c].accepted);
  }
}
