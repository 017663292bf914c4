/** What the subject table promises, for every reachable state and every interleaving of any number
    of Subscribe and Unsubscribe calls, whatever the broker answers. */
module NatsTheorems {
  import opened NatsModel
  import opened NatsOwnership

  // What the broker holds

  /** The broker still holds the subscription and delivers to its handler. */
  predicate IsHeld(sub: Sub) { !sub.status.Gone? }

  /** How many subscriptions of `subject` the broker holds. */
  function Held(broker: seq<Sub>, subject: string): nat {
    if broker == [] then 0
    else
      var sub := broker[|broker| - 1];
      Held(broker[..|broker| - 1], subject) + One(IsHeld(sub) && sub.subject == subject)
  }

  lemma {:induction false} HeldIsLiveOrStranded(broker: seq<Sub>, subject: string)
    ensures Held(broker, subject) == Having(broker, Live, subject) + Having(broker, Stranded, subject)
  {
    if broker != [] { HeldIsLiveOrStranded(broker[..|broker| - 1], subject); }
  }

  /** At every moment and for every subject the subscriptions that the broker holds are the entry of
      the table, those in the hands of calls, and those that it refused to take back from an
      Unsubscribe or from a Subscribe that had lost the race. */
  lemma {:induction false} HeldIsAccountedFor(s: State, subject: string)
    requires Reachable(s)
    ensures Held(s.broker, subject) ==
              One(subject in s.table) + Number(s.calls, Handful, subject)
              + Number(s.calls, RefusedUnsubscribe, subject) + Number(s.calls, RefusedRelease, subject)
  {
    ReachableInv(s);
    hide Ownership, LostOk, Having, Number, Held;
    assert Balanced(s, subject);
    HeldIsLiveOrStranded(s.broker, subject);
  }

  /** A subscription that was not refused is held exactly as long as somebody answers for it: the
      table, or the one call that is going to put it there or to cancel it. */
  lemma LiveIsOwnedOnce(s: State, id: nat)
    requires Reachable(s) && id < |s.broker|
    ensures IsHeld(s.broker[id]) <==> s.broker[id].status.Stranded? || exists o :: Owns(s, id, o)
    ensures s.broker[id].status.Stranded? ==> forall o :: !Owns(s, id, o)
    ensures forall o, p :: Owns(s, id, o) && Owns(s, id, p) ==> o == p
  {
    hide BooksOk, LostOk, NilOk, ConnectedOk;
    ReachableInv(s);
  }

  predicate Done(c: Call) { if c.Subscribe? then c.at.Answered? else c.stage.Finished? }

  predicate AtRest(s: State) { forall i | 0 <= i < |s.calls| :: Done(s.calls[i]) }

  /** The broker refused to take the subscription of this call back. */
  predicate WasRefused(c: Call) { Is(c, RefusedUnsubscribe) || Is(c, RefusedRelease) }

  predicate InTable(s: State, id: nat) {
    id < |s.broker| && s.broker[id].subject in s.table && s.table[s.broker[id].subject] == id
  }

  /** When no call is under way, the subscriptions that the broker holds are the entries of the table
      and the stranded ones. */
  lemma HeldAtRest(s: State, id: nat)
    requires Reachable(s) && AtRest(s) && id < |s.broker|
    ensures IsHeld(s.broker[id]) <==> InTable(s, id) || s.broker[id].status.Stranded?
    ensures InTable(s, id) ==> s.broker[id].status.Live?
  {
    LiveIsOwnedOnce(s, id);
    assert forall i | 0 <= i < |s.calls| :: Done(s.calls[i]) && InHand(s.calls[i]).Empty?;
    assert InTable(s, id) <==> Owns(s, id, TheTable);
    if s.broker[id].status.Live? {
      var o :| Owns(s, id, o);
    }
  }

  lemma StrandedIsRefused(s: State, subject: string)
    requires Reachable(s)
    ensures Sub(subject, Stranded) in s.broker <==>
              exists i :: 0 <= i < |s.calls| && s.calls[i].subject == subject && WasRefused(s.calls[i])
  {
    ReachableInv(s);
    hide Ownership, LostOk, Having, Number;
    assert Balanced(s, subject);
    HavingZero(s.broker, Stranded, subject);
    NumberZero(s.calls, RefusedUnsubscribe, subject);
    NumberZero(s.calls, RefusedRelease, subject);
  }

  /** When no call is under way, the broker holds exactly the entries of the table if and only if it
      has never refused to unsubscribe. */
  lemma TableAtRestIff(s: State)
    requires Reachable(s) && AtRest(s)
    ensures (forall id: nat | id < |s.broker| :: IsHeld(s.broker[id]) <==> InTable(s, id)) <==>
              (forall i | 0 <= i < |s.calls| :: !WasRefused(s.calls[i]))
  {
    forall id: nat | id < |s.broker|
      ensures (IsHeld(s.broker[id]) <==> InTable(s, id)) <==> !s.broker[id].status.Stranded?
    {
      HeldAtRest(s, id);
    }
    if i :| 0 <= i < |s.calls| && WasRefused(s.calls[i]) {
      StrandedIsRefused(s, s.calls[i].subject);
      var id :| 0 <= id < |s.broker| && s.broker[id] == Sub(s.calls[i].subject, Stranded);
    } else {
      forall id: nat | id < |s.broker|
        ensures !s.broker[id].status.Stranded?
      {
        StrandedIsRefused(s, s.broker[id].subject);
        var sub := s.broker[id];
        assert sub in s.broker && (sub.status.Stranded? <==> sub == Sub(sub.subject, Stranded));
      }
    }
  }

  /** For one subject: when no call is under way there is at most one subscription if and only if the
      broker has refused none, or a single one while the table has none. */
  lemma {:induction false} OnePerSubjectAtRestIff(s: State, subject: string)
    requires Reachable(s) && AtRest(s)
    ensures Held(s.broker, subject) <= 1 <==>
              One(subject in s.table)
              + Number(s.calls, RefusedUnsubscribe, subject) + Number(s.calls, RefusedRelease, subject) <= 1
  {
    HeldIsAccountedFor(s, subject);
    assert forall i | 0 <= i < |s.calls| :: Done(s.calls[i]) && !Is(s.calls[i], Handful);
    NumberZero(s.calls, Handful, subject);
  }

  /** While calls are under way there may be more: of two subscriptions that the broker holds for one
      subject one is in the hands of a call or was refused. */
  lemma ExtraIsInHandOrRefused(s: State, a: nat, b: nat)
    requires Reachable(s) && a < b < |s.broker|
    requires IsHeld(s.broker[a]) && IsHeld(s.broker[b]) && s.broker[a].subject == s.broker[b].subject
    ensures || s.broker[a].status.Stranded? || s.broker[b].status.Stranded?
            || exists i :: 0 <= i < |s.calls| && (InHand(s.calls[i]) == Has(a) || InHand(s.calls[i]) == Has(b))
  {
    LiveIsOwnedOnce(s, a);
    LiveIsOwnedOnce(s, b);
    if !s.broker[a].status.Stranded? && !s.broker[b].status.Stranded? {
      var o :| Owns(s, a, o);
      var p :| Owns(s, b, p);
      assert o.TheCall? || p.TheCall?;
    }
  }

  // Runs in which there is more than one

  lemma {:induction false} TwoSteps(s: State, ls: seq<Label>, s': State)
    requires |ls| >= 2 && Enabled(s, ls[0]) && Enabled(Apply(s, ls[0]), ls[1])
    requires IsRun(Apply(Apply(s, ls[0]), ls[1]), ls[2..]) && After(Apply(Apply(s, ls[0]), ls[1]), ls[2..]) == s'
    ensures IsRun(s, ls) && After(s, ls) == s'
  {
    hide Enabled, Apply;
    assert ls[1..][1..] == ls[2..];
  }

  /** Two calls between their two looks at the table. */
  lemma TwoLiveSubscriptions(subject: string) returns (s: State, ls: seq<Label>)
    ensures Reaches(true, ls, s) && s.table == map[] && |ls| == 6
    ensures s.calls == [Subscribe(subject, false, Holding(0)), Subscribe(subject, false, Holding(1))]
    ensures s.broker == [Sub(subject, Live), Sub(subject, Live)] && s.connected
  {
    ls := [CallSubscribe(subject, false), CallSubscribe(subject, false),
           Next(0, true), Next(0, true), Next(1, true), Next(1, true)];
    var c := Subscribe(subject, false, Checking);
    var s2 := Apply(Apply(Init(true), ls[0]), ls[1]);
    assert s2 == Init(true).(calls := [c, c]);
    var s4 := Apply(Apply(s2, ls[2]), ls[3]);
    assert s4 == s2.(calls := [c.(at := Holding(0)), c], broker := [Sub(subject, Live)]);
    s := Apply(Apply(s4, ls[4]), ls[5]);
    TwoSteps(s4, ls[4..], s);
    TwoSteps(s2, ls[2..], s);
    TwoSteps(Init(true), ls, s);
  }

  /** When the broker refuses to take back the subscription of the loser, both stay, and nobody hears
      of it: the loser is told that the subject is taken, as always. */
  lemma RefusedReleaseStays(subject: string) returns (s: State)
    ensures Reachable(s) && AtRest(s) && s.table == map[subject := 0]
    ensures s.broker == [Sub(subject, Live), Sub(subject, Stranded)]
    ensures s.calls == [Subscribe(subject, false, Answered(Subscribed)),
                        Subscribe(subject, false, Answered(AlreadySubscribed(true)))]
  {
    var s6, ls := TwoLiveSubscriptions(subject);
    var more := [Next(0, true), Next(1, true), Next(1, false)];
    var s7 := Apply(s6, more[0]);
    assert s7.table == map[subject := 0];
    s := Apply(Apply(s7, more[1]), more[2]);
    assert IsRun(s, []) && After(s, []) == s && more[1..][2..] == [];
    TwoSteps(s7, more[1..], s);
    assert IsRun(s6, more) && After(s6, more) == s;
    RunAppend(Init(true), ls, more);
    assert Reaches(true, ls + more, s);
  }

  lemma SubscribedOnce(subject: string) returns (s: State, ls: seq<Label>)
    ensures Reaches(true, ls, s)
    ensures s == State(true, map[subject := 0], [Sub(subject, Live)], [Subscribe(subject, false, Answered(Subscribed))])
  {
    ls := [CallSubscribe(subject, false), Next(0, true), Next(0, true), Next(0, true)];
    var c := Subscribe(subject, false, Answered(Subscribed));
    var s2 := Apply(Apply(Init(true), ls[0]), ls[1]);
    assert s2 == Init(true).(calls := [c.(at := Asking)]);
    s := Apply(Apply(s2, ls[2]), ls[3]);
    assert ls[2..][2..] == [] && IsRun(s, []) && After(s, []) == s;
    TwoSteps(s2, ls[2..], s);
    TwoSteps(Init(true), ls, s);
  }

  lemma SubscribedThenRefused(subject: string) returns (s: State, ls: seq<Label>)
    ensures Reaches(true, ls, s)
    ensures s == State(true, map[], [Sub(subject, Stranded)],
                       [Subscribe(subject, false, Answered(Subscribed)), Unsubscribe(subject, Finished(Failed))])
  {
    var s4, first := SubscribedOnce(subject);
    var more := [CallUnsubscribe(subject), Next(1, true), Next(1, false)];
    var s6 := Apply(Apply(s4, more[0]), more[1]);
    assert s6 == State(true, map[], [Sub(subject, Live)], s4.calls + [Unsubscribe(subject, Cancelling(0))]);
    s := Apply(s6, more[2]);
    hide Apply;
    assert more[2..][1..] == [] && IsRun(s, []) && After(s, []) == s;
    assert IsRun(s6, more[2..]) && After(s6, more[2..]) == s;
    TwoSteps(s4, more, s);
    RunAppend(Init(true), first, more);
    ls := first + more;
  }

  /** When the broker refuses an Unsubscribe, the entry is gone already: the next Subscribe succeeds,
      and the broker holds both. */
  lemma RefusedUnsubscribeStays(subject: string) returns (s: State)
    ensures Reachable(s) && AtRest(s) && s.table == map[subject := 1]
    ensures s.broker == [Sub(subject, Stranded), Sub(subject, Live)]
  {
    var s7, ls := SubscribedThenRefused(subject);
    var more := [CallSubscribe(subject, false), Next(2, true), Next(2, true), Next(2, true)];
    var s9 := Apply(Apply(s7, more[0]), more[1]);
    assert s9 == s7.(calls := s7.calls + [Subscribe(subject, false, Asking)]);
    s := Apply(Apply(s9, more[2]), more[3]);
    assert s == State(true, map[subject := 1], [Sub(subject, Stranded), Sub(subject, Live)], s7.calls + [s7.calls[0]]);
    assert more[2..][2..] == [] && IsRun(s, []) && After(s, []) == s;
    TwoSteps(s9, more[2..], s);
    TwoSteps(s7, more, s);
    hide Apply, Enabled;
    RunAppend(Init(true), ls, more);
    assert Reaches(true, ls + more, s);
  }

  /** Ownership of a subject changes hands: every success is matched by a removal before the next. */
  lemma {:induction false} SuccessesAreRemovals(s: State, subject: string)
    requires Reachable(s)
    ensures Number(s.calls, Win, subject) == Number(s.calls, Removal, subject) + One(subject in s.table)
  {
    ReachableInv(s);
    hide Ownership, LostOk, Having, Number;
    assert Balanced(s, subject);
  }

  // A race for a free subject

  /** Nobody owns the subject, and nobody is busy with it. */
  predicate Free(s: State, subject: string) {
    subject !in s.table && forall i | 0 <= i < |s.calls| && s.calls[i].subject == subject :: Done(s.calls[i])
  }

  /** What holds in a run from `s0` in which nobody unsubscribes: the first call of Subscribe that
      puts its entry in keeps everybody else out. */
  ghost predicate Race(s0: State, s: State, subject: string) {
    && |s0.calls| <= |s.calls| && (forall i | 0 <= i < |s0.calls| :: s.calls[i].subject == s0.calls[i].subject)
    && (forall i | 0 <= i < |s0.calls| && s0.calls[i].subject == subject ::
          s.calls[i] == s0.calls[i] && Done(s.calls[i]))
    && (forall i | |s0.calls| <= i < |s.calls| && s.calls[i].subject == subject :: s.calls[i].Subscribe?)
    && (forall i | |s0.calls| <= i < |s.calls| && s.calls[i].subject == subject ::
          Is(s.calls[i], Win) || Lost(s.calls[i]) ==> subject in s.table)
    && Number(s.calls, Removal, subject) == Number(s0.calls, Removal, subject)
  }

  /** What one step does to its call and to the entry of its subject. */
  lemma StepEffect(s: State, i: nat, ok: bool, subject: string)
    requires CanStep(s, i)
    ensures var s', c, c' := Step(s, i, ok), s.calls[i], Step(s, i, ok).calls[i];
            && s'.calls == s.calls[i := c'] && !Done(c)
            && c'.subject == c.subject && c'.Subscribe? == c.Subscribe?
            && (subject in s.table && (c.Subscribe? || c.subject != subject) ==> subject in s'.table)
            && (Is(c', Win) || Lost(c') ==> c.subject in s'.table || Lost(c))
  {
  }

  lemma RaceNext(s0: State, s: State, i: nat, ok: bool, subject: string)
    requires Race(s0, s, subject) && CanStep(s, i)
    ensures Race(s0, Step(s, i, ok), subject)
  {
    StepEffect(s, i, ok, subject);
    NumberUpdate(s.calls, i, Step(s, i, ok).calls[i], Removal, subject);
    hide Step, Number;
  }

  lemma RaceStep(s0: State, s: State, l: Label, subject: string)
    requires Race(s0, s, subject) && Enabled(s, l) && l != CallUnsubscribe(subject)
    ensures Race(s0, Apply(s, l), subject)
  {
    if l.Next? {
      hide Race, Step;
      RaceNext(s0, s, l.i, l.ok, subject);
    } else {
      assert Apply(s, l).calls[..|s.calls|] == s.calls;
    }
  }

  lemma {:induction false} RaceRun(s0: State, s: State, ls: seq<Label>, subject: string)
    requires Race(s0, s, subject) && IsRun(s, ls) && CallUnsubscribe(subject) !in ls
    ensures Race(s0, After(s, ls), subject)
    decreases |ls|
  {
    hide Race;
    if ls != [] {
      RaceStep(s0, s, ls[0], subject);
      RaceRun(s0, Apply(s, ls[0]), ls[1..], subject);
    }
  }

  /** Call `i` came after `s0` with a handler for `subject`. */
  predicate Racer(s0: State, s: State, subject: string, i: nat) {
    |s0.calls| <= i < |s.calls| && s.calls[i].Subscribe? && s.calls[i].subject == subject && !s.calls[i].nilHandler
  }

  /** A racer that is done has won or has been told that the subject is taken. */
  lemma RacerEnds(s: State, c: Call)
    requires Ownership(s) && s.connected && c in s.calls
    requires c.Subscribe? && !c.nilHandler && Done(c) && c.at.outcome != Refused
    ensures Is(c, Win) || (Lost(c) && c.at.Answered? && c.at.outcome.AlreadySubscribed?)
  {
    hide OwnedOk, OwnersOk;
    var i :| 0 <= i < |s.calls| && s.calls[i] == c;
    assert c.at == Answered(c.at.outcome) && c.at != Answered(NilHandler) && c.at != Answered(NotConnected);
  }

  /** However many calls of Subscribe race for a free subject, exactly one of them succeeds and all
      the others learn that the subject is taken. */
  lemma {:induction false} RaceHasOneWinner(s0: State, ls: seq<Label>, subject: string)
    requires Reachable(s0) && s0.connected && Free(s0, subject)
    requires IsRun(s0, ls) && CallUnsubscribe(subject) !in ls
    requires forall i: nat | Racer(s0, After(s0, ls), subject, i) ::
               Done(After(s0, ls).calls[i]) && After(s0, ls).calls[i].at.outcome != Refused
    requires exists i: nat :: Racer(s0, After(s0, ls), subject, i)
    ensures Number(After(s0, ls).calls, Win, subject) == Number(s0.calls, Win, subject) + 1
    ensures forall i: nat :: Racer(s0, After(s0, ls), subject, i) ==>
              var c := After(s0, ls).calls[i];
              Is(c, Win) || (c.at.Answered? && c.at.outcome.AlreadySubscribed?)
    ensures subject in After(s0, ls).table
  {
    var s := After(s0, ls);
    ReachableInv(s0);
    RunKept(s0, ls) by { hide Inv; }
    RaceRun(s0, s0, ls, subject) by { hide Inv, Number; }
    assert Balanced(s0, subject) && Balanced(s, subject) && Ownership(s);
    hide Inv, Ownership, Number, After, IsRun, Is, Lost;
    forall i: nat | Racer(s0, s, subject, i)
      ensures var c := s.calls[i]; Is(c, Win) || (Lost(c) && c.at.Answered? && c.at.outcome.AlreadySubscribed?)
    {
      RacerEnds(s, s.calls[i]);
    }
    var i: nat :| Racer(s0, s, subject, i);
    assert Is(s.calls[i], Win) || Lost(s.calls[i]);
  }
}
