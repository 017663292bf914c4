/** A live subscription on the broker is in the table or in the hands of exactly one call, and the
    books balance for every subject: what the table holds, what calls have in hand and what the
    broker refused to take back account for every subscription that the broker still holds. */
module NatsOwnership {
  import opened NatsModel

  datatype Owner = TheTable | TheCall(i: nat)

  datatype Hand = Empty | Has(id: nat)

  /** The subscription that is in the hands of call `c`. */
  function InHand(c: Call): Hand {
    match c
    case Subscribe(_, _, at) => if at.Holding? || at.Releasing? then Has(at.id) else Empty
    case Unsubscribe(_, stage) => if stage.Cancelling? then Has(stage.id) else Empty
  }

  predicate Owns(s: State, id: nat, o: Owner) {
    match o
    case TheTable => id < |s.broker| && s.broker[id].subject in s.table && s.table[s.broker[id].subject] == id
    case TheCall(i) => i < |s.calls| && InHand(s.calls[i]) == Has(id)
  }

  /** What is owned is live and bears the owner's subject. */
  ghost predicate OwnedOk(s: State) {
    && (forall subject | subject in s.table ::
          s.table[subject] < |s.broker| && s.broker[s.table[subject]] == Sub(subject, Live))
    && (forall i | 0 <= i < |s.calls| && InHand(s.calls[i]).Has? ::
          InHand(s.calls[i]).id < |s.broker| && s.broker[InHand(s.calls[i]).id] == Sub(s.calls[i].subject, Live))
  }

  ghost predicate OwnersOk(s: State) {
    && (forall id: nat, o, p :: Owns(s, id, o) && Owns(s, id, p) ==> o == p)
    && (forall id | 0 <= id < |s.broker| && s.broker[id].status.Live? :: exists o :: Owns(s, id, o))
  }

  // The books

  /** What a call may have come to. */
  datatype Kind = Win | Removal | Handful | RefusedUnsubscribe | RefusedRelease

  predicate Is(c: Call, k: Kind) {
    match k
    case Win => c.Subscribe? && c.at == Answered(Subscribed)
    /** The call has taken an entry out of the table. */
    case Removal =>
      c.Unsubscribe? && (c.stage.Cancelling? || c.stage == Finished(Removed) || c.stage == Finished(Failed))
    case Handful => InHand(c).Has?
    case RefusedUnsubscribe => c.Unsubscribe? && c.stage == Finished(Failed)
    case RefusedRelease => c.Subscribe? && c.at == Answered(AlreadySubscribed(true))
  }

  function One(b: bool): nat { if b then 1 else 0 }

  /** How many calls for `subject` are of kind `k`. */
  function Number(cs: seq<Call>, k: Kind, subject: string): nat {
    if cs == [] then 0
    else Number(cs[..|cs| - 1], k, subject) + One(Is(cs[|cs| - 1], k) && cs[|cs| - 1].subject == subject)
  }

  lemma {:induction false} NumberUpdate(cs: seq<Call>, i: nat, c: Call, k: Kind, subject: string)
    requires i < |cs|
    ensures Number(cs[i := c], k, subject) ==
              Number(cs, k, subject)
              - One(Is(cs[i], k) && cs[i].subject == subject) + One(Is(c, k) && c.subject == subject)
  {
    var n := |cs| - 1;
    if i < n {
      assert cs[i := c][..n] == cs[..n][i := c];
      NumberUpdate(cs[..n], i, c, k, subject);
    } else {
      assert cs[i := c][..n] == cs[..n];
    }
  }

  lemma {:induction false} NumberZero(cs: seq<Call>, k: Kind, subject: string)
    ensures Number(cs, k, subject) == 0 <==> forall i | 0 <= i < |cs| && cs[i].subject == subject :: !Is(cs[i], k)
  {
    if cs != [] {
      NumberZero(cs[..|cs| - 1], k, subject);
      assert forall i | 0 <= i < |cs| - 1 :: cs[..|cs| - 1][i] == cs[i];
    }
  }

  /** How many subscriptions of `subject` have status `st`. */
  function Having(broker: seq<Sub>, st: Status, subject: string): nat {
    if broker == [] then 0
    else Having(broker[..|broker| - 1], st, subject) + One(broker[|broker| - 1] == Sub(subject, st))
  }

  lemma {:induction false} HavingUpdate(broker: seq<Sub>, id: nat, sub: Sub, st: Status, subject: string)
    requires id < |broker|
    ensures Having(broker[id := sub], st, subject) ==
              Having(broker, st, subject) - One(broker[id] == Sub(subject, st)) + One(sub == Sub(subject, st))
  {
    var n := |broker| - 1;
    if id < n {
      assert broker[id := sub][..n] == broker[..n][id := sub];
      HavingUpdate(broker[..n], id, sub, st, subject);
    } else {
      assert broker[id := sub][..n] == broker[..n];
    }
  }

  lemma {:induction false} HavingZero(broker: seq<Sub>, st: Status, subject: string)
    ensures Having(broker, st, subject) == 0 <==> Sub(subject, st) !in broker
  {
    if broker != [] {
      HavingZero(broker[..|broker| - 1], st, subject);
      assert broker == broker[..|broker| - 1] + [broker[|broker| - 1]];
    }
  }

  predicate Lost(c: Call) { c.Subscribe? && (c.at.Releasing? || (c.at.Answered? && c.at.outcome.AlreadySubscribed?)) }

  /** The books of one subject. Each success is an entry that is still there or has been removed; each
      live subscription is the entry or in hand; each stranded one is a refusal. */
  predicate Balanced(s: State, subject: string) {
    && Number(s.calls, Win, subject) == Number(s.calls, Removal, subject) + One(subject in s.table)
    && Having(s.broker, Live, subject) == One(subject in s.table) + Number(s.calls, Handful, subject)
    && Having(s.broker, Stranded, subject) ==
         Number(s.calls, RefusedUnsubscribe, subject) + Number(s.calls, RefusedRelease, subject)
  }

  ghost predicate BooksOk(s: State) { forall subject :: Balanced(s, subject) }

  /** Whoever found a subject taken came after somebody who had got it. */
  ghost predicate LostOk(s: State) {
    forall i | 0 <= i < |s.calls| && Lost(s.calls[i]) :: Number(s.calls, Win, s.calls[i].subject) >= 1
  }

  predicate NilOk(s: State) {
    forall i | 0 <= i < |s.calls| && s.calls[i].Subscribe? && s.calls[i].at == Answered(NilHandler) ::
      s.calls[i].nilHandler
  }

  predicate ConnectedOk(s: State) {
    forall i | 0 <= i < |s.calls| && s.calls[i].Subscribe? && s.calls[i].at == Answered(NotConnected) :: !s.connected
  }

  ghost predicate Ownership(s: State) { OwnedOk(s) && OwnersOk(s) && NilOk(s) && ConnectedOk(s) }

  ghost predicate Inv(s: State) { Ownership(s) && BooksOk(s) && LostOk(s) }

  // Every step keeps the owners

  /** The owners stay the same. */
  lemma OwnersStay(s: State, s': State)
    requires OwnersOk(s) && s'.broker == s.broker
    requires forall id: nat, o :: Owns(s', id, o) <==> Owns(s, id, o)
    ensures OwnersOk(s')
  {
    forall id | 0 <= id < |s'.broker| && s'.broker[id].status.Live?
      ensures exists o :: Owns(s', id, o)
    {
      var o :| Owns(s, id, o);
      assert Owns(s', id, o);
    }
  }

  /** What `a` owned of `id`, now `b` owns. */
  lemma OwnersPass(s: State, s': State, id: nat, a: Owner, b: Owner)
    requires OwnersOk(s) && s'.broker == s.broker && a != b && Owns(s, id, a)
    requires forall k: nat, o :: Owns(s', k, o) <==> (if k == id then o == b else Owns(s, k, o))
    ensures OwnersOk(s')
  {
    forall k | 0 <= k < |s'.broker| && s'.broker[k].status.Live?
      ensures exists o :: Owns(s', k, o)
    {
      if k == id {
        assert Owns(s', k, b);
      } else {
        var o :| Owns(s, k, o);
        assert Owns(s', k, o);
      }
    }
  }

  lemma OwnersRelease(s: State, s': State, id: nat)
    requires OwnersOk(s) && |s'.broker| == |s.broker| && id < |s.broker| && !s'.broker[id].status.Live?
    requires forall k | 0 <= k < |s.broker| && k != id :: s'.broker[k] == s.broker[k]
    requires forall k: nat, o :: Owns(s', k, o) <==> k != id && Owns(s, k, o)
    ensures OwnersOk(s')
  {
    forall k | 0 <= k < |s'.broker| && s'.broker[k].status.Live?
      ensures exists o :: Owns(s', k, o)
    {
      var o :| Owns(s, k, o);
      assert Owns(s', k, o);
    }
  }

  lemma OwnersGain(s: State, s': State, subject: string, i: nat)
    requires OwnersOk(s) && s'.broker == s.broker + [Sub(subject, Live)]
    requires forall k: nat, o :: Owns(s', k, o) <==> (if k == |s.broker| then o == TheCall(i) else Owns(s, k, o))
    ensures OwnersOk(s')
  {
    forall k | 0 <= k < |s'.broker| && s'.broker[k].status.Live?
      ensures exists o :: Owns(s', k, o)
    {
      if k == |s.broker| {
        assert Owns(s', k, TheCall(i));
      } else {
        var o :| Owns(s, k, o);
        assert Owns(s', k, o);
      }
    }
  }

  lemma OnlyCall(s: State, i: nat, id: nat)
    requires OwnersOk(s) && i < |s.calls| && InHand(s.calls[i]) == Has(id)
    ensures forall j | 0 <= j < |s.calls| && j != i :: InHand(s.calls[j]) != Has(id)
    ensures !Owns(s, id, TheTable)
  {
    assert Owns(s, id, TheCall(i));
    forall j | 0 <= j < |s.calls| && j != i
      ensures InHand(s.calls[j]) != Has(id)
    {
      assert Owns(s, id, TheCall(j)) <==> InHand(s.calls[j]) == Has(id);
    }
  }

  lemma OnlyTable(s: State, subject: string)
    requires OwnedOk(s) && OwnersOk(s) && subject in s.table
    ensures Owns(s, s.table[subject], TheTable)
    ensures forall j | 0 <= j < |s.calls| :: InHand(s.calls[j]) != Has(s.table[subject])
  {
    var id := s.table[subject];
    assert Owns(s, id, TheTable);
    forall j | 0 <= j < |s.calls|
      ensures InHand(s.calls[j]) != Has(id)
    {
      assert Owns(s, id, TheCall(j)) <==> InHand(s.calls[j]) == Has(id);
    }
  }

  /** A call moves on with empty hands. */
  lemma LooksKept(s: State, i: nat, p: SubPc)
    requires Ownership(s) && CanStep(s, i) && s.calls[i].Subscribe?
    requires s.calls[i].at.Checking? || s.calls[i].at.Asking?
    requires p.Asking? || (p.Answered? && p.outcome != Subscribed)
    requires p == Answered(NilHandler) ==> s.calls[i].nilHandler
    requires p == Answered(NotConnected) ==> !s.connected
    ensures Ownership(Moved(s, i, p))
  {
    OwnersStay(s, Moved(s, i, p)) by { hide OwnersOk; }
    hide OwnersOk;
  }

  lemma CheckingKept(s: State, i: nat, ok: bool)
    requires Ownership(s) && CanStep(s, i) && s.calls[i].Subscribe? && s.calls[i].at.Checking?
    ensures Ownership(StepSubscribe(s, i, ok))
  {
    hide Ownership;
    LooksKept(s, i, StepSubscribe(s, i, ok).calls[i].at);
  }

  lemma GrantedKept(s: State, i: nat)
    requires Ownership(s) && CanStep(s, i) && s.calls[i].Subscribe? && s.calls[i].at.Asking?
    ensures Ownership(StepSubscribe(s, i, true))
  {
    var s' := StepSubscribe(s, i, true);
    OwnersGain(s, s', s.calls[i].subject, i);
    hide OwnersOk;
  }

  lemma AskingKept(s: State, i: nat, ok: bool)
    requires Ownership(s) && CanStep(s, i) && s.calls[i].Subscribe? && s.calls[i].at.Asking?
    ensures Ownership(StepSubscribe(s, i, ok))
  {
    hide Ownership;
    if ok { GrantedKept(s, i); } else { LooksKept(s, i, Answered(Refused)); }
  }

  lemma LostRaceKept(s: State, i: nat, ok: bool)
    requires Ownership(s) && CanStep(s, i) && s.calls[i].Subscribe? && s.calls[i].at.Holding?
    requires s.calls[i].subject in s.table
    ensures Ownership(StepSubscribe(s, i, ok))
  {
    var s' := StepSubscribe(s, i, ok);
    OwnersStay(s, s') by { hide OwnersOk; }
    hide OwnersOk;
  }

  lemma EnteredKept(s: State, i: nat, ok: bool)
    requires Ownership(s) && CanStep(s, i) && s.calls[i].Subscribe? && s.calls[i].at.Holding?
    requires s.calls[i].subject !in s.table
    ensures Ownership(StepSubscribe(s, i, ok))
  {
    var s', id := StepSubscribe(s, i, ok), s.calls[i].at.id;
    OnlyCall(s, i, id);
    assert Owns(s, id, TheCall(i));
    OwnersPass(s, s', id, TheCall(i), TheTable) by { hide OwnersOk; }
    hide OwnersOk;
  }

  lemma HoldingKept(s: State, i: nat, ok: bool)
    requires Ownership(s) && CanStep(s, i) && s.calls[i].Subscribe? && s.calls[i].at.Holding?
    ensures Ownership(StepSubscribe(s, i, ok))
  {
    hide Ownership;
    if s.calls[i].subject in s.table { LostRaceKept(s, i, ok); } else { EnteredKept(s, i, ok); }
  }

  lemma ReleasingKept(s: State, i: nat, ok: bool)
    requires Ownership(s) && CanStep(s, i) && s.calls[i].Subscribe? && s.calls[i].at.Releasing?
    ensures Ownership(StepSubscribe(s, i, ok))
  {
    var s', id := StepSubscribe(s, i, ok), s.calls[i].at.id;
    OnlyCall(s, i, id);
    OwnersRelease(s, s', id) by { hide OwnersOk; }
    hide OwnersOk;
  }

  lemma TakingKept(s: State, i: nat, ok: bool)
    requires Ownership(s) && CanStep(s, i) && s.calls[i].Unsubscribe? && s.calls[i].stage.Taking?
    ensures Ownership(StepUnsubscribe(s, i, ok))
  {
    var s', subject := StepUnsubscribe(s, i, ok), s.calls[i].subject;
    if subject in s.table {
      OnlyTable(s, subject);
      OwnersPass(s, s', s.table[subject], TheTable, TheCall(i)) by { hide OwnersOk; }
    } else {
      OwnersStay(s, s') by { hide OwnersOk; }
    }
    hide OwnersOk;
  }

  lemma CancellingKept(s: State, i: nat, ok: bool)
    requires Ownership(s) && CanStep(s, i) && s.calls[i].Unsubscribe? && s.calls[i].stage.Cancelling?
    ensures Ownership(StepUnsubscribe(s, i, ok))
  {
    var s', id := StepUnsubscribe(s, i, ok), s.calls[i].stage.id;
    OnlyCall(s, i, id);
    OwnersRelease(s, s', id) by { hide OwnersOk; }
    hide OwnersOk;
  }

  lemma NewCallKept(s: State, c: Call)
    requires Ownership(s) && (c.Subscribe? ==> c.at.Checking?) && (c.Unsubscribe? ==> c.stage.Taking?)
    ensures Ownership(s.(calls := s.calls + [c]))
  {
    var s' := s.(calls := s.calls + [c]);
    assert s'.calls[..|s.calls|] == s.calls;
    OwnersStay(s, s');
  }

  lemma OwnersKept(s: State, l: Label)
    requires Ownership(s) && Enabled(s, l)
    ensures Ownership(Apply(s, l))
  {
    hide Ownership;
    match l {
      case CallSubscribe(subject, nilHandler) => NewCallKept(s, Subscribe(subject, nilHandler, Checking));
      case CallUnsubscribe(subject) => NewCallKept(s, Unsubscribe(subject, Taking));
      case Next(i, ok) =>
        hide StepSubscribe, StepUnsubscribe;
        match s.calls[i] {
          case Subscribe(_, _, Checking) => CheckingKept(s, i, ok);
          case Subscribe(_, _, Asking) => AskingKept(s, i, ok);
          case Subscribe(_, _, Holding(_)) => HoldingKept(s, i, ok);
          case Subscribe(_, _, Releasing(_)) => ReleasingKept(s, i, ok);
          case Unsubscribe(_, Taking) => TakingKept(s, i, ok);
          case Unsubscribe(_, Cancelling(_)) => CancellingKept(s, i, ok);
        }
    }
  }

  // Every step keeps the books

  /** What a step that turns call `c` into `c'` must do to the books of `c.subject`. */
  predicate Accounts(s: State, s': State, c: Call, c': Call) {
    var x, entry := c.subject, One(c.subject in s'.table) - One(c.subject in s.table);
    && c'.subject == x
    && One(Is(c', Win)) - One(Is(c, Win)) == One(Is(c', Removal)) - One(Is(c, Removal)) + entry
    && Having(s'.broker, Live, x) - Having(s.broker, Live, x) == entry + One(Is(c', Handful)) - One(Is(c, Handful))
    && Having(s'.broker, Stranded, x) - Having(s.broker, Stranded, x) ==
         One(Is(c', RefusedUnsubscribe)) - One(Is(c, RefusedUnsubscribe))
         + One(Is(c', RefusedRelease)) - One(Is(c, RefusedRelease))
  }

  /** The step touches no other subject. */
  predicate Apart(s: State, s': State, c: Call, x: string) {
    x != c.subject ==>
      && (x in s'.table <==> x in s.table)
      && Having(s'.broker, Live, x) == Having(s.broker, Live, x)
      && Having(s'.broker, Stranded, x) == Having(s.broker, Stranded, x)
  }

  lemma {:induction false} BrokerMoves(s: State, id: nat, ok: bool, x: string)
    requires id < |s.broker| && s.broker[id].status.Live?
    ensures var to := Marked(s.broker, id, ok);
            && Having(to, Live, x) == Having(s.broker, Live, x) - One(s.broker[id].subject == x)
            && Having(to, Stranded, x) == Having(s.broker, Stranded, x) + One(s.broker[id].subject == x && !ok)
  {
    var sub := s.broker[id].(status := if ok then Gone else Stranded);
    HavingUpdate(s.broker, id, sub, Live, x);
    HavingUpdate(s.broker, id, sub, Stranded, x);
  }

  lemma {:induction false} BrokerGains(s: State, sub: Sub, st: Status, x: string)
    ensures Having(s.broker + [sub], st, x) == Having(s.broker, st, x) + One(sub == Sub(x, st))
  {
    assert (s.broker + [sub])[..|s.broker|] == s.broker;
  }

  lemma CheckingAccounts(s: State, i: nat, ok: bool, x: string)
    requires OwnedOk(s) && CanStep(s, i) && s.calls[i].Subscribe? && s.calls[i].at.Checking?
    ensures var s' := StepSubscribe(s, i, ok);
            Accounts(s, s', s.calls[i], s'.calls[i]) && Apart(s, s', s.calls[i], x)
  {
    hide Having;
  }

  lemma AskingAccounts(s: State, i: nat, ok: bool, x: string)
    requires OwnedOk(s) && CanStep(s, i) && s.calls[i].Subscribe? && s.calls[i].at.Asking?
    ensures var s' := StepSubscribe(s, i, ok);
            Accounts(s, s', s.calls[i], s'.calls[i]) && Apart(s, s', s.calls[i], x)
  {
    var c := s.calls[i];
    BrokerGains(s, Sub(c.subject, Live), Live, x);
    BrokerGains(s, Sub(c.subject, Live), Stranded, x);
    BrokerGains(s, Sub(c.subject, Live), Live, c.subject);
    BrokerGains(s, Sub(c.subject, Live), Stranded, c.subject);
    hide Having;
  }

  lemma HoldingAccounts(s: State, i: nat, ok: bool, x: string)
    requires OwnedOk(s) && CanStep(s, i) && s.calls[i].Subscribe? && s.calls[i].at.Holding?
    ensures var s' := StepSubscribe(s, i, ok);
            Accounts(s, s', s.calls[i], s'.calls[i]) && Apart(s, s', s.calls[i], x)
  {
    hide Having;
  }

  lemma ReleasingAccounts(s: State, i: nat, ok: bool, x: string)
    requires OwnedOk(s) && CanStep(s, i) && s.calls[i].Subscribe? && s.calls[i].at.Releasing?
    ensures var s' := StepSubscribe(s, i, ok);
            Accounts(s, s', s.calls[i], s'.calls[i]) && Apart(s, s', s.calls[i], x)
  {
    BrokerMoves(s, s.calls[i].at.id, ok, x);
    BrokerMoves(s, s.calls[i].at.id, ok, s.calls[i].subject);
    hide Having;
  }

  lemma SubscribeAccounts(s: State, i: nat, ok: bool, x: string)
    requires OwnedOk(s) && CanStep(s, i) && s.calls[i].Subscribe?
    ensures var s' := StepSubscribe(s, i, ok);
            Accounts(s, s', s.calls[i], s'.calls[i]) && Apart(s, s', s.calls[i], x)
  {
    hide OwnedOk, StepSubscribe, Accounts, Apart;
    match s.calls[i].at {
      case Checking => CheckingAccounts(s, i, ok, x);
      case Asking => AskingAccounts(s, i, ok, x);
      case Holding(_) => HoldingAccounts(s, i, ok, x);
      case Releasing(_) => ReleasingAccounts(s, i, ok, x);
    }
  }

  lemma TakingAccounts(s: State, i: nat, ok: bool, x: string)
    requires OwnedOk(s) && CanStep(s, i) && s.calls[i].Unsubscribe? && s.calls[i].stage.Taking?
    ensures var s' := StepUnsubscribe(s, i, ok);
            Accounts(s, s', s.calls[i], s'.calls[i]) && Apart(s, s', s.calls[i], x)
  {
    hide Having;
  }

  lemma CancellingAccounts(s: State, i: nat, ok: bool, x: string)
    requires OwnedOk(s) && CanStep(s, i) && s.calls[i].Unsubscribe? && s.calls[i].stage.Cancelling?
    ensures var s' := StepUnsubscribe(s, i, ok);
            Accounts(s, s', s.calls[i], s'.calls[i]) && Apart(s, s', s.calls[i], x)
  {
    BrokerMoves(s, s.calls[i].stage.id, ok, x);
    BrokerMoves(s, s.calls[i].stage.id, ok, s.calls[i].subject);
    hide Having;
  }

  lemma UnsubscribeAccounts(s: State, i: nat, ok: bool, x: string)
    requires OwnedOk(s) && CanStep(s, i) && s.calls[i].Unsubscribe?
    ensures var s' := StepUnsubscribe(s, i, ok);
            Accounts(s, s', s.calls[i], s'.calls[i]) && Apart(s, s', s.calls[i], x)
  {
    hide OwnedOk, StepUnsubscribe, Accounts, Apart;
    if s.calls[i].stage.Taking? { TakingAccounts(s, i, ok, x); } else { CancellingAccounts(s, i, ok, x); }
  }

  lemma AccountsBalance(s: State, s': State, i: nat, x: string)
    requires Balanced(s, x) && i < |s.calls| == |s'.calls| && s'.calls == s.calls[i := s'.calls[i]]
    requires Accounts(s, s', s.calls[i], s'.calls[i]) && Apart(s, s', s.calls[i], x)
    ensures Balanced(s', x)
  {
    hide Number, Having, Is;
    var c' := s'.calls[i];
    NumberUpdate(s.calls, i, c', Win, x);
    NumberUpdate(s.calls, i, c', Removal, x);
    NumberUpdate(s.calls, i, c', Handful, x);
    NumberUpdate(s.calls, i, c', RefusedUnsubscribe, x);
    NumberUpdate(s.calls, i, c', RefusedRelease, x);
  }

  lemma CallAppended(s: State, c: Call, x: string)
    requires Balanced(s, x) && (c.Subscribe? ==> c.at.Checking?) && (c.Unsubscribe? ==> c.stage.Taking?)
    ensures Balanced(s.(calls := s.calls + [c]), x)
  {
    assert (s.calls + [c])[..|s.calls|] == s.calls;
  }

  lemma StepBalances(s: State, l: Label, x: string)
    requires OwnedOk(s) && Balanced(s, x) && Enabled(s, l)
    ensures Balanced(Apply(s, l), x)
  {
    hide OwnedOk, Balanced, StepSubscribe, StepUnsubscribe, Accounts, Apart;
    match l {
      case CallSubscribe(subject, nilHandler) => CallAppended(s, Subscribe(subject, nilHandler, Checking), x);
      case CallUnsubscribe(subject) => CallAppended(s, Unsubscribe(subject, Taking), x);
      case Next(i, ok) =>
        if s.calls[i].Subscribe? { SubscribeAccounts(s, i, ok, x); } else { UnsubscribeAccounts(s, i, ok, x); }
        AccountsBalance(s, Step(s, i, ok), i, x);
    }
  }

  /** The number of successes never falls, and who has just found the subject taken found an entry. */
  lemma StepLoses(s: State, i: nat, ok: bool)
    requires CanStep(s, i)
    ensures var c, c' := s.calls[i], Step(s, i, ok).calls[i];
            && c'.subject == c.subject && !Is(c, Win)
            && (Lost(c') ==> c.subject in s.table || Lost(c))
  {
  }

  lemma NextLostKept(s: State, i: nat, ok: bool)
    requires BooksOk(s) && LostOk(s) && CanStep(s, i)
    ensures LostOk(Step(s, i, ok))
  {
    StepLoses(s, i, ok);
    assert Balanced(s, s.calls[i].subject);
    hide Step, Is, BooksOk;
    var s' := Step(s, i, ok);
    forall j | 0 <= j < |s'.calls| && Lost(s'.calls[j])
      ensures Number(s'.calls, Win, s'.calls[j].subject) >= 1
    {
      NumberUpdate(s.calls, i, s'.calls[i], Win, s'.calls[j].subject);
    }
  }

  lemma LostKept(s: State, l: Label)
    requires BooksOk(s) && LostOk(s) && Enabled(s, l)
    ensures LostOk(Apply(s, l))
  {
    if l.Next? {
      hide BooksOk, LostOk, Step;
      NextLostKept(s, l.i, l.ok);
    } else {
      hide BooksOk;
      assert Apply(s, l).calls[..|s.calls|] == s.calls;
    }
  }

  lemma StepKept(s: State, l: Label)
    requires Inv(s) && Enabled(s, l)
    ensures Inv(Apply(s, l))
  {
    assert OwnedOk(s) && BooksOk(s) && LostOk(s);
    hide OwnedOk, OwnersOk, NilOk, ConnectedOk, LostOk, Balanced, Enabled, Apply;
    OwnersKept(s, l);
    forall x
      ensures Balanced(Apply(s, l), x)
    {
      StepBalances(s, l, x);
    }
    LostKept(s, l);
  }

  lemma {:induction false} RunKept(s: State, ls: seq<Label>)
    requires Inv(s) && IsRun(s, ls)
    ensures Inv(After(s, ls)) && After(s, ls).connected == s.connected
    decreases |ls|
  {
    hide Inv;
    if ls != [] {
      StepKept(s, ls[0]);
      RunKept(Apply(s, ls[0]), ls[1..]);
    }
  }

  lemma ReachableInv(s: State)
    requires Reachable(s)
    ensures Inv(s)
  {
    var ls: seq<Label> :| Reaches(s.connected, ls, s);
    RunKept(Init(s.connected), ls);
  }
}
