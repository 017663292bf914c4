/** The client's subject table as an object: Subscribe and Unsubscribe with the control flow of the
    program, changing the table in place. Between any two sections of a call the calls of other
    goroutines go on as `plan` says. `Valid()` says that the steps taken so far are a run of the
    state machine; every method goes on with that run. */
module NatsClient {
  import opened NatsModel
  import opened NatsOwnership

  class Client {
    const connected: bool
    var subs: map<string, nat>
    var broker: seq<Sub>
    var calls: seq<Call>
    var plan: seq<seq<Label>>
    ghost var trace: seq<Label>

    ghost function Abs(): State
      reads this
    {
      State(connected, subs, broker, calls)
    }

    /** `trace` is a run of the machine that leads to where the object is. */
    ghost predicate Valid()
      reads this
    {
      Reaches(connected, trace, Abs())
    }

    constructor (connected: bool, plan: seq<seq<Label>>)
      ensures Valid() && Abs() == Init(connected) && this.plan == plan
    {
      this.connected := connected;
      this.plan := plan;
      subs, broker, calls, trace := map[], [], [], [];
      new;
      assert Reaches(connected, [], Init(connected));
    }

    ghost method Stepped(s: State, l: Label)
      requires Reaches(connected, trace, s) && Enabled(s, l) && Abs() == Apply(s, l)
      modifies this`trace
      ensures Valid() && trace == old(trace) + [l]
    {
      hide Enabled, Apply;
      assert [l][1..] == [] && IsRun(s, [l]) && After(s, [l]) == Abs();
      RunAppend(Init(connected), trace, [l]);
      trace := trace + [l];
    }

    // The sections of Subscribe. `i` is the call that runs.

    ghost predicate Runs(i: nat, at: SubPc)
      reads this
    {
      i < |calls| && calls[i].Subscribe? && calls[i].at == at
    }

    method Begin(c: Call) returns (i: nat)
      requires Valid() && (c.Subscribe? ==> c.at.Checking?) && (c.Unsubscribe? ==> c.stage.Taking?)
      modifies this`trace, this`calls
      ensures Valid() && i == |old(calls)| && calls == old(calls) + [c] && old(trace) < trace
    {
      hide Reaches;
      ghost var s := Abs();
      i := |calls|;
      calls := calls + [c];
      Stepped(s, if c.Subscribe? then CallSubscribe(c.subject, c.nilHandler) else CallUnsubscribe(c.subject));
    }

    /** The checks before the broker is asked. */
    method Check(i: nat) returns (p: SubPc)
      requires Valid() && Runs(i, Checking)
      modifies this`trace, this`calls
      ensures Valid() && Abs() == Step(old(Abs()), i, true) && trace == old(trace) + [Next(i, true)] && Runs(i, p)
      ensures p == if calls[i].nilHandler then Answered(NilHandler)
                   else if calls[i].subject in subs then Answered(AlreadySubscribed(false))
                   else if !connected then Answered(NotConnected)
                   else Asking
    {
      hide Reaches;
      ghost var s := Abs();
      var c := calls[i];
      if c.nilHandler {
        p := Answered(NilHandler);
      } else if c.subject in subs {
        p := Answered(AlreadySubscribed(false));
      } else if !connected {
        p := Answered(NotConnected);
      } else {
        p := Asking;
      }
      calls := calls[i := c.(at := p)];
      Stepped(s, Next(i, true));
    }

    /** nc.Subscribe */
    method Ask(i: nat, ok: bool) returns (p: SubPc)
      requires Valid() && Runs(i, Asking)
      modifies this`trace, this`broker, this`calls
      ensures Valid() && Abs() == Step(old(Abs()), i, ok) && trace == old(trace) + [Next(i, ok)] && Runs(i, p)
      ensures p == if ok then Holding(|old(broker)|) else Answered(Refused)
    {
      hide Reaches;
      ghost var s := Abs();
      if ok {
        p := Holding(|broker|);
        broker := broker + [Sub(calls[i].subject, Live)];
      } else {
        p := Answered(Refused);
      }
      calls := calls[i := calls[i].(at := p)];
      Stepped(s, Next(i, ok));
    }

    /** The second look at the table, which enters the subscription if the subject is still free. */
    method Enter(i: nat, id: nat) returns (p: SubPc)
      requires Valid() && Runs(i, Holding(id))
      modifies this`trace, this`subs, this`calls
      ensures Valid() && Abs() == Step(old(Abs()), i, true) && trace == old(trace) + [Next(i, true)] && Runs(i, p)
      ensures p == if calls[i].subject in old(subs) then Releasing(id) else Answered(Subscribed)
    {
      hide Reaches;
      ghost var s := Abs();
      var c := calls[i];
      if c.subject in subs {
        p := Releasing(id);
      } else {
        subs := subs[c.subject := id];
        p := Answered(Subscribed);
      }
      calls := calls[i := c.(at := p)];
      Stepped(s, Next(i, true));
    }

    /** sub.Unsubscribe of the loser; the error is dropped. */
    method Release(i: nat, id: nat, ok: bool)
      requires Valid() && Runs(i, Releasing(id))
      modifies this`trace, this`broker, this`calls
      ensures Valid() && Abs() == Step(old(Abs()), i, ok)
      ensures trace == old(trace) + [Next(i, ok)] && Runs(i, Answered(AlreadySubscribed(!ok)))
    {
      hide Reaches;
      ghost var s := Abs();
      if id < |broker| {
        broker := broker[id := broker[id].(status := if ok then Gone else Stranded)];
      }
      calls := calls[i := calls[i].(at := Answered(AlreadySubscribed(!ok)))];
      Stepped(s, Next(i, ok));
    }

    // The sections of Unsubscribe

    ghost predicate Ends(i: nat, stage: UnsubPc)
      reads this
    {
      i < |calls| && calls[i].Unsubscribe? && calls[i].stage == stage
    }

    method Take(i: nat) returns (p: UnsubPc)
      requires Valid() && Ends(i, Taking)
      modifies this`trace, this`subs, this`calls
      ensures Valid() && Abs() == Step(old(Abs()), i, true) && trace == old(trace) + [Next(i, true)] && Ends(i, p)
      ensures p == if calls[i].subject in old(subs) then Cancelling(old(subs)[calls[i].subject])
                   else Finished(NothingThere)
    {
      hide Reaches;
      ghost var s := Abs();
      var c := calls[i];
      if c.subject in subs {
        p := Cancelling(subs[c.subject]);
        subs := subs - {c.subject};
      } else {
        p := Finished(NothingThere);
      }
      calls := calls[i := c.(stage := p)];
      Stepped(s, Next(i, true));
    }

    /** sub.Unsubscribe of the entry taken out. */
    method Cancel(i: nat, id: nat, ok: bool)
      requires Valid() && Ends(i, Cancelling(id))
      modifies this`trace, this`broker, this`calls
      ensures Valid() && Abs() == Step(old(Abs()), i, ok)
      ensures trace == old(trace) + [Next(i, ok)] && Ends(i, Finished(if ok then Removed else Failed))
    {
      hide Reaches;
      ghost var s := Abs();
      if id < |broker| {
        broker := broker[id := broker[id].(status := if ok then Gone else Stranded)];
      }
      calls := calls[i := calls[i].(stage := Finished(if ok then Removed else Failed))];
      Stepped(s, Next(i, ok));
    }

    // The other goroutines

    /** One section of call `i`, if it has not returned. */
    method Advance(i: nat, ok: bool)
      requires Valid() && i < |calls|
      modifies this`trace, this`subs, this`broker, this`calls
      ensures Valid() && old(trace) <= trace
      ensures Abs() == if CanStep(old(Abs()), i) then Step(old(Abs()), i, ok) else old(Abs())
    {
      hide Reaches;
      match calls[i] {
        case Subscribe(_, _, Checking) => var _ := Check(i);
        case Subscribe(_, _, Asking) => var _ := Ask(i, ok);
        case Subscribe(_, _, Holding(id)) => var _ := Enter(i, id);
        case Subscribe(_, _, Releasing(id)) => Release(i, id, ok);
        case Subscribe(_, _, Answered(_)) =>
        case Unsubscribe(_, Taking) => var _ := Take(i);
        case Unsubscribe(_, Cancelling(id)) => Cancel(i, id, ok);
        case Unsubscribe(_, Finished(_)) =>
      }
    }

    /** Whatever the other goroutines do before call `me` goes on. */
    method Others(me: nat)
      requires Valid() && me < |calls|
      modifies this
      ensures Valid() && old(trace) <= trace && |calls| >= |old(calls)| && calls[me] == old(calls[me])
      ensures old(plan) == [] ==> plan == [] && Abs() == old(Abs())
    {
      hide Reaches;
      if plan != [] {
        var batch := plan[0];
        plan := plan[1..];
        for n := 0 to |batch|
          invariant Valid() && old(trace) <= trace && |calls| >= |old(calls)| && calls[me] == old(calls[me])
        {
          match batch[n] {
            case CallSubscribe(subject, nilHandler) => var _ := Begin(Call.Subscribe(subject, nilHandler, Checking));
            case CallUnsubscribe(subject) => var _ := Begin(Call.Unsubscribe(subject, Taking));
            case Next(i, ok) => if i < |calls| && i != me { Advance(i, ok); }
          }
        }
      }
    }

    // The two operations

    /** Subscribe from the broker's consent on: enter the subscription, or give it back. */
    method Secure(me: nat, id: nat, takesBack: bool) returns (r: Outcome)
      requires Valid() && Runs(me, Holding(id))
      modifies this
      ensures Valid() && old(trace) <= trace && |calls| >= |old(calls)|
      ensures Runs(me, Answered(r)) && calls[me].subject == old(calls)[me].subject
      ensures r == Subscribed || r == AlreadySubscribed(!takesBack)
      ensures old(plan) == [] && old(calls)[me].subject !in old(subs) ==>
                r == Subscribed && subs == old(subs)[calls[me].subject := id] && broker == old(broker)
    {
      hide Reaches;
      Others(me);
      var p := Enter(me, id);
      if p.Answered? { return p.outcome; }
      Others(me);
      Release(me, id, takesBack);
      r := AlreadySubscribed(!takesBack);
    }

    /** `grants` and `takesBack` are what the broker answers, if it is asked. Undisturbed, the call enters a
        new live subscription exactly when there is a handler, a free subject, a connection and the
        broker's consent, and changes nothing otherwise; disturbed, the result is still the answer of the
        machine for this call. */
    method Subscribe(subject: string, nilHandler: bool, grants: bool, takesBack: bool)
      returns (r: Outcome, ghost i: nat)
      requires Valid()
      modifies this
      ensures Valid() && old(trace) <= trace && i >= |old(calls)| && Runs(i, Answered(r)) && calls[i].subject == subject
      ensures nilHandler <==> r == NilHandler
      ensures r == NotConnected ==> !connected
      ensures r == Refused ==> !grants
      ensures r == Subscribed || r == AlreadySubscribed(true) ==> grants && connected
      ensures r == AlreadySubscribed(true) ==> !takesBack
      ensures old(plan) == [] && !nilHandler ==>
                && (r == AlreadySubscribed(false) <==> subject in old(subs)) && r != AlreadySubscribed(true)
                && (r == Subscribed ==>
                      subs == old(subs)[subject := |old(broker)|] && broker == old(broker) + [Sub(subject, Live)])
                && (r != Subscribed ==> subs == old(subs) && broker == old(broker))
                && (r == Subscribed <==> subject !in old(subs) && connected && grants)
                && (r == Refused <==> subject !in old(subs) && connected && !grants)
    {
      hide Reaches;
      var me := Begin(Call.Subscribe(subject, nilHandler, Checking));
      i := me;
      Others(me);
      var p := Check(me);
      if p.Answered? { return p.outcome, me; }
      Others(me);
      p := Ask(me, grants);
      if p.Answered? { return p.outcome, me; }
      r := Secure(me, p.id, takesBack);
    }

    /** Undisturbed, it removes the entry, if there is one, and cancels that subscription and no other. */
    method Unsubscribe(subject: string, takesBack: bool) returns (r: Ending, ghost i: nat)
      requires Valid()
      modifies this
      ensures Valid() && old(trace) <= trace && i >= |old(calls)| && Ends(i, Finished(r)) && calls[i].subject == subject
      ensures r != NothingThere ==> r == if takesBack then Removed else Failed
      ensures old(plan) == [] ==>
                && (r == NothingThere <==> subject !in old(subs))
                && subs == old(subs) - {subject}
                && broker == if subject in old(subs) then Marked(old(broker), old(subs)[subject], r == Removed)
                             else old(broker)
    {
      hide Reaches;
      var me := Begin(Call.Unsubscribe(subject, Taking));
      i := me;
      Others(me);
      var p := Take(me);
      if p.Finished? { return p.ending, me; }
      Others(me);
      Cancel(me, p.id, takesBack);
      r := if takesBack then Removed else Failed;
    }
  }
}
