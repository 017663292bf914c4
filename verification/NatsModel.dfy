/** Who owns a subject: Subscribe and Unsubscribe of nats/nats_client.go as a state machine.

    Both calls look at the table under the mutex and talk to the broker without it. A step is one
    section under the mutex or one call to the broker, which may refuse both to subscribe and to
    unsubscribe. One connection stays in place, or none is there at all; the circuit breaker is
    left out. */
module NatsModel {

  /** `Stranded`: the broker refused to unsubscribe, and nobody is going to ask again. */
  datatype Status = Live | Gone | Stranded

  /** A subscription that nc.Subscribe returned. */
  datatype Sub = Sub(subject: string, status: Status)

  /** The answer to a call of Subscribe. `stranded` says that the broker refused to take back the
      subscription of a call that had lost the race; the caller does not learn of it. */
  datatype Outcome = Subscribed | AlreadySubscribed(stranded: bool) | NotConnected | NilHandler | Refused

  datatype Ending = NothingThere | Removed | Failed

  datatype SubPc = Checking | Asking | Holding(id: nat) | Releasing(id: nat) | Answered(outcome: Outcome)

  datatype UnsubPc = Taking | Cancelling(id: nat) | Finished(ending: Ending)

  /** A call of Subscribe or of Unsubscribe and how far it has come. */
  datatype Call =
    | Subscribe(subject: string, nilHandler: bool, at: SubPc)
    | Unsubscribe(subject: string, stage: UnsubPc)

  datatype State = State(connected: bool, table: map<string, nat>, broker: seq<Sub>, calls: seq<Call>)

  function Init(connected: bool): State { State(connected, map[], [], []) }

  function Moved(s: State, i: nat, p: SubPc): State
    requires i < |s.calls| && s.calls[i].Subscribe?
  {
    s.(calls := s.calls[i := s.calls[i].(at := p)])
  }

  function Staged(s: State, i: nat, p: UnsubPc): State
    requires i < |s.calls| && s.calls[i].Unsubscribe?
  {
    s.(calls := s.calls[i := s.calls[i].(stage := p)])
  }

  function Marked(broker: seq<Sub>, id: nat, ok: bool): (r: seq<Sub>)
    ensures |r| == |broker|
  {
    if id < |broker| then broker[id := broker[id].(status := if ok then Gone else Stranded)] else broker
  }

  predicate CanStep(s: State, i: nat) {
    && i < |s.calls|
    && match s.calls[i] {
         case Subscribe(_, _, at) => !at.Answered?
         case Unsubscribe(_, stage) => !stage.Finished?
       }
  }

  /** The next step of Subscribe; `ok` is what the broker answers, if it is asked. */
  function StepSubscribe(s: State, i: nat, ok: bool): (r: State)
    requires CanStep(s, i) && s.calls[i].Subscribe?
    ensures |r.calls| == |s.calls| && r.calls == s.calls[i := r.calls[i]]
  {
    var c := s.calls[i];
    match c.at
    case Checking =>
      if c.nilHandler then Moved(s, i, Answered(NilHandler))
      else if c.subject in s.table then Moved(s, i, Answered(AlreadySubscribed(false)))
      else if !s.connected then Moved(s, i, Answered(NotConnected))
      else Moved(s, i, Asking)
    case Asking =>
      if !ok then Moved(s, i, Answered(Refused))
      else Moved(s, i, Holding(|s.broker|)).(broker := s.broker + [Sub(c.subject, Live)])
    case Holding(id) =>
      if c.subject in s.table then Moved(s, i, Releasing(id))
      else Moved(s, i, Answered(Subscribed)).(table := s.table[c.subject := id])
    case Releasing(id) =>
      Moved(s, i, Answered(AlreadySubscribed(!ok))).(broker := Marked(s.broker, id, ok))
  }

  function StepUnsubscribe(s: State, i: nat, ok: bool): (r: State)
    requires CanStep(s, i) && s.calls[i].Unsubscribe?
    ensures |r.calls| == |s.calls| && r.calls == s.calls[i := r.calls[i]]
  {
    var c := s.calls[i];
    match c.stage
    case Taking =>
      if c.subject in s.table then Staged(s, i, Cancelling(s.table[c.subject])).(table := s.table - {c.subject})
      else Staged(s, i, Finished(NothingThere))
    case Cancelling(id) =>
      Staged(s, i, Finished(if ok then Removed else Failed)).(broker := Marked(s.broker, id, ok))
  }

  function Step(s: State, i: nat, ok: bool): (r: State)
    requires CanStep(s, i)
    ensures |r.calls| == |s.calls| && r.calls == s.calls[i := r.calls[i]]
  {
    if s.calls[i].Subscribe? then StepSubscribe(s, i, ok) else StepUnsubscribe(s, i, ok)
  }

  datatype Label =
    | CallSubscribe(subject: string, nilHandler: bool)
    | CallUnsubscribe(subject: string)
    | Next(i: nat, ok: bool)

  predicate Enabled(s: State, l: Label) { l.Next? ==> CanStep(s, l.i) }

  function Apply(s: State, l: Label): State
    requires Enabled(s, l)
  {
    match l
    case CallSubscribe(subject, nilHandler) => s.(calls := s.calls + [Subscribe(subject, nilHandler, Checking)])
    case CallUnsubscribe(subject) => s.(calls := s.calls + [Unsubscribe(subject, Taking)])
    case Next(i, ok) => Step(s, i, ok)
  }

  predicate IsRun(s: State, ls: seq<Label>)
    decreases |ls|
  {
    ls == [] || (Enabled(s, ls[0]) && IsRun(Apply(s, ls[0]), ls[1..]))
  }

  function After(s: State, ls: seq<Label>): State
    requires IsRun(s, ls)
    decreases |ls|
  {
    if ls == [] then s else After(Apply(s, ls[0]), ls[1..])
  }

  lemma {:induction false} RunAppend(s: State, a: seq<Label>, b: seq<Label>)
    requires IsRun(s, a) && IsRun(After(s, a), b)
    ensures IsRun(s, a + b) && After(s, a + b) == After(After(s, a), b)
    decreases |a|
  {
    hide Enabled, Apply;
    if a == [] {
      assert a + b == b;
    } else {
      RunAppend(Apply(s, a[0]), a[1..], b);
      assert (a + b)[0] == a[0] && (a + b)[1..] == a[1..] + b;
    }
  }

  ghost predicate Reaches(connected: bool, ls: seq<Label>, s: State) {
    IsRun(Init(connected), ls) && After(Init(connected), ls) == s
  }

  ghost predicate Reachable(s: State) {
    exists ls: seq<Label> :: Reaches(s.connected, ls, s)
  }
}
