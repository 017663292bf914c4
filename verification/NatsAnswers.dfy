/** What a caller is told is what the broker has answered: a call reports a refusal exactly when the
    broker refused it, and a success only when the broker agreed. */
module NatsAnswers {
  import opened NatsModel
  import opened NatsOwnership
  import opened NatsTheorems

  /** What the broker said when it was asked. */
  datatype Word = NotAsked | Yes | No

  function Say(ok: bool): Word { if ok then Yes else No }

  predicate Subscribes(s: State, i: nat) { i < |s.calls| && s.calls[i].Subscribe? && s.calls[i].at.Asking? }

  predicate GivesBack(s: State, i: nat) {
    i < |s.calls| && if s.calls[i].Subscribe? then s.calls[i].at.Releasing? else s.calls[i].stage.Cancelling?
  }

  /** The answer that call `i` got in the run to its request for a subscription. */
  function Consent(s: State, ls: seq<Label>, i: nat): Word
    requires IsRun(s, ls)
    decreases |ls|
  {
    if ls == [] then NotAsked
    else if ls[0].Next? && ls[0].i == i && Subscribes(s, i) then Say(ls[0].ok)
    else Consent(Apply(s, ls[0]), ls[1..], i)
  }

  /** ... and to its request to take a subscription back. */
  function TakenBack(s: State, ls: seq<Label>, i: nat): Word
    requires IsRun(s, ls)
    decreases |ls|
  {
    if ls == [] then NotAsked
    else if ls[0].Next? && ls[0].i == i && GivesBack(s, i) then Say(ls[0].ok)
    else TakenBack(Apply(s, ls[0]), ls[1..], i)
  }

  /** A call of Subscribe that has not got an answer yet. */
  predicate Before(at: SubPc) { at.Checking? || at.Asking? }

  /** What is left to be told to a call that is here. */
  predicate SubscribeTold(at: SubPc, end: SubPc, consent: Word, back: Word) {
    && (Before(at) ==> (end == Answered(Refused) <==> consent == No))
    && (Before(at) && (end.Holding? || end.Releasing? || end == Answered(Subscribed)) ==> consent == Yes)
    && (Before(at) && end == Answered(AlreadySubscribed(true)) ==> consent == Yes)
    && (!Before(at) ==> consent == NotAsked && (end == Answered(Refused) <==> at == Answered(Refused)))
    && (!at.Answered? ==> (end == Answered(AlreadySubscribed(true)) <==> back == No))
    && (at.Answered? ==> end == at && back == NotAsked)
  }

  predicate UnsubscribeTold(stage: UnsubPc, end: UnsubPc, back: Word) {
    && (!stage.Finished? ==> (end == Finished(Failed) <==> back == No) && (end == Finished(Removed) <==> back == Yes))
    && (stage.Finished? ==> end == stage && back == NotAsked)
  }

  predicate Told(s: State, s': State, i: nat, consent: Word, back: Word)
    requires i < |s'.calls|
  {
    if s'.calls[i].Subscribe? then
      var at := if i < |s.calls| && s.calls[i].Subscribe? then s.calls[i].at else Checking;
      SubscribeTold(at, s'.calls[i].at, consent, back)
    else
      var stage := if i < |s.calls| && s.calls[i].Unsubscribe? then s.calls[i].stage else Taking;
      UnsubscribeTold(stage, s'.calls[i].stage, back)
  }

  /** One step, and then the rest of the run. */
  lemma StepTells(s: State, l: Label, s': State, i: nat, consent: Word, back: Word)
    requires Enabled(s, l) && |Apply(s, l).calls| <= |s'.calls| && i < |s'.calls|
    requires i < |Apply(s, l).calls| ==> s'.calls[i].Subscribe? == Apply(s, l).calls[i].Subscribe?
    requires Told(Apply(s, l), s', i, consent, back)
    ensures i < |s.calls| ==> s'.calls[i].Subscribe? == s.calls[i].Subscribe?
    ensures var now := l.Next? && l.i == i;
            Told(s, s', i, if now && Subscribes(s, i) then Say(l.ok) else consent,
                 if now && GivesBack(s, i) then Say(l.ok) else back)
  {
  }

  lemma {:induction false} RunTells(s: State, ls: seq<Label>, i: nat)
    requires IsRun(s, ls) && i < |After(s, ls).calls|
    ensures |s.calls| <= |After(s, ls).calls|
    ensures i < |s.calls| ==> After(s, ls).calls[i].Subscribe? == s.calls[i].Subscribe?
    ensures Told(s, After(s, ls), i, Consent(s, ls, i), TakenBack(s, ls, i))
    decreases |ls|
  {
    if ls != [] {
      hide Told, Enabled, Apply, Subscribes, GivesBack;
      RunTells(Apply(s, ls[0]), ls[1..], i);
      var s1, rest := Apply(s, ls[0]), ls[1..];
      StepTells(s, ls[0], After(s, ls), i, Consent(s1, rest, i), TakenBack(s1, rest, i));
    }
  }

  /** Subscribe reports a refusal exactly when the broker refused the subscription, a success only when it
      granted it, and it strands a subscription exactly when the broker refused to take it back. */
  lemma {:induction false} SubscribeIsTold(connected: bool, ls: seq<Label>, s: State, i: nat)
    requires Reaches(connected, ls, s) && i < |s.calls| && s.calls[i].Subscribe?
    ensures s.calls[i].at == Answered(Refused) <==> Consent(Init(connected), ls, i) == No
    ensures s.calls[i].at == Answered(Subscribed) ==> Consent(Init(connected), ls, i) == Yes
    ensures s.calls[i].at == Answered(AlreadySubscribed(true)) <==> TakenBack(Init(connected), ls, i) == No
  {
    RunTells(Init(connected), ls, i);
    hide IsRun, After, Consent, TakenBack;
  }

  /** Unsubscribe reports a removal exactly when the broker took the subscription back, and an error
      exactly when it refused to. */
  lemma {:induction false} UnsubscribeIsTold(connected: bool, ls: seq<Label>, s: State, i: nat)
    requires Reaches(connected, ls, s) && i < |s.calls| && s.calls[i].Unsubscribe?
    ensures s.calls[i].stage == Finished(Removed) <==> TakenBack(Init(connected), ls, i) == Yes
    ensures s.calls[i].stage == Finished(Failed) <==> TakenBack(Init(connected), ls, i) == No
  {
    RunTells(Init(connected), ls, i);
    hide IsRun, After, Consent, TakenBack;
  }

  // Every call ends

  function StepsLeft(c: Call): nat {
    match c
    case Subscribe(_, _, Checking) => 4
    case Subscribe(_, _, Asking) => 3
    case Subscribe(_, _, Holding(_)) => 2
    case Subscribe(_, _, Releasing(_)) => 1
    case Subscribe(_, _, Answered(_)) => 0
    case Unsubscribe(_, Taking) => 2
    case Unsubscribe(_, Cancelling(_)) => 1
    case Unsubscribe(_, Finished(_)) => 0
  }

  /** No call waits for another: as long as it has not returned it can go on, and it returns after at most
      four steps of its own, whatever the broker answers and whatever else runs in between. */
  lemma CallsEnd(s: State, i: nat, ok: bool)
    requires i < |s.calls|
    ensures Done(s.calls[i]) <==> !Enabled(s, Next(i, ok))
    ensures Enabled(s, Next(i, ok)) ==>
              var s' := Apply(s, Next(i, ok));
              && StepsLeft(s'.calls[i]) < StepsLeft(s.calls[i]) <= 4
              && forall j | 0 <= j < |s.calls| && j != i :: s'.calls[j] == s.calls[j]
  {
  }
}
