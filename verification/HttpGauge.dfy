/** One MetricsMiddleware under any number of concurrent requests: the gauge and the counters as a
    state machine over the steps of the requests, in any interleaving, with panics in init, handlers
    and route functions. */
module HttpGauge {
  import opened HttpPath
  import opened HttpModel
  import opened HttpTheorems

  datatype Kind = Healthcheck | Reduced | Plain

  datatype Class = Counted | CountedHealth | Skipped | Unlabelled | InitPanicked

  /** Where a request is: before the middleware, after init and before the gauge, in the handler, in
      the deferred function, before the gauge comes down, or done. `failed` says that it is panicking. */
  datatype Stage =
    | Arrived | Entering | InHandler | Labelling(failed: bool)
    | Leaving(class_: Class, failed: bool) | Finished(class_: Class, failed: bool)

  datatype Req = Req(kind: Kind, at: Stage)

  datatype State = State(plan: Plan, once: bool, inflight: int, requests: nat, health: nat, reqs: seq<Req>)

  function Init(plan: Plan): State { State(plan, false, 0, 0, 0, []) }

  predicate CanStep(s: State, i: nat) { i < |s.reqs| && !s.reqs[i].at.Finished? }

  function At(s: State, i: nat, p: Stage): State
    requires i < |s.reqs|
  {
    s.(reqs := s.reqs[i := s.reqs[i].(at := p)])
  }

  /** `panics` says whether the handler ends by a panic, or whether the route function does. */
  function Step(s: State, i: nat, panics: bool): (r: State)
    requires CanStep(s, i)
    ensures |r.reqs| == |s.reqs| && r.reqs == s.reqs[i := r.reqs[i]] && r.plan == s.plan && (s.once ==> r.once)
  {
    var q := s.reqs[i];
    match q.at
    case Arrived =>
      if q.kind.Reduced? then At(s, i, InHandler)
      else if !s.once && s.plan.panics then At(s, i, Finished(InitPanicked, true)).(once := true)
      else At(s, i, if q.kind.Plain? then Entering else InHandler).(once := true)
    case Entering =>
      At(s, i, InHandler).(inflight := if s.plan.inflight then s.inflight + 1 else s.inflight)
    case InHandler =>
      At(s, i, if q.kind.Reduced? then Finished(Skipped, panics) else Labelling(panics))
    case Labelling(failed) =>
      if q.kind.Plain? then
        if panics then At(s, i, Leaving(Unlabelled, true))
        else At(s, i, Leaving(Counted, failed)).(requests := if s.plan.requests then s.requests + 1 else s.requests)
      else
        if panics then At(s, i, Finished(Unlabelled, true))
        else At(s, i, Finished(CountedHealth, failed)).(health := if s.plan.health then s.health + 1 else s.health)
    case Leaving(c, failed) =>
      At(s, i, Finished(c, failed)).(inflight := if s.plan.inflight then s.inflight - 1 else s.inflight)
  }

  datatype Event = Request(kind: Kind) | Next(i: nat, panics: bool)

  predicate Enabled(s: State, e: Event) { e.Next? ==> CanStep(s, e.i) }

  function Apply(s: State, e: Event): State
    requires Enabled(s, e)
  {
    match e
    case Request(kind) => s.(reqs := s.reqs + [Req(kind, Arrived)])
    case Next(i, panics) => Step(s, i, panics)
  }

  predicate IsRun(s: State, es: seq<Event>)
    decreases |es|
  {
    es == [] || (Enabled(s, es[0]) && IsRun(Apply(s, es[0]), es[1..]))
  }

  function After(s: State, es: seq<Event>): State
    requires IsRun(s, es)
    decreases |es|
  {
    if es == [] then s else After(Apply(s, es[0]), es[1..])
  }

  ghost predicate Reaches(plan: Plan, es: seq<Event>, s: State) {
    IsRun(Init(plan), es) && After(Init(plan), es) == s
  }

  ghost predicate Reachable(s: State) {
    exists es: seq<Event> :: Reaches(s.plan, es, s)
  }

  // Counting requests

  function Count(qs: seq<Req>, p: Req -> bool): nat {
    if qs == [] then 0 else Count(qs[..|qs| - 1], p) + (if p(qs[|qs| - 1]) then 1 else 0)
  }

  lemma {:induction false} CountUpdate(qs: seq<Req>, i: nat, q: Req, p: Req -> bool)
    requires i < |qs|
    ensures Count(qs[i := q], p) == Count(qs, p) - (if p(qs[i]) then 1 else 0) + (if p(q) then 1 else 0)
  {
    var n := |qs| - 1;
    if i < n {
      assert qs[i := q][..n] == qs[..n][i := q];
      CountUpdate(qs[..n], i, q, p);
    } else {
      assert qs[i := q][..n] == qs[..n];
    }
  }

  /** Between the +1 and the -1 of record. */
  predicate InRecord(q: Req) { q.kind.Plain? && (q.at.InHandler? || q.at.Labelling? || q.at.Leaving?) }

  /** Past the point at which it is counted. */
  predicate Past(q: Req) { q.at.Leaving? || q.at.Finished? }

  predicate IsCounted(q: Req) { Past(q) && q.at.class_.Counted? }

  predicate IsHealth(q: Req) { Past(q) && q.at.class_.CountedHealth? }

  predicate IsSkipped(q: Req) { Past(q) && q.at.class_.Skipped? }

  predicate IsUnlabelled(q: Req) { Past(q) && q.at.class_.Unlabelled? }

  predicate IsInitPanic(q: Req) { Past(q) && q.at.class_.InitPanicked? }

  predicate Fits(q: Req) {
    && (q.at.Entering? ==> q.kind.Plain?)
    && (q.at.Leaving? ==> q.kind.Plain? && (q.at.class_.Counted? || q.at.class_.Unlabelled?))
    && (q.at.Labelling? ==> !q.kind.Reduced?)
  }

  ghost predicate Inv(s: State) {
    && s.inflight == (if s.plan.inflight then Count(s.reqs, InRecord) else 0)
    && s.requests == (if s.plan.requests then Count(s.reqs, IsCounted) else 0)
    && s.health == (if s.plan.health then Count(s.reqs, IsHealth) else 0)
    && Count(s.reqs, IsInitPanic) <= (if s.once && s.plan.panics then 1 else 0)
    && (forall i | 0 <= i < |s.reqs| :: Fits(s.reqs[i]))
  }

  function One(b: bool): int { if b then 1 else 0 }

  /** What a step that turns request `i` from `q` into `q'` must do to the instruments. */
  predicate Accounts(s: State, s': State, q: Req, q': Req) {
    && Fits(q') && s'.plan == s.plan && (s.once ==> s'.once)
    && s'.inflight == s.inflight + (if s.plan.inflight then One(InRecord(q')) - One(InRecord(q)) else 0)
    && s'.requests == s.requests + (if s.plan.requests then One(IsCounted(q')) - One(IsCounted(q)) else 0)
    && s'.health == s.health + (if s.plan.health then One(IsHealth(q')) - One(IsHealth(q)) else 0)
    && !IsInitPanic(q) && (IsInitPanic(q') ==> s.plan.panics && !s.once && s'.once)
  }

  lemma ArrivedAccounts(s: State, i: nat, panics: bool)
    requires CanStep(s, i) && Fits(s.reqs[i]) && s.reqs[i].at.Arrived?
    ensures Accounts(s, Step(s, i, panics), s.reqs[i], Step(s, i, panics).reqs[i])
  {
  }

  lemma EnteringAccounts(s: State, i: nat, panics: bool)
    requires CanStep(s, i) && Fits(s.reqs[i]) && s.reqs[i].at.Entering?
    ensures Accounts(s, Step(s, i, panics), s.reqs[i], Step(s, i, panics).reqs[i])
  {
  }

  lemma InHandlerAccounts(s: State, i: nat, panics: bool)
    requires CanStep(s, i) && Fits(s.reqs[i]) && s.reqs[i].at.InHandler?
    ensures Accounts(s, Step(s, i, panics), s.reqs[i], Step(s, i, panics).reqs[i])
  {
  }

  lemma LabellingAccounts(s: State, i: nat, panics: bool)
    requires CanStep(s, i) && Fits(s.reqs[i]) && s.reqs[i].at.Labelling?
    ensures Accounts(s, Step(s, i, panics), s.reqs[i], Step(s, i, panics).reqs[i])
  {
  }

  lemma LeavingAccounts(s: State, i: nat, panics: bool)
    requires CanStep(s, i) && Fits(s.reqs[i]) && s.reqs[i].at.Leaving?
    ensures Accounts(s, Step(s, i, panics), s.reqs[i], Step(s, i, panics).reqs[i])
  {
  }

  lemma StepAccounts(s: State, i: nat, panics: bool)
    requires CanStep(s, i) && Fits(s.reqs[i])
    ensures Accounts(s, Step(s, i, panics), s.reqs[i], Step(s, i, panics).reqs[i])
  {
    hide Accounts, Step, Fits;
    match s.reqs[i].at {
      case Arrived => ArrivedAccounts(s, i, panics);
      case Entering => EnteringAccounts(s, i, panics);
      case InHandler => InHandlerAccounts(s, i, panics);
      case Labelling(_) => LabellingAccounts(s, i, panics);
      case Leaving(_, _) => LeavingAccounts(s, i, panics);
    }
  }

  lemma AccountsKept(s: State, s': State, i: nat)
    requires Inv(s) && i < |s.reqs| == |s'.reqs| && s'.reqs == s.reqs[i := s'.reqs[i]]
    requires Accounts(s, s', s.reqs[i], s'.reqs[i])
    ensures Inv(s')
  {
    hide Count, Fits;
    var q := s'.reqs[i];
    CountUpdate(s.reqs, i, q, InRecord);
    CountUpdate(s.reqs, i, q, IsCounted);
    CountUpdate(s.reqs, i, q, IsHealth);
    CountUpdate(s.reqs, i, q, IsInitPanic);
  }

  lemma ArrivalKept(s: State, kind: Kind)
    requires Inv(s)
    ensures Inv(s.(reqs := s.reqs + [Req(kind, Arrived)]))
  {
    assert (s.reqs + [Req(kind, Arrived)])[..|s.reqs|] == s.reqs;
  }

  lemma StepKept(s: State, e: Event)
    requires Inv(s) && Enabled(s, e)
    ensures Inv(Apply(s, e))
  {
    match e {
      case Request(kind) => hide Inv; ArrivalKept(s, kind);
      case Next(i, panics) =>
        assert Fits(s.reqs[i]);
        StepAccounts(s, i, panics);
        hide Inv, Accounts, Step;
        AccountsKept(s, Step(s, i, panics), i);
    }
  }

  lemma {:induction false} RunKept(s: State, es: seq<Event>)
    requires Inv(s) && IsRun(s, es)
    ensures Inv(After(s, es))
    decreases |es|
  {
    hide Inv;
    if es != [] {
      StepKept(s, es[0]);
      RunKept(Apply(s, es[0]), es[1..]);
    }
  }

  lemma ReachableInv(s: State)
    requires Reachable(s)
    ensures Inv(s)
  {
    var es: seq<Event> :| Reaches(s.plan, es, s);
    RunKept(Init(s.plan), es);
  }

  // The theorems

  /** At every moment the gauge is the number of requests inside record. */
  lemma GaugeIsInside(s: State)
    requires Reachable(s) && s.plan.inflight
    ensures s.inflight == Count(s.reqs, InRecord)
  {
    ReachableInv(s);
  }

  predicate AtRest(s: State) { forall i | 0 <= i < |s.reqs| :: s.reqs[i].at.Finished? }

  lemma {:induction false} NoneOf(qs: seq<Req>, p: Req -> bool)
    requires forall i | 0 <= i < |qs| :: !p(qs[i])
    ensures Count(qs, p) == 0
  {
    if qs != [] { NoneOf(qs[..|qs| - 1], p); }
  }

  /** When the last request is done the gauge is back where it started, whatever has panicked. */
  lemma GaugeReturns(s: State)
    requires Reachable(s) && AtRest(s)
    ensures s.inflight == 0
  {
    ReachableInv(s);
    NoneOf(s.reqs, InRecord);
  }

  lemma {:induction false} Classes(qs: seq<Req>)
    ensures Count(qs, Past) == Count(qs, IsCounted) + Count(qs, IsHealth) + Count(qs, IsSkipped)
                               + Count(qs, IsUnlabelled) + Count(qs, IsInitPanic)
  {
    if qs != [] {
      Classes(qs[..|qs| - 1]);
      var q := qs[|qs| - 1];
      assert Past(q) ==> IsCounted(q) || IsHealth(q) || IsSkipped(q) || IsUnlabelled(q) || IsInitPanic(q);
    }
  }

  /** At every moment each request that is past its count is in one of the counters, or was skipped, or
      lost its sample to a panic of the route function or to the one panic that init can have. */
  lemma EveryRequestOnce(s: State)
    requires Reachable(s) && s.plan.requests && s.plan.health
    ensures Count(s.reqs, Past) == s.requests + s.health + Count(s.reqs, IsSkipped)
                                   + Count(s.reqs, IsUnlabelled) + Count(s.reqs, IsInitPanic)
    ensures Count(s.reqs, IsInitPanic) <= 1
  {
    ReachableInv(s);
    Classes(s.reqs);
  }

  /** So the counters account for every request that was not skipped exactly when nothing in the
      middleware itself has panicked. */
  lemma NothingLostIff(s: State)
    requires Reachable(s) && s.plan.requests && s.plan.health
    ensures s.requests + s.health + Count(s.reqs, IsSkipped) == Count(s.reqs, Past) <==>
              forall i | 0 <= i < |s.reqs| :: !IsUnlabelled(s.reqs[i]) && !IsInitPanic(s.reqs[i])
  {
    EveryRequestOnce(s);
    NoneIff(s.reqs, IsUnlabelled);
    NoneIff(s.reqs, IsInitPanic);
  }

  lemma {:induction false} NoneIff(qs: seq<Req>, p: Req -> bool)
    ensures Count(qs, p) == 0 <==> forall i | 0 <= i < |qs| :: !p(qs[i])
  {
    if qs != [] {
      NoneIff(qs[..|qs| - 1], p);
      assert forall i | 0 <= i < |qs| - 1 :: qs[..|qs| - 1][i] == qs[i];
    }
  }

  // One request of this machine is one call of the middleware

  function KindOf(r: Request): Kind {
    if HealthcheckPath(r.path) then Healthcheck else if r.reduced then Reduced else Plain
  }

  function Ahead(q: Req): nat {
    match q.at
    case Arrived => 5
    case Entering => 4
    case InHandler => 3
    case Labelling(_) => 2
    case Leaving(_, _) => 1
    case Finished(_, _) => 0
  }

  /** Request `i` runs to its end, the handler and the route function ending as given. */
  function Alone(s: State, i: nat, handlerPanics: bool, labelPanics: bool): (r: State)
    requires i < |s.reqs|
    ensures |r.reqs| == |s.reqs| && r.reqs == s.reqs[i := r.reqs[i]] && r.reqs[i].at.Finished?
    decreases Ahead(s.reqs[i])
  {
    if s.reqs[i].at.Finished? then s
    else
      var panics := if s.reqs[i].at.InHandler? then handlerPanics else labelPanics;
      Alone(Step(s, i, panics), i, handlerPanics, labelPanics)
  }

  lemma {:induction false} AloneIsRun(s: State, i: nat, handlerPanics: bool, labelPanics: bool) returns (es: seq<Event>)
    requires i < |s.reqs|
    ensures IsRun(s, es) && After(s, es) == Alone(s, i, handlerPanics, labelPanics)
    decreases Ahead(s.reqs[i])
  {
    if s.reqs[i].at.Finished? {
      es := [];
    } else {
      var panics := if s.reqs[i].at.InHandler? then handlerPanics else labelPanics;
      var rest := AloneIsRun(Step(s, i, panics), i, handlerPanics, labelPanics);
      es := [Next(i, panics)] + rest;
    }
  }

  /** The instruments show what the meter `m` says. */
  predicate Shows(s: State, m: Meter) {
    && s.plan == m.plan && s.once == m.once
    && s.inflight == m.inflight && s.requests == |m.requests| && s.health == |m.health|
  }

  lemma {:induction false} AloneHealth(s: State, i: nat, handlerPanics: bool, labelPanics: bool)
    requires i < |s.reqs| && s.reqs[i] == Req(Healthcheck, Arrived)
    ensures var s', init := Alone(s, i, handlerPanics, labelPanics), !s.once && s.plan.panics;
            && s' == s.(once := true, reqs := s'.reqs,
                        health := s.health + (if !init && !labelPanics && s.plan.health then 1 else 0))
            && s'.reqs[i].at.failed == (init || labelPanics || handlerPanics)
  {
    var s1 := Step(s, i, labelPanics);
    if s.once || !s.plan.panics {
      var s2 := Step(s1, i, handlerPanics);
      var s3 := Step(s2, i, labelPanics);
      assert Alone(s2, i, handlerPanics, labelPanics) == s3;
      assert Alone(s1, i, handlerPanics, labelPanics) == s3;
    }
  }

  lemma {:induction false} AloneReduced(s: State, i: nat, handlerPanics: bool, labelPanics: bool)
    requires i < |s.reqs| && s.reqs[i] == Req(Reduced, Arrived)
    ensures var s' := Alone(s, i, handlerPanics, labelPanics);
            s' == s.(reqs := s'.reqs) && s'.reqs[i].at.failed == handlerPanics
  {
    var s1 := Step(s, i, labelPanics);
    assert Alone(s1, i, handlerPanics, labelPanics) == Step(s1, i, handlerPanics);
  }

  lemma {:induction false} AlonePlain(s: State, i: nat, handlerPanics: bool, labelPanics: bool)
    requires i < |s.reqs| && s.reqs[i] == Req(Plain, Arrived)
    ensures var s', init := Alone(s, i, handlerPanics, labelPanics), !s.once && s.plan.panics;
            && s' == s.(once := true, reqs := s'.reqs,
                        requests := s.requests + (if !init && !labelPanics && s.plan.requests then 1 else 0))
            && s'.reqs[i].at.failed == (init || labelPanics || handlerPanics)
  {
    var s1 := Step(s, i, labelPanics);
    if s.once || !s.plan.panics {
      var s2 := Step(s1, i, labelPanics);
      var s3 := Step(s2, i, handlerPanics);
      var s4 := Step(s3, i, labelPanics);
      var s5 := Step(s4, i, labelPanics);
      assert Alone(s4, i, handlerPanics, labelPanics) == s5;
      assert Alone(s3, i, handlerPanics, labelPanics) == s5;
      assert Alone(s2, i, handlerPanics, labelPanics) == s5;
      assert Alone(s1, i, handlerPanics, labelPanics) == s5;
    }
  }

  /** A request that runs alone, among any others that wait, changes the instruments exactly as the
      middleware changes its meter around that handler, and ends by a panic exactly when the call does. */
  lemma {:induction false} AloneIsServe(s: State, i: nat, h: Handler, answer: Label, r: Request, w: World)
    requires i < |s.reqs| && s.reqs[i] == Req(KindOf(r), Arrived) && Shows(s, w.meter) && Unmetered(h)
    ensures var out := Serve(Wrap(Metrics(answer), h), r, w);
            var s' := Alone(s, i, Called(h, r, w).panicked, answer.LabelPanics?);
            Shows(s', out.world.meter) && s'.reqs[i].at.failed == out.panicked
  {
    var handlerPanics, labelPanics := Called(h, r, w).panicked, answer.LabelPanics?;
    hide Serve, HealthcheckPath, Alone, Called;
    if HealthcheckPath(r.path) {
      AloneHealth(s, i, handlerPanics, labelPanics);
      HealthMeter(h, answer, r, w);
    } else if r.reduced {
      AloneReduced(s, i, handlerPanics, labelPanics);
      ReducedMeter(h, answer, r, w);
    } else {
      AlonePlain(s, i, handlerPanics, labelPanics);
      RequestMeter(h, answer, r, w);
    }
  }

  /** ... and while it is in the handler the instruments show what they show in the world in which the
      middleware calls it: a request that is recorded is counted in the gauge. */
  lemma {:induction false} AloneInHandler(s: State, i: nat, r: Request, w: World) returns (es: seq<Event>)
    requires i < |s.reqs| && s.reqs[i] == Req(KindOf(r), Arrived) && Shows(s, w.meter) && Settled(w.meter)
    ensures IsRun(s, es)
    ensures var s' := After(s, es);
            && s'.reqs == s.reqs[i := Req(KindOf(r), InHandler)] && Shows(s', CalledIn(r, w).meter)
            && s'.inflight == s.inflight + (if Recorded(r) && s.plan.inflight then 1 else 0)
  {
    hide HealthcheckPath;
    var e := Next(i, false);
    var s1 := Step(s, i, false);
    if KindOf(r).Plain? {
      var s2 := Step(s1, i, false);
      es := [e, e];
      assert es[1..] == [e] && es[1..][1..] == [] && IsRun(s2, []);
      assert IsRun(s1, [e]) && After(s1, [e]) == s2 by { assert [e][1..] == []; }
    } else {
      es := [e];
      assert es[1..] == [] && IsRun(s1, []);
    }
  }
}
