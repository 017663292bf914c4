/** What the metrics and recovery middlewares promise, for every handler, whatever it writes and
    however it ends. */
module HttpTheorems {
  import opened HttpPath
  import opened HttpModel
  import opened HttpChain

  /** However the middlewares are nested and whatever panics where, the gauge comes back. */
  lemma {:induction false} InflightRestored(h: Handler, r: Request, w: World)
    ensures Serve(h, r, w).world.meter.inflight == w.meter.inflight
    decreases h
  {
    match h {
      case Leaf(acts, panics) =>
      case Wrap(Recovery, next) => InflightRestored(next, r, w);
      case Wrap(Metrics(answer), next) =>
        var start := Once(w);
        InflightRestored(next, r, w);
        InflightRestored(next, r, Push(start.world));
        InflightRestored(next, r, Enter(start.world));
      case Wrap(Custom(before, _, _, _), next) => InflightRestored(next, r, Play(w, before).world);
    }
  }

  /** The handler applies no MetricsMiddleware of its own. */
  predicate Unmetered(h: Handler) { h.Wrap? ==> !h.mw.Metrics? && Unmetered(h.next) }

  lemma {:induction false} UnmeteredIsSilent(h: Handler, r: Request, w: World)
    requires Unmetered(h)
    ensures Serve(h, r, w).world.meter == w.meter
    decreases h
  {
    match h {
      case Leaf(acts, panics) =>
      case Wrap(Recovery, next) => UnmeteredIsSilent(next, r, w);
      case Wrap(Custom(before, _, _, _), next) => UnmeteredIsSilent(next, r, Play(w, before).world);
    }
  }

  // Recorders only look

  /** init does not panic any more, or never will. */
  predicate Settled(m: Meter) { m.once || !m.plan.panics }

  lemma {:induction false} PlayUnder(w: World, v: World, acts: seq<Act>)
    requires w.resp == v.resp
    ensures Play(w, acts).world.resp == Play(v, acts).world.resp && Play(w, acts).panicked == Play(v, acts).panicked
    decreases |acts|
  {
    if acts != [] { PlayUnder(Do(w, acts[0]), Do(v, acts[0]), acts[1..]); }
  }

  /** What the client gets and how a call ends depend neither on the recorders around the response nor
      on what has been measured. */
  lemma {:induction false} ClientSeesTheSame(h: Handler, r: Request, w: World, v: World)
    requires w.resp == v.resp && Settled(w.meter) && Settled(v.meter)
    ensures Serve(h, r, w).world.resp == Serve(h, r, v).world.resp
    ensures Serve(h, r, w).panicked == Serve(h, r, v).panicked
    decreases h
  {
    match h {
      case Leaf(acts, panics) => PlayUnder(w, v, acts);
      case Wrap(Recovery, next) =>
        ClientSeesTheSame(next, r, w, v);
        PlayUnder(Serve(next, r, w).world, Serve(next, r, v).world, ErrorResponse());
      case Wrap(Metrics(answer), next) =>
        ClientSeesTheSame(next, r, w, v);
        ClientSeesTheSame(next, r, Push(Once(w).world), Push(Once(v).world));
        ClientSeesTheSame(next, r, Enter(Once(w).world), Enter(Once(v).world));
      case Wrap(Custom(before, _, after, _), next) =>
        var w1, v1 := Play(w, before).world, Play(v, before).world;
        PlayUnder(w, v, before);
        ClientSeesTheSame(next, r, w1, v1);
        PlayUnder(Serve(next, r, w1).world, Serve(next, r, v1).world, after);
    }
  }

  /** A MetricsMiddleware whose route function answers is invisible to the client. */
  lemma {:induction false} MetricsAreTransparent(h: Handler, route: string, r: Request, w: World)
    requires Settled(w.meter)
    ensures var a, b := Serve(Wrap(Metrics(Route(route)), h), r, w), Serve(h, r, w);
            a.world.resp == b.world.resp && a.panicked == b.panicked
  {
    ClientSeesTheSame(h, r, Push(Once(w).world), w);
    ClientSeesTheSame(h, r, Enter(Once(w).world), w);
  }

  // Recovery before and after

  function Sandwich(h: Handler, answer: Label): Handler { Chain(h, [Recovery, Metrics(answer), Recovery]) }

  lemma {:induction false} ChainTwo(h: Handler, a: Middleware, b: Middleware)
    ensures Chain(h, [a, b]) == Wrap(a, Wrap(b, h))
  {
    assert [a, b][1..] == [b] && Chain(h, [b]) == Wrap(b, Chain(h, [b][1..])) && [b][1..] == [];
  }

  lemma {:induction false} ChainThree(h: Handler, a: Middleware, b: Middleware, c: Middleware)
    ensures Chain(h, [a, b, c]) == Wrap(a, Wrap(b, Wrap(c, h)))
  {
    assert [a, b, c][1..] == [b, c];
    ChainTwo(h, b, c);
  }

  /** The request goes through record. */
  predicate Recorded(r: Request) { !HealthcheckPath(r.path) && !r.reduced }

  /** Nothing escapes and the gauge comes back: for every handler, every route function, every
      request and every way in which init can go. */
  lemma {:induction false} SandwichIsTight(h: Handler, answer: Label, r: Request, w: World)
    ensures !Serve(Sandwich(h, answer), r, w).panicked
    ensures Serve(Sandwich(h, answer), r, w).world.meter.inflight == w.meter.inflight
  {
    ChainThree(h, Recovery, Metrics(answer), Recovery);
    InflightRestored(Sandwich(h, answer), r, w);
    ErrorIsWritten(Serve(Wrap(Metrics(answer), Wrap(Recovery, h)), r, w).world);
  }

  /** The generic error response never panics itself; it is a 500 for every recorder, and for the client
      unless the handler had fixed another status. */
  lemma {:induction false} ErrorIsWritten(w: World)
    ensures var out := Play(w, ErrorResponse());
            && !out.panicked
            && (w.recs != [] ==> Status(out.world) == 500)
            && Sent(out.world.resp) == (if w.resp.code.Set? then w.resp.code.code else 500)
  {
    var w1 := Do(w, WriteHeader(INTERNAL_SERVER_ERROR));
    assert ErrorResponse()[1..] == [Write(ERROR_BODY)] && [Write(ERROR_BODY)][1..] == [];
    assert Play(w1, [Write(ERROR_BODY)]) == Play(Do(w1, Write(ERROR_BODY)), []);
  }

  /** How the handler itself fares inside record. */
  function Inside(h: Handler, r: Request, w: World): Outcome { Serve(h, r, Enter(Once(w).world)) }

  lemma {:induction false} SandwichUnfolds(h: Handler, answer: Label, r: Request, w: World)
    requires Recorded(r) && Settled(w.meter)
    ensures Serve(Sandwich(h, answer), r, w) == Recover(LeaveGauge(CountRequest(Recover(Inside(h, r, w)), r, answer)))
  {
    ChainThree(h, Recovery, Metrics(answer), Recovery);
    var w1 := Enter(Once(w).world);
    assert Serve(Wrap(Recovery, h), r, w1) == Recover(Inside(h, r, w));
    assert Serve(Wrap(Metrics(answer), Wrap(Recovery, h)), r, w)
        == LeaveGauge(CountRequest(Serve(Wrap(Recovery, h), r, w1), r, answer));
  }

  /** record adds one sample to what the handler itself may have measured, with status 500 exactly in
      place of the handler's own when the handler panicked. */
  lemma {:induction false} SandwichRecords(h: Handler, route: string, r: Request, w: World)
    requires Recorded(r) && Settled(w.meter) && w.meter.plan.requests
    ensures Serve(Sandwich(h, Route(route)), r, w).world.meter.requests ==
              Inside(h, r, w).world.meter.requests + [Sample(r.verb, route,
                if Inside(h, r, w).panicked then INTERNAL_SERVER_ERROR else Status(Inside(h, r, w).world))]
    ensures Unmetered(h) ==> Inside(h, r, w).world.meter.requests == w.meter.requests
  {
    SandwichUnfolds(h, Route(route), r, w);
    if Unmetered(h) { UnmeteredIsSilent(h, r, Enter(Once(w).world)); }
    if Inside(h, r, w).panicked { ErrorIsWritten(Inside(h, r, w).world); }
  }

  /** The same for a health check, on its own counter. */
  lemma {:induction false} SandwichRecordsHealth(h: Handler, route: string, r: Request, w: World)
    requires HealthcheckPath(r.path) && Settled(w.meter) && w.meter.plan.health
    ensures var inside := Serve(h, r, Push(Once(w).world));
            Serve(Sandwich(h, Route(route)), r, w).world.meter.health ==
              inside.world.meter.health + [Sample(r.verb, route,
                if inside.panicked then INTERNAL_SERVER_ERROR else Status(inside.world))]
  {
    var w1 := Push(Once(w).world);
    var inside := Serve(h, r, w1);
    ChainThree(h, Recovery, Metrics(Route(route)), Recovery);
    assert Serve(Wrap(Recovery, h), r, w1) == Recover(inside);
    assert Serve(Wrap(Metrics(Route(route)), Wrap(Recovery, h)), r, w) == CountHealth(Recover(inside), r, Route(route));
    if inside.panicked { ErrorIsWritten(inside.world); }
  }

  /** A panic of the route function costs the sample, but nothing else. */
  lemma {:induction false} LabelPanicLosesSample(h: Handler, r: Request, w: World)
    requires Recorded(r) && Settled(w.meter)
    ensures Serve(Sandwich(h, LabelPanics), r, w).world.meter == Gauge(Inside(h, r, w).world.meter, -1)
    ensures Unmetered(h) ==> Serve(Sandwich(h, LabelPanics), r, w).world.meter == w.meter.(once := true)
  {
    SandwichUnfolds(h, LabelPanics, r, w);
    if Unmetered(h) { UnmeteredIsSilent(h, r, Enter(Once(w).world)); }
  }

  /** Without the inner recovery a panicking handler is counted with the status it had left behind. */
  lemma {:induction false} WithoutInnerRecovery(h: Handler, route: string, r: Request, w: World)
    requires Recorded(r) && Settled(w.meter) && w.meter.plan.requests
    ensures var out := Serve(Chain(h, [Recovery, Metrics(Route(route))]), r, w);
            && !out.panicked
            && out.world.meter.requests ==
                 Inside(h, r, w).world.meter.requests + [Sample(r.verb, route, Status(Inside(h, r, w).world))]
  {
    ChainTwo(h, Recovery, Metrics(Route(route)));
  }

  /** So a panic is counted with the last status that the handler wrote, and as a 200 when it had
      written none. */
  lemma {:induction false} PanicCountedAs(acts: seq<Act>, route: string, r: Request, w: World)
    requires Recorded(r) && Settled(w.meter) && w.meter.plan.requests
    ensures Serve(Chain(Leaf(acts, true), [Recovery, Metrics(Route(route))]), r, w).world.meter.requests ==
              w.meter.requests + [Sample(r.verb, route, LastCode(Played(w.resp, acts)))]
    ensures AllWrites(acts) ==> LastCode(Played(w.resp, acts)) == 200
  {
    WithoutInnerRecovery(Leaf(acts, true), route, r, w);
    StatusIsLastCode(Enter(Once(w).world), acts);
    assert Inside(Leaf(acts, true), r, w).world == Play(Enter(Once(w).world), acts).world;
    hide Serve, Play;
    PlayedIsPrefix(w.resp, acts);
    if AllWrites(acts) { NoCode(Played(w.resp, acts)); }
  }

  lemma {:induction false} NoCode(acts: seq<Act>)
    requires AllWrites(acts)
    ensures LastCode(acts) == OK
  {
    if acts != [] { NoCode(acts[..|acts| - 1]); }
  }

  /** Without the outer recovery exactly the panics of the middleware itself escape. */
  lemma {:induction false} WithoutOuterRecovery(h: Handler, answer: Label, r: Request, w: World)
    ensures Serve(Chain(h, [Metrics(answer), Recovery]), r, w).panicked <==>
              (HealthcheckPath(r.path) || !r.reduced) && (!Settled(w.meter) || answer.LabelPanics?)
  {
    ChainTwo(h, Metrics(answer), Recovery);
    ErrorIsWritten(Serve(h, r, w).world);
    ErrorIsWritten(Serve(h, r, Push(Once(w).world)).world);
    ErrorIsWritten(Serve(h, r, Enter(Once(w).world)).world);
  }

  // Which status is recorded

  /** The calls that are made: all of them, or those up to the one that panics. */
  function Played(resp: Response, acts: seq<Act>): seq<Act>
    decreases |acts|
  {
    if acts == [] then []
    else if Breaks(resp, acts[0]) then [acts[0]]
    else [acts[0]] + Played(Respond(resp, acts[0]), acts[1..])
  }

  lemma {:induction false} PlayedIsPrefix(resp: Response, acts: seq<Act>)
    ensures Played(resp, acts) <= acts
    decreases |acts|
  {
    if acts != [] && !Breaks(resp, acts[0]) {
      PlayedIsPrefix(Respond(resp, acts[0]), acts[1..]);
      assert acts == [acts[0]] + acts[1..];
    }
  }

  /** The status that a fresh recorder shows after `acts`. */
  function LastCode(acts: seq<Act>): int {
    if acts == [] then OK
    else if acts[|acts| - 1].WriteHeader? then acts[|acts| - 1].code
    else LastCode(acts[..|acts| - 1])
  }

  /** The final status that a fresh response gets from `acts`, if it is a valid one: the first that is
      not informational, and 200 if the body comes before it. */
  function FirstCode(acts: seq<Act>): int {
    if acts == [] || acts[0].Write? then OK
    else if Informational(acts[0].code) then FirstCode(acts[1..])
    else acts[0].code
  }

  /** `acts` leave the final status open. */
  predicate Undecided(acts: seq<Act>) {
    forall i | 0 <= i < |acts| :: acts[i].WriteHeader? && Informational(acts[i].code)
  }

  predicate AllWrites(acts: seq<Act>) { forall i | 0 <= i < |acts| :: acts[i].Write? }

  lemma AllWritesCons(a: Act, acts: seq<Act>)
    ensures AllWrites([a] + acts) <==> a.Write? && AllWrites(acts)
  {
    assert ([a] + acts)[0] == a && forall i | 0 <= i < |acts| :: ([a] + acts)[i + 1] == acts[i];
  }

  lemma {:induction false} LastCodeTail(a: Act, acts: seq<Act>)
    ensures LastCode([a] + acts) == if AllWrites(acts) then LastCode([a]) else LastCode(acts)
  {
    if acts == [] {
      assert [a] + acts == [a];
    } else {
      var n := |acts| - 1;
      assert ([a] + acts)[..n + 1] == [a] + acts[..n];
      assert acts[n].Write? ==> (AllWrites(acts) <==> AllWrites(acts[..n]));
      LastCodeTail(a, acts[..n]);
    }
  }

  /** What the innermost recorder shows after `acts`. */
  lemma {:induction false} StatusAfter(w: World, acts: seq<Act>)
    requires w.recs != []
    ensures var done := Played(w.resp, acts);
            Status(Play(w, acts).world) == if AllWrites(done) then Status(w) else LastCode(done)
    decreases |acts|
  {
    if acts != [] {
      var a := acts[0];
      AllWritesCons(a, []);
      assert LastCode([a]) == if a.WriteHeader? then a.code else OK;
      if !Breaks(w.resp, a) {
        var rest := Played(Respond(w.resp, a), acts[1..]);
        StatusAfter(Do(w, a), acts[1..]);
        AllWritesCons(a, rest);
        LastCodeTail(a, rest);
      }
    }
  }

  lemma {:induction false} StatusIsLastCode(w: World, acts: seq<Act>)
    requires w.recs != [] && Status(w) == OK
    ensures Status(Play(w, acts).world) == LastCode(Played(w.resp, acts))
  {
    StatusAfter(w, acts);
    var done := Played(w.resp, acts);
    if AllWrites(done) { NoCode(done); }
  }

  /** How a fresh response fares. */
  lemma {:induction false} FirstCodeWins(w: World, acts: seq<Act>)
    ensures var out := Play(w, acts);
            && (w.resp.code.Set? ==>
                  out.world.resp.code == w.resp.code && !out.panicked && Played(w.resp, acts) == acts)
            && (w.resp.code.Unset? ==>
                  && out.panicked == Invalid(FirstCode(acts))
                  && out.world.resp.code == (if out.panicked || Undecided(acts) then Unset else Set(FirstCode(acts)))
                  && (!out.panicked ==> Played(w.resp, acts) == acts))
    decreases |acts|
  {
    if acts != [] {
      FirstCodeWins(Do(w, acts[0]), acts[1..]);
      assert acts == [acts[0]] + acts[1..];
      assert Undecided(acts) <==> acts[0].WriteHeader? && Informational(acts[0].code) && Undecided(acts[1..]) by {
        assert forall i | 0 <= i < |acts| - 1 :: acts[1..][i] == acts[i + 1];
      }
    }
  }

  /** When the recorded status is the one that was sent: after a panic when the client got the 500, that
      is, when the handler had fixed no status or had fixed that one; else when the last status that the
      handler wrote is the one that it fixed. */
  predicate Truthful(acts: seq<Act>, panics: bool) {
    if Invalid(FirstCode(acts)) then true
    else if panics then Undecided(acts) || FirstCode(acts) == INTERNAL_SERVER_ERROR
    else LastCode(acts) == FirstCode(acts)
  }

  /** In the sandwich the recorded status is the one that the client gets if and only if the handler was
      truthful in this sense. */
  lemma {:induction false} RecordedIsSentIff(acts: seq<Act>, panics: bool, route: string, r: Request, w: World)
    requires Recorded(r) && Settled(w.meter) && w.meter.plan.requests && w.resp.code.Unset?
    ensures var out := Serve(Sandwich(Leaf(acts, panics), Route(route)), r, w);
            var samples := out.world.meter.requests;
            && samples != []
            && (samples[|samples| - 1].status == Sent(out.world.resp) <==> Truthful(acts, panics))
  {
    var h := Leaf(acts, panics);
    var w1 := Enter(Once(w).world);
    SandwichRecords(h, route, r, w);
    StatusIsLastCode(w1, acts);
    FirstCodeWins(w1, acts);
    SandwichUnfolds(h, Route(route), r, w);
    ErrorIsWritten(Play(w1, acts).world);
    assert Inside(h, r, w) == Outcome(Play(w1, acts).world, Play(w1, acts).panicked || panics);
    assert Undecided(acts) ==> FirstCode(acts) == OK by { UndecidedIsOk(acts); }
    hide Serve, Play, LastCode, FirstCode;
  }

  lemma {:induction false} UndecidedIsOk(acts: seq<Act>)
    ensures Undecided(acts) ==> FirstCode(acts) == OK
  {
    if acts != [] { UndecidedIsOk(acts[1..]); }
  }

  /** An informational status before the body is recorded although the client gets 200. */
  lemma {:induction false} InformationalIsRecorded(code: int, chunk: string, route: string, r: Request, w: World)
    requires Recorded(r) && Settled(w.meter) && w.meter.plan.requests && w.resp.code.Unset? && Informational(code)
    ensures var out := Serve(Sandwich(Leaf([WriteHeader(code), Write(chunk)], false), Route(route)), r, w);
            && out.world.meter.requests == w.meter.requests + [Sample(r.verb, route, code)]
            && Sent(out.world.resp) == 200
  {
    var acts := [WriteHeader(code), Write(chunk)];
    var h, w1 := Leaf(acts, false), Enter(Once(w).world);
    SandwichRecords(h, route, r, w);
    StatusIsLastCode(w1, acts);
    FirstCodeWins(w1, acts);
    SandwichUnfolds(h, Route(route), r, w);
    assert acts[1..] == [Write(chunk)] && acts[..1] == [WriteHeader(code)];
    assert FirstCode(acts) == FirstCode(acts[1..]) == OK && LastCode(acts) == LastCode(acts[..1]) == code;
    assert acts[1].Write? && !Undecided(acts);
    assert Inside(h, r, w) == Play(w1, acts);
    hide Serve, Play, LastCode, FirstCode;
  }

  /** Where MetricsMiddleware calls the handler, if init lets it. */
  function CalledIn(r: Request, w: World): World {
    if HealthcheckPath(r.path) then Push(Once(w).world)
    else if r.reduced then w
    else Enter(Once(w).world)
  }

  /** The handler as MetricsMiddleware calls it. */
  function Called(h: Handler, r: Request, w: World): Outcome { Serve(h, r, CalledIn(r, w)) }

  /** What one metrics middleware does to the instruments and to the panic, around a handler that does
      not measure itself. */
  lemma {:induction false} HealthMeter(h: Handler, answer: Label, r: Request, w: World)
    requires Unmetered(h) && HealthcheckPath(r.path)
    ensures var out, called := Serve(Wrap(Metrics(answer), h), r, w), Called(h, r, w);
            && out.panicked == (!Settled(w.meter) || answer.LabelPanics? || called.panicked)
            && out.world.meter == w.meter.(once := true, health :=
                 if !Settled(w.meter) || answer.LabelPanics? || !w.meter.plan.health then w.meter.health
                 else w.meter.health + [Sample(r.verb, answer.name, Status(called.world))])
  {
    HealthIs(h, answer, r, w);
    UnmeteredIsSilent(h, r, Push(Once(w).world));
    hide Serve, HealthcheckPath, Unmetered;
  }

  lemma {:induction false} ReducedMeter(h: Handler, answer: Label, r: Request, w: World)
    requires Unmetered(h) && !HealthcheckPath(r.path) && r.reduced
    ensures Serve(Wrap(Metrics(answer), h), r, w) == Called(h, r, w)
    ensures Called(h, r, w).world.meter == w.meter
  {
    UnmeteredIsSilent(h, r, w);
  }

  lemma {:induction false} RequestMeter(h: Handler, answer: Label, r: Request, w: World)
    requires Unmetered(h) && Recorded(r)
    ensures var out, called := Serve(Wrap(Metrics(answer), h), r, w), Called(h, r, w);
            && out.panicked == (!Settled(w.meter) || answer.LabelPanics? || called.panicked)
            && out.world.meter == w.meter.(once := true, requests :=
                 if !Settled(w.meter) || answer.LabelPanics? || !w.meter.plan.requests then w.meter.requests
                 else w.meter.requests + [Sample(r.verb, answer.name, Status(called.world))])
  {
    RecordIs(h, answer, r, w);
    UnmeteredIsSilent(h, r, Enter(Once(w).world));
    hide Serve, HealthcheckPath, Unmetered;
  }

  /** Every request falls into exactly one class: health check, not counted, or counted. */
  lemma {:induction false} OneClass(h: Handler, route: string, r: Request, w: World)
    requires Settled(w.meter) && w.meter.plan.requests && w.meter.plan.health && Unmetered(h)
    ensures var m := Serve(Wrap(Metrics(Route(route)), h), r, w).world.meter;
            && |m.health| == |w.meter.health| + (if HealthcheckPath(r.path) then 1 else 0)
            && |m.requests| == |w.meter.requests| + (if Recorded(r) then 1 else 0)
            && w.meter.health <= m.health && w.meter.requests <= m.requests
  {
    hide Serve, HealthcheckPath, Called;
    if HealthcheckPath(r.path) {
      HealthMeter(h, Route(route), r, w);
    } else if r.reduced {
      ReducedMeter(h, Route(route), r, w);
    } else {
      RequestMeter(h, Route(route), r, w);
    }
  }
}
