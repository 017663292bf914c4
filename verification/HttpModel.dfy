/** Handlers and middlewares of httpx as computations over a response, the stack of status recorders
    around it, and the instruments of one MetricsMiddleware; a computation returns or panics.

    A handler of the application is any list of writes with either ending. A middleware of the
    application may write before and after the handler that it wraps, may refuse to call it, and may
    panic afterwards. The same MetricsMiddleware may be applied any number of times. */
module HttpModel {
  import opened HttpPath

  datatype Act = WriteHeader(code: int) | Write(chunk: string)

  /** What the route function answers for the request, asked when the handler is done. */
  datatype Label = Route(name: string) | LabelPanics

  datatype Middleware =
    | Recovery
    | Metrics(answer: Label)
    | Custom(before: seq<Act>, refuses: bool, after: seq<Act>, panics: bool)

  datatype Handler = Leaf(acts: seq<Act>, panics: bool) | Wrap(mw: Middleware, next: Handler)

  /** `path` is empty when the request has no URL. */
  datatype Request = Request(verb: string, path: string, reduced: bool)

  /** `code` is the final status, `interim` are the informational ones sent before it. */
  datatype Response = Response(code: Code, interim: seq<int>, body: string)

  datatype Code = Unset | Set(code: int)

  datatype Sample = Sample(verb: string, route: string, status: int)

  /** What init makes of the instruments on first use: which of them it creates, and whether it
      panics on the way. */
  datatype Plan = Plan(requests: bool, inflight: bool, health: bool, panics: bool)

  datatype Meter = Meter(plan: Plan, once: bool, inflight: int, requests: seq<Sample>, health: seq<Sample>)

  /** `recs` are the status recorders around the response, outermost first. */
  datatype World = World(recs: seq<int>, resp: Response, meter: Meter)

  datatype Outcome = Outcome(world: World, panicked: bool)

  const INTERNAL_SERVER_ERROR := 500
  const OK := 200
  const SWITCHING_PROTOCOLS := 101
  const NO_CONTENT := 204
  const NOT_MODIFIED := 304

  /** The server panics when it is given such a status as the final one. */
  predicate Invalid(code: int) { code < 100 || code > 999 }

  /** Such a status is sent at once and leaves the final one open. */
  predicate Informational(code: int) { 100 <= code <= 199 && code != SWITCHING_PROTOCOLS }

  predicate HasBody(code: int) { !(100 <= code <= 199) && code != NO_CONTENT && code != NOT_MODIFIED }

  function Sent(resp: Response): int { if resp.code.Set? then resp.code.code else OK }

  /** What the server's own writer does. Only the first final status counts, and a body without one
      means 200. */
  function Respond(resp: Response, a: Act): Response {
    match a
    case WriteHeader(code) =>
      if resp.code.Set? || Invalid(code) then resp
      else if Informational(code) then resp.(interim := resp.interim + [code])
      else resp.(code := Set(code))
    case Write(chunk) =>
      resp.(code := Set(Sent(resp)), body := if HasBody(Sent(resp)) then resp.body + chunk else resp.body)
  }

  predicate Breaks(resp: Response, a: Act) { a.WriteHeader? && Invalid(a.code) && resp.code.Unset? }

  /** A call of the innermost writer. A recorder remembers the status and passes it on. */
  function Do(w: World, a: Act): (r: World)
    ensures |r.recs| == |w.recs| && r.meter == w.meter
  {
    World(if a.WriteHeader? then seq(|w.recs|, _ => a.code) else w.recs, Respond(w.resp, a), w.meter)
  }

  /** The calls one after the other, until one of them panics. */
  function Play(w: World, acts: seq<Act>): (out: Outcome)
    ensures |out.world.recs| == |w.recs| && out.world.meter == w.meter
    decreases |acts|
  {
    if acts == [] then Outcome(w, false)
    else if Breaks(w.resp, acts[0]) then Outcome(Do(w, acts[0]), true)
    else Play(Do(w, acts[0]), acts[1..])
  }

  /** The body of the generic error response. */
  const ERROR_BODY := "{\"message\":\"Something went wrong!\",\"code\":\"INTERNAL_ERROR\"}\n"

  function ErrorResponse(): seq<Act> { [WriteHeader(INTERNAL_SERVER_ERROR), Write(ERROR_BODY)] }

  function Recover(out: Outcome): Outcome {
    if out.panicked then Play(out.world, ErrorResponse()) else out
  }

  /** once.Do(init): a panic of init comes through, and init is not tried again. */
  function Once(w: World): Outcome {
    Outcome(w.(meter := w.meter.(once := true)), !w.meter.once && w.meter.plan.panics)
  }

  /** A recorder around the response. */
  function Push(w: World): World { w.(recs := w.recs + [OK]) }

  function Pop(w: World): World { if w.recs == [] then w else w.(recs := w.recs[..|w.recs| - 1]) }

  function Status(w: World): int { if w.recs == [] then OK else w.recs[|w.recs| - 1] }

  function Gauge(m: Meter, delta: int): Meter {
    if m.plan.inflight then m.(inflight := m.inflight + delta) else m
  }

  /** The defer of record: a panic of the route function loses the sample and replaces any other. */
  function CountRequest(out: Outcome, r: Request, answer: Label): Outcome {
    if answer.LabelPanics? then Outcome(Pop(out.world), true)
    else
      var m := out.world.meter;
      var s := Sample(r.verb, answer.name, Status(out.world));
      Outcome(Pop(out.world).(meter := if m.plan.requests then m.(requests := m.requests + [s]) else m), out.panicked)
  }

  function CountHealth(out: Outcome, r: Request, answer: Label): Outcome {
    if answer.LabelPanics? then Outcome(Pop(out.world), true)
    else
      var m := out.world.meter;
      var s := Sample(r.verb, answer.name, Status(out.world));
      Outcome(Pop(out.world).(meter := if m.plan.health then m.(health := m.health + [s]) else m), out.panicked)
  }

  /** The defer that record registers first runs last. */
  function LeaveGauge(out: Outcome): Outcome {
    out.(world := out.world.(meter := Gauge(out.world.meter, -1)))
  }

  function Enter(w: World): World { Push(w.(meter := Gauge(w.meter, 1))) }

  function Serve(h: Handler, r: Request, w: World): (out: Outcome)
    ensures |out.world.recs| == |w.recs|
    ensures out.world.meter.plan == w.meter.plan && (w.meter.once ==> out.world.meter.once)
    decreases h
  {
    match h
    case Leaf(acts, panics) =>
      var out := Play(w, acts);
      Outcome(out.world, out.panicked || panics)
    case Wrap(Recovery, next) => Recover(Serve(next, r, w))
    case Wrap(Metrics(answer), next) =>
      if HealthcheckPath(r.path) then
        var start := Once(w);
        if start.panicked then start
        else CountHealth(Serve(next, r, Push(start.world)), r, answer)
      else if r.reduced then Serve(next, r, w)
      else
        var start := Once(w);
        if start.panicked then start
        else LeaveGauge(CountRequest(Serve(next, r, Enter(start.world)), r, answer))
    case Wrap(Custom(before, refuses, after, panics), next) =>
      var start := Play(w, before);
      if start.panicked then start
      else if refuses then Outcome(start.world, panics)
      else
        var out := Serve(next, r, start.world);
        if out.panicked then out
        else
          var end := Play(out.world, after);
          Outcome(end.world, end.panicked || panics)
  }

  lemma {:induction false} HealthIs(next: Handler, answer: Label, r: Request, w: World)
    requires HealthcheckPath(r.path)
    ensures Serve(Wrap(Metrics(answer), next), r, w) ==
              if Once(w).panicked then Once(w)
              else CountHealth(Serve(next, r, Push(Once(w).world)), r, answer)
  {
  }

  lemma {:induction false} RecordIs(next: Handler, answer: Label, r: Request, w: World)
    requires !HealthcheckPath(r.path) && !r.reduced
    ensures Serve(Wrap(Metrics(answer), next), r, w) ==
              if Once(w).panicked then Once(w)
              else LeaveGauge(CountRequest(Serve(next, r, Enter(Once(w).world)), r, answer))
  {
  }

  lemma {:induction false} CustomIs(mw: Middleware, next: Handler, r: Request, w: World)
    requires mw.Custom?
    ensures var start := Play(w, mw.before);
            Serve(Wrap(mw, next), r, w) ==
              if start.panicked then start
              else if mw.refuses then Outcome(start.world, mw.panics)
              else
                var out := Serve(next, r, start.world);
                if out.panicked then out
                else Outcome(Play(out.world, mw.after).world, Play(out.world, mw.after).panicked || mw.panics)
  {
  }

  lemma {:induction false} RecoveryIs(next: Handler, r: Request, w: World)
    ensures Serve(Wrap(Recovery, next), r, w) == Recover(Serve(next, r, w))
  {
  }
}
