/** The middlewares as the program runs them: writers that change in place, recorders that forward to
    the writer they wrap, instruments that are created once, and defers that run in reverse order.
    Each method is proved against the computation of HttpModel. */
module HttpServer {
  import opened HttpPath
  import opened HttpModel

  /** An http.ResponseWriter: the server's own when `inner` is null, else a statusRecorder. */
  class Writer {
    const inner: Writer?
    var status: int
    var code: Code
    var interim: seq<int>
    var body: string
    ghost const Repr: set<Writer>

    ghost predicate Valid()
      decreases Repr
    {
      this in Repr && (inner != null ==> inner in Repr && inner.Repr == Repr - {this} && inner.Valid())
    }

    /** The statuses of the recorders, outermost first. */
    ghost function Recs(): seq<int>
      requires Valid()
      reads Repr
      decreases Repr
    {
      if inner == null then [] else inner.Recs() + [status]
    }

    ghost function Resp(): Response
      requires Valid()
      reads Repr
      decreases Repr
    {
      if inner == null then Response(code, interim, body) else inner.Resp()
    }

    constructor Server()
      ensures Valid() && Recs() == [] && Resp() == Response(Unset, [], "") && fresh(Repr)
    {
      inner := null;
      status, code, interim, body := OK, Unset, [], "";
      Repr := {this};
    }

    constructor Recorder(w: Writer)
      requires w.Valid()
      ensures Valid() && Recs() == w.Recs() + [OK] && Resp() == w.Resp() && Repr == w.Repr + {this} && inner == w
    {
      inner := w;
      status, code, interim, body := OK, Unset, [], "";
      Repr := w.Repr + {this};
      new;
      assert this !in w.Repr;
      assert Repr - {this} == w.Repr;
    }

    /** The server's own writer sends an informational status at once, keeps the first final one, and
        panics on an invalid one; a recorder remembers every status before it forwards it. */
    method WriteHeader(c: int) returns (panicked: bool)
      requires Valid()
      modifies Repr
      ensures Valid() && Recs() == seq(|old(Recs())|, _ => c)
      ensures Resp() == Respond(old(Resp()), Act.WriteHeader(c)) && panicked == Breaks(old(Resp()), Act.WriteHeader(c))
      decreases Repr
    {
      if inner != null {
        status := c;
        panicked := inner.WriteHeader(c);
        return;
      }
      if code.Set? { return false; }
      if c < 100 || c > 999 { return true; }
      if 100 <= c <= 199 && c != SWITCHING_PROTOCOLS {
        interim := interim + [c];
      } else {
        code := Set(c);
      }
      panicked := false;
    }

    /** A recorder has no Write of its own: the call goes to the writer it wraps. */
    method Write(chunk: string)
      requires Valid()
      modifies Repr
      ensures Valid() && Recs() == old(Recs()) && Resp() == Respond(old(Resp()), Act.Write(chunk))
      decreases Repr
    {
      if inner == null {
        if code.Unset? { code := Set(OK); }
        if HasBody(code.code) { body := body + chunk; }
      } else {
        inner.Write(chunk);
      }
    }
  }

  /** httpMetrics: one for each MetricsMiddleware. */
  class Instruments {
    const plan: Plan
    var once: bool
    var inflight: int
    var requests: seq<Sample>
    var health: seq<Sample>

    ghost function View(): Meter
      reads this
    {
      Meter(plan, once, inflight, requests, health)
    }

    constructor (plan: Plan)
      ensures View() == Meter(plan, false, 0, [], [])
    {
      this.plan := plan;
      once, inflight, requests, health := false, 0, [], [];
    }

    /** once.Do(init) */
    method Init() returns (panicked: bool)
      modifies this`once
      ensures once && panicked == (!old(once) && plan.panics)
    {
      panicked := !once && plan.panics;
      once := true;
    }
  }

  ghost function View(w: Writer, m: Instruments): World
    requires w.Valid()
    reads w.Repr, m
  {
    World(w.Recs(), w.Resp(), m.View())
  }

  method Run(acts: seq<Act>, w: Writer, m: Instruments) returns (panicked: bool)
    requires w.Valid()
    modifies w.Repr
    ensures w.Valid() && Outcome(View(w, m), panicked) == Play(old(View(w, m)), acts)
  {
    for i := 0 to |acts|
      invariant w.Valid() && Play(View(w, m), acts[i..]) == Play(old(View(w, m)), acts)
    {
      assert acts[i..][0] == acts[i] && acts[i..][1..] == acts[i + 1..];
      ghost var before := View(w, m);
      panicked := false;
      match acts[i] {
        case WriteHeader(c) => panicked := w.WriteHeader(c);
        case Write(chunk) => w.Write(chunk);
      }
      assert View(w, m) == Do(before, acts[i]) && panicked == Breaks(before.resp, acts[i]);
      if panicked { return; }
    }
    panicked := false;
  }

  /** A deferred recover around the handler. */
  method RecoveryMiddleware(next: Handler, r: Request, w: Writer, m: Instruments) returns (panicked: bool)
    requires w.Valid()
    modifies w.Repr, m
    ensures w.Valid() && Outcome(View(w, m), panicked) == Serve(Wrap(Recovery, next), r, old(View(w, m)))
    decreases next, 1
  {
    panicked := ServeHTTP(next, r, w, m);
    if panicked {
      panicked := Run(ErrorResponse(), w, m);
    }
  }

  /** A recorder around `w` is popped when it goes out of use. */
  lemma {:induction false} Popped(w: Writer, rec: Writer, m: Instruments)
    requires w.Valid() && rec.Valid() && rec.inner == w
    ensures View(w, m) == Pop(View(rec, m)) && rec.status == Status(View(rec, m))
  {
  }

  /** The deferred function of recordHealthcheck. */
  method CountHealthInDefer(answer: Label, r: Request, w: Writer, rec: Writer, m: Instruments, failed: bool)
    returns (panicked: bool)
    requires w.Valid() && rec.Valid() && rec.inner == w
    modifies m`health
    ensures w.Valid() && Outcome(View(w, m), panicked) == CountHealth(Outcome(old(View(rec, m)), failed), r, answer)
  {
    Popped(w, rec, m);
    panicked := failed;
    if answer.LabelPanics? {
      panicked := true;
    } else if m.plan.health {
      m.health := m.health + [Sample(r.verb, answer.name, rec.status)];
    }
  }

  method RecordHealthcheck(next: Handler, answer: Label, r: Request, w: Writer, m: Instruments) returns (panicked: bool)
    requires w.Valid() && HealthcheckPath(r.path)
    modifies w.Repr, m
    ensures w.Valid() && Outcome(View(w, m), panicked) == Serve(Wrap(Metrics(answer), next), r, old(View(w, m)))
    decreases next, 1
  {
    hide Serve, HealthcheckPath;
    HealthIs(next, answer, r, View(w, m));
    panicked := m.Init();
    assert Outcome(View(w, m), panicked) == Once(old(View(w, m)));
    if panicked { return; }
    var rec := new Writer.Recorder(w);
    assert View(rec, m) == Push(Once(old(View(w, m))).world);
    panicked := ServeHTTP(next, r, rec, m);
    panicked := CountHealthInDefer(answer, r, w, rec, m, panicked);
    hide CountHealth;
  }

  /** The deferred function of record. */
  method CountInDefer(answer: Label, r: Request, w: Writer, rec: Writer, m: Instruments, failed: bool)
    returns (panicked: bool)
    requires w.Valid() && rec.Valid() && rec.inner == w
    modifies m`requests
    ensures w.Valid() && Outcome(View(w, m), panicked) == CountRequest(Outcome(old(View(rec, m)), failed), r, answer)
  {
    Popped(w, rec, m);
    panicked := failed;
    if answer.LabelPanics? {
      panicked := true;
    } else if m.plan.requests {
      m.requests := m.requests + [Sample(r.verb, answer.name, rec.status)];
    }
  }

  method Record(next: Handler, answer: Label, r: Request, w: Writer, m: Instruments) returns (panicked: bool)
    requires w.Valid() && !HealthcheckPath(r.path) && !r.reduced
    modifies w.Repr, m
    ensures w.Valid() && Outcome(View(w, m), panicked) == Serve(Wrap(Metrics(answer), next), r, old(View(w, m)))
    decreases next, 1
  {
    hide Serve, HealthcheckPath;
    RecordIs(next, answer, r, View(w, m));
    panicked := m.Init();
    assert Outcome(View(w, m), panicked) == Once(old(View(w, m)));
    if panicked { return; }
    var rec := new Writer.Recorder(w);
    if m.plan.inflight { m.inflight := m.inflight + 1; }
    assert View(rec, m) == Enter(Once(old(View(w, m))).world);
    panicked := ServeHTTP(next, r, rec, m);
    panicked := CountInDefer(answer, r, w, rec, m, panicked);
    hide CountRequest;
    if m.plan.inflight { m.inflight := m.inflight - 1; }
  }

  method MetricsMiddleware(next: Handler, answer: Label, r: Request, w: Writer, m: Instruments) returns (panicked: bool)
    requires w.Valid()
    modifies w.Repr, m
    ensures w.Valid() && Outcome(View(w, m), panicked) == Serve(Wrap(Metrics(answer), next), r, old(View(w, m)))
    decreases next, 2
  {
    if HealthcheckPath(r.path) {
      panicked := RecordHealthcheck(next, answer, r, w, m);
    } else if r.reduced {
      panicked := ServeHTTP(next, r, w, m);
    } else {
      panicked := Record(next, answer, r, w, m);
    }
  }

  /** Any handler behind any middlewares. */
  method ServeHTTP(h: Handler, r: Request, w: Writer, m: Instruments) returns (panicked: bool)
    requires w.Valid()
    modifies w.Repr, m
    ensures w.Valid() && Outcome(View(w, m), panicked) == Serve(h, r, old(View(w, m)))
    decreases h, 0
  {
    match h {
      case Leaf(acts, panics) =>
        panicked := Run(acts, w, m);
        panicked := panicked || panics;
      case Wrap(Recovery, next) =>
        panicked := RecoveryMiddleware(next, r, w, m);
      case Wrap(Metrics(answer), next) =>
        panicked := MetricsMiddleware(next, answer, r, w, m);
      case Wrap(Custom(before, refuses, after, panics), next) =>
        panicked := Run(before, w, m);
        if panicked { return; }
        if refuses { return panics; }
        panicked := ServeHTTP(next, r, w, m);
        if panicked { return; }
        panicked := Run(after, w, m);
        panicked := panicked || panics;
    }
  }
}
