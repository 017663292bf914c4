/** In which order a request runs through a chain, and what the client then gets: the parts before the
    handler from the outermost middleware inwards, the handler, and the parts after it from the innermost
    outwards. */
module HttpOrder {
  import opened HttpPath
  import opened HttpModel
  import opened HttpChain
  import opened HttpTheorems

  function BeforeOf(mw: Middleware): seq<Act> { if mw.Custom? then mw.before else [] }

  function AfterOf(mw: Middleware): seq<Act> { if mw.Custom? then mw.after else [] }

  /** What the middlewares do before they call on, first one first. */
  function Befores(mws: seq<Middleware>): seq<Act> {
    if mws == [] then [] else BeforeOf(mws[0]) + Befores(mws[1..])
  }

  /** What they do after that call has returned, last one first. */
  function Afters(mws: seq<Middleware>): seq<Act> {
    if mws == [] then [] else Afters(mws[1..]) + AfterOf(mws[0])
  }

  lemma {:induction false} BeforesAppend(a: seq<Middleware>, b: seq<Middleware>)
    ensures Befores(a + b) == Befores(a) + Befores(b)
  {
    if a == [] {
      assert a + b == b;
    } else {
      assert (a + b)[0] == a[0] && (a + b)[1..] == a[1..] + b;
      BeforesAppend(a[1..], b);
    }
  }

  lemma {:induction false} AftersAppend(a: seq<Middleware>, b: seq<Middleware>)
    ensures Afters(a + b) == Afters(b) + Afters(a)
  {
    if a == [] {
      assert a + b == b;
    } else {
      assert (a + b)[0] == a[0] && (a + b)[1..] == a[1..] + b;
      AftersAppend(a[1..], b);
    }
  }

  /** Calls made one after the other, as one. */
  lemma {:induction false} PlayAppend(w: World, a: seq<Act>, b: seq<Act>)
    ensures Play(w, a + b) == if Play(w, a).panicked then Play(w, a) else Play(Play(w, a).world, b)
    decreases |a|
  {
    if a == [] {
      assert a + b == b;
    } else {
      assert (a + b)[0] == a[0] && (a + b)[1..] == a[1..] + b;
      if !Breaks(w.resp, a[0]) { PlayAppend(Do(w, a[0]), a[1..], b); }
    }
  }

  /** A middleware of the application that calls on. */
  predicate Passes(mw: Middleware) { mw.Custom? && !mw.refuses }

  predicate AllPass(mws: seq<Middleware>) { forall i | 0 <= i < |mws| :: Passes(mws[i]) }

  predicate NonePanics(mws: seq<Middleware>) { forall i | 0 <= i < |mws| :: mws[i].Custom? ==> !mws[i].panics }

  lemma PassTail(mws: seq<Middleware>)
    requires mws != [] && AllPass(mws)
    ensures Passes(mws[0]) && AllPass(mws[1..]) && (NonePanics(mws) ==> !mws[0].panics && NonePanics(mws[1..]))
  {
    assert forall i | 0 <= i < |mws| - 1 :: mws[1..][i] == mws[i + 1];
  }

  /** A chain around a handler that returns: all befores in order, the handler, all afters in reverse,
      up to the first call that panics. */
  lemma {:induction false} ChainRuns(acts: seq<Act>, mws: seq<Middleware>, r: Request, w: World)
    requires AllPass(mws) && NonePanics(mws)
    ensures Serve(Chain(Leaf(acts, false), mws), r, w) == Play(w, Befores(mws) + acts + Afters(mws))
    decreases |mws|
  {
    if mws == [] {
      assert [] + acts + [] == acts;
    } else {
      PassTail(mws);
      var before, after := mws[0].before, mws[0].after;
      var inner := Befores(mws[1..]) + acts + Afters(mws[1..]);
      assert Befores(mws) + acts + Afters(mws) == before + (inner + after);
      assert Chain(Leaf(acts, false), mws) == Wrap(mws[0], Chain(Leaf(acts, false), mws[1..]));
      hide Serve, Play, Befores, Afters, Chain;
      var start := Play(w, before);
      CustomIs(mws[0], Chain(Leaf(acts, false), mws[1..]), r, w);
      ChainRuns(acts, mws[1..], r, start.world);
      PlayAppend(w, before, inner + after);
      PlayAppend(start.world, inner, after);
    }
  }

  /** ... around a handler that panics: the same befores and the handler, and no after. */
  lemma {:induction false} PanicSkipsAfters(acts: seq<Act>, mws: seq<Middleware>, r: Request, w: World)
    requires AllPass(mws)
    ensures Serve(Chain(Leaf(acts, true), mws), r, w) == Outcome(Play(w, Befores(mws) + acts).world, true)
    decreases |mws|
  {
    if mws == [] {
      assert [] + acts == acts;
    } else {
      PassTail(mws);
      var before := mws[0].before;
      assert Befores(mws) + acts == before + (Befores(mws[1..]) + acts);
      assert Chain(Leaf(acts, true), mws) == Wrap(mws[0], Chain(Leaf(acts, true), mws[1..]));
      hide Serve, Play, Befores, Chain;
      var start := Play(w, before);
      CustomIs(mws[0], Chain(Leaf(acts, true), mws[1..]), r, w);
      PanicSkipsAfters(acts, mws[1..], r, start.world);
      PlayAppend(w, before, Befores(mws[1..]) + acts);
    }
  }

  lemma RefusalSplits(mws: seq<Middleware>, k: nat)
    requires 0 < k < |mws| && AllPass(mws[..k]) && NonePanics(mws[..k + 1])
    ensures Passes(mws[0]) && !mws[0].panics && AllPass(mws[1..][..k - 1]) && NonePanics(mws[1..][..k])
    ensures Befores(mws[..k + 1]) + Afters(mws[..k]) ==
              mws[0].before + ((Befores(mws[1..][..k]) + Afters(mws[1..][..k - 1])) + mws[0].after)
  {
    PassTail(mws[..k]);
    assert mws[..k][1..] == mws[1..][..k - 1] && mws[..k + 1][1..] == mws[1..][..k];
    assert forall i | 0 <= i < k :: mws[1..][..k][i] == mws[..k + 1][i + 1];
    assert mws[..k + 1][0] == mws[0];
  }

  /** ... with a middleware that refuses: the befores up to and with its own, the afters of those outside
      it, and neither the handler nor anything else inside. */
  lemma {:induction false} RefusalStops(h: Handler, mws: seq<Middleware>, k: nat, r: Request, w: World)
    requires k < |mws| && AllPass(mws[..k]) && mws[k].Custom? && mws[k].refuses && NonePanics(mws[..k + 1])
    ensures Serve(Chain(h, mws), r, w) == Play(w, Befores(mws[..k + 1]) + Afters(mws[..k]))
    decreases |mws|
  {
    assert Chain(h, mws) == Wrap(mws[0], Chain(h, mws[1..]));
    hide Serve, Play, Chain;
    if k == 0 {
      assert mws[..1][0] == mws[0] && mws[..1][1..] == [] && mws[..0] == [];
      assert Befores(mws[..1]) + Afters([]) == mws[0].before;
      CustomIs(mws[0], Chain(h, mws[1..]), r, w);
    } else {
      hide Befores, Afters, AllPass, NonePanics;
      var before, after := mws[0].before, mws[0].after;
      RefusalSplits(mws, k);
      var inner := Befores(mws[1..][..k]) + Afters(mws[1..][..k - 1]);
      var start := Play(w, before);
      CustomIs(mws[0], Chain(h, mws[1..]), r, w);
      assert mws[1..][k - 1] == mws[k];
      RefusalStops(h, mws[1..], k - 1, r, start.world);
      PlayAppend(w, before, inner + after);
      PlayAppend(start.world, inner, after);
    }
  }

  /** What the router's handler runs for a request: the parts before of the globals and of the route
      middlewares from the root on, the handler, and their parts after in reverse. */
  lemma {:induction false} RequestRuns(h: Handler, globals: seq<Middleware>, line: seq<Middleware>, acts: seq<Act>,
      r: Request, w: World)
    requires Layers(h) == globals + line && Core(h) == Leaf(acts, false)
    requires AllPass(globals + line) && NonePanics(globals + line)
    ensures Serve(h, r, w) ==
              Play(w, Befores(globals) + Befores(line) + acts + Afters(line) + Afters(globals))
  {
    LayersDetermine(h);
    hide Serve, Play, Befores, Afters, Chain;
    ChainRuns(acts, globals + line, r, w);
    BeforesAppend(globals, line);
    AftersAppend(globals, line);
    assert Befores(globals) + Befores(line) + acts + (Afters(line) + Afters(globals))
        == Befores(globals) + Befores(line) + acts + Afters(line) + Afters(globals);
  }

  // Any middlewares

  /** Recovery, metrics with a route function that answers, and middlewares that call on. */
  predicate Plain(mw: Middleware) {
    match mw
    case Recovery => true
    case Metrics(answer) => answer.Route?
    case Custom(_, refuses, _, panics) => !refuses && !panics
  }

  predicate AllPlain(mws: seq<Middleware>) { forall i | 0 <= i < |mws| :: Plain(mws[i]) }

  /** The response of a call whose play does not panic. */
  predicate Gives(out: Outcome, played: Outcome) {
    !played.panicked ==> !out.panicked && out.world.resp == played.world.resp
  }

  lemma {:induction false} CustomGives(mw: Middleware, next: Handler, inner: seq<Act>, r: Request, w: World)
    requires mw.Custom? && !mw.refuses && !mw.panics
    requires Gives(Serve(next, r, Play(w, mw.before).world), Play(Play(w, mw.before).world, inner))
    ensures Gives(Serve(Wrap(mw, next), r, w), Play(w, mw.before + (inner + mw.after)))
  {
    hide Serve, Play;
    var start := Play(w, mw.before);
    CustomIs(mw, next, r, w);
    PlayAppend(w, mw.before, inner + mw.after);
    PlayAppend(start.world, inner, mw.after);
    if !start.panicked && !Play(start.world, inner).panicked {
      PlayUnder(Serve(next, r, start.world).world, Play(start.world, inner).world, mw.after);
    }
  }

  lemma {:induction false} OneGives(mw: Middleware, next: Handler, inner: seq<Act>, r: Request, w: World)
    requires Plain(mw) && Settled(w.meter)
    requires var w1 := Play(w, BeforeOf(mw)).world; Gives(Serve(next, r, w1), Play(w1, inner))
    ensures Gives(Serve(Wrap(mw, next), r, w), Play(w, BeforeOf(mw) + (inner + AfterOf(mw))))
  {
    if mw.Custom? {
      CustomGives(mw, next, inner, r, w);
    } else {
      assert Play(w, []).world == w && [] + (inner + []) == inner;
      hide Serve, Play;
      if mw.Recovery? { RecoveryIs(next, r, w); } else { MetricsAreTransparent(next, mw.answer.name, r, w); }
    }
  }

  lemma {:induction false} StackSplits(acts: seq<Act>, mws: seq<Middleware>)
    requires mws != [] && AllPlain(mws)
    ensures Plain(mws[0]) && AllPlain(mws[1..])
    ensures Befores(mws) + acts + Afters(mws) ==
              BeforeOf(mws[0]) + ((Befores(mws[1..]) + acts + Afters(mws[1..])) + AfterOf(mws[0]))
    ensures Chain(Leaf(acts, false), mws) == Wrap(mws[0], Chain(Leaf(acts, false), mws[1..]))
  {
    assert forall i | 0 <= i < |mws| - 1 :: mws[1..][i] == mws[i + 1];
  }

  /** Recovery and metrics anywhere in between change nothing about what the client gets. */
  lemma {:induction false} StackRuns(acts: seq<Act>, mws: seq<Middleware>, r: Request, w: World)
    requires AllPlain(mws) && Settled(w.meter)
    ensures Gives(Serve(Chain(Leaf(acts, false), mws), r, w), Play(w, Befores(mws) + acts + Afters(mws)))
    decreases |mws|
  {
    if mws == [] {
      assert [] + acts + [] == acts;
    } else {
      hide *;
      StackSplits(acts, mws);
      var start := Play(w, BeforeOf(mws[0])).world;
      assert Settled(start.meter);
      StackRuns(acts, mws[1..], r, start);
      OneGives(mws[0], Chain(Leaf(acts, false), mws[1..]), Befores(mws[1..]) + acts + Afters(mws[1..]), r, w);
    }
  }

  // What the client reads

  function Text(acts: seq<Act>): string {
    if acts == [] then "" else (if acts[0].Write? then acts[0].chunk else "") + Text(acts[1..])
  }

  lemma {:induction false} TextIsSent(w: World, acts: seq<Act>)
    requires !Play(w, acts).panicked
    ensures var code := if w.resp.code.Set? then w.resp.code.code else FirstCode(acts);
            Play(w, acts).world.resp.body == w.resp.body + (if HasBody(code) then Text(acts) else "")
    decreases |acts|
  {
    if acts != [] {
      TextIsSent(Do(w, acts[0]), acts[1..]);
      assert Play(w, acts) == Play(Do(w, acts[0]), acts[1..]);
      hide Play;
    }
  }

  /** A fresh client gets the first final status that anybody on the way sets, and 200 if the body comes
      first; and it reads everything that is written on the way, in the order above, unless that status
      has no body. */
  lemma {:induction false} ClientGets(acts: seq<Act>, mws: seq<Middleware>, r: Request, w: World)
    requires AllPlain(mws) && Settled(w.meter) && w.resp == Response(Unset, [], "")
    requires 100 <= FirstCode(Befores(mws) + acts + Afters(mws)) <= 999
    ensures var all := Befores(mws) + acts + Afters(mws);
            var out := Serve(Chain(Leaf(acts, false), mws), r, w);
            && !out.panicked && Sent(out.world.resp) == FirstCode(all)
            && out.world.resp.body ==
                 (if FirstCode(all) == 101 || FirstCode(all) == 204 || FirstCode(all) == 304 then "" else Text(all))
  {
    var all := Befores(mws) + acts + Afters(mws);
    StackRuns(acts, mws, r, w);
    FirstCodeWins(w, all);
    TextIsSent(w, all);
    CodeIsFinal(all);
    if Undecided(all) { UndecidedIsOk(all); }
    hide Serve, Play, Befores, Afters, Text, FirstCode;
  }

  lemma {:induction false} CodeIsFinal(acts: seq<Act>)
    ensures !Informational(FirstCode(acts))
  {
    if acts != [] { CodeIsFinal(acts[1..]); }
  }

  lemma {:induction false} ErrorIs500(w: World)
    requires w.resp.code.Unset?
    ensures var out := Play(w, ErrorResponse());
            && !out.panicked && out.world.resp.code == Set(500)
            && out.world.resp.body ==
                 w.resp.body + "{\"message\":\"Something went wrong!\",\"code\":\"INTERNAL_ERROR\"}\n"
  {
    assert ErrorResponse()[1..] == [Write(ERROR_BODY)] && [Write(ERROR_BODY)][1..] == [];
    var w1 := Do(w, WriteHeader(INTERNAL_SERVER_ERROR));
    assert Play(w1, [Write(ERROR_BODY)]) == Play(Do(w1, Write(ERROR_BODY)), []);
  }

  /** Recovery answers a panic in front of which nothing final was sent with status 500 and the generic
      error as its body. */
  lemma {:induction false} PanicIsAnswered(acts: seq<Act>, r: Request, w: World)
    requires w.resp.code.Unset? && Undecided(acts)
    ensures var out := Serve(Wrap(Recovery, Leaf(acts, true)), r, w);
            && !out.panicked && out.world.resp.code == Set(500)
            && out.world.resp.body ==
                 w.resp.body + "{\"message\":\"Something went wrong!\",\"code\":\"INTERNAL_ERROR\"}\n"
  {
    RecoveryIs(Leaf(acts, true), r, w);
    assert Serve(Leaf(acts, true), r, w) == Outcome(Play(w, acts).world, true);
    assert !Invalid(OK);
    hide Serve, Play, FirstCode, Text;
    FirstCodeWins(w, acts);
    UndecidedIsOk(acts);
    TextIsSent(w, acts);
    NoText(acts);
    ErrorIs500(Play(w, acts).world);
  }

  lemma {:induction false} NoText(acts: seq<Act>)
    requires Undecided(acts)
    ensures Text(acts) == ""
  {
    if acts != [] {
      assert forall i | 0 <= i < |acts| - 1 :: acts[1..][i] == acts[i + 1];
      NoText(acts[1..]);
    }
  }
}
