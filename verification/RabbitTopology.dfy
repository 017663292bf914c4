/** rabbitmq/rabbitmq_topology.go: what is declared on every new channel, and in which order. */
module RabbitTopology {
  import opened Basics

  datatype ExchangeDecl = ExchangeDecl(
    name: string, kind: string, durable: bool, autoDelete: bool, internalOnly: bool, noWait: bool)

  datatype QueueDecl = QueueDecl(name: string, durable: bool, autoDelete: bool, exclusive: bool, noWait: bool)

  datatype BindingDecl = BindingDecl(queue: string, key: string, exchange: string, noWait: bool)

  datatype Topology = Topology(
    exchanges: seq<ExchangeDecl>, queues: seq<QueueDecl>, bindings: seq<BindingDecl>)

  /** A call made on a channel. */
  datatype Op =
    | DeclareExchange(name: string, kind: string, durable: bool, autoDelete: bool, internalOnly: bool, noWait: bool)
    | DeclareQueue(name: string, durable: bool, autoDelete: bool, exclusive: bool, noWait: bool)
    | BindQueue(queue: string, key: string, exchange: string, noWait: bool)

  /** A call with the broker's answer. */
  datatype Reply = Reply(op: Op, ok: bool)

  function ExchangeOp(e: ExchangeDecl): Op {
    DeclareExchange(e.name, if e.kind == "" then "direct" else e.kind,
                    e.durable, e.autoDelete, e.internalOnly, e.noWait)
  }

  function QueueOp(q: QueueDecl): Op { DeclareQueue(q.name, q.durable, q.autoDelete, q.exclusive, q.noWait) }

  function BindingOp(b: BindingDecl): Op { BindQueue(b.queue, b.key, b.exchange, b.noWait) }

  /** Every call of a full declaration, in order: exchanges, queues, bindings. */
  function Ops(t: Topology): (ops: seq<Op>)
    ensures |ops| == |t.exchanges| + |t.queues| + |t.bindings|
  {
    seq(|t.exchanges|, i requires 0 <= i < |t.exchanges| => ExchangeOp(t.exchanges[i]))
    + seq(|t.queues|, i requires 0 <= i < |t.queues| => QueueOp(t.queues[i]))
    + seq(|t.bindings|, i requires 0 <= i < |t.bindings| => BindingOp(t.bindings[i]))
  }

  /** `log` is how far a declaration of `ops` gets against some broker: the calls are a prefix of
      `ops` and only the last one may have failed. */
  predicate Attempt(ops: seq<Op>, log: seq<Reply>) {
    && |log| <= |ops|
    && (forall i | 0 <= i < |log| :: log[i].op == ops[i])
    && (forall i | 0 <= i < |log| - 1 :: log[i].ok)
  }

  predicate Succeeded(log: seq<Reply>) { log == [] || log[|log| - 1].ok }

  /** Every call was made and answered well. */
  predicate Complete(ops: seq<Op>, log: seq<Reply>) {
    Attempt(ops, log) && |log| == |ops| && Succeeded(log)
  }

  lemma AttemptGrows(ops: seq<Op>, log: seq<Reply>, ok: bool)
    requires Attempt(ops, log) && Succeeded(log) && |log| < |ops|
    ensures Attempt(ops, log + [Reply(ops[|log|], ok)])
    ensures Succeeded(log + [Reply(ops[|log|], ok)]) <==> ok
  {
  }

  lemma OpsOrder(t: Topology, i: nat)
    ensures i < |t.exchanges| ==> Ops(t)[i] == ExchangeOp(t.exchanges[i])
    ensures i < |t.queues| ==> Ops(t)[|t.exchanges| + i] == QueueOp(t.queues[i])
    ensures i < |t.bindings| ==> Ops(t)[|t.exchanges| + |t.queues| + i] == BindingOp(t.bindings[i])
  {
  }

  function Size(t: Topology): nat { |t.exchanges| + |t.queues| + |t.bindings| }

  /** `op` declares exchange `e` under its name and with its flags; a missing kind is "direct". */
  predicate ForExchange(op: Op, e: ExchangeDecl) {
    && op.DeclareExchange? && op.name == e.name
    && (e.kind == "" ==> op.kind == "direct") && (e.kind != "" ==> op.kind == e.kind)
    && (op.durable <==> e.durable) && (op.autoDelete <==> e.autoDelete)
    && (op.internalOnly <==> e.internalOnly) && (op.noWait <==> e.noWait)
  }

  predicate ForQueue(op: Op, q: QueueDecl) {
    && op.DeclareQueue? && op.name == q.name
    && (op.durable <==> q.durable) && (op.autoDelete <==> q.autoDelete)
    && (op.exclusive <==> q.exclusive) && (op.noWait <==> q.noWait)
  }

  /** `op` binds the queue of `b` to its exchange with its key. */
  predicate ForBinding(op: Op, b: BindingDecl) {
    op.BindQueue? && op.queue == b.queue && op.exchange == b.exchange && op.key == b.key && (op.noWait <==> b.noWait)
  }

  /** Call number `i`: the exchanges in their order, then the queues, then the bindings. */
  predicate RightCall(t: Topology, i: nat, op: Op)
    requires i < Size(t)
  {
    if i < |t.exchanges| then ForExchange(op, t.exchanges[i])
    else if i < |t.exchanges| + |t.queues| then ForQueue(op, t.queues[i - |t.exchanges|])
    else ForBinding(op, t.bindings[i - |t.exchanges| - |t.queues|])
  }

  predicate CallsFor(t: Topology, log: seq<Reply>) {
    |log| <= Size(t) && forall i | 0 <= i < |log| :: RightCall(t, i, log[i].op)
  }

  /** The whole topology is declared: every call was made for its declaration and answered well. */
  predicate Declares(t: Topology, log: seq<Reply>) {
    CallsFor(t, log) && |log| == Size(t) && forall i | 0 <= i < |log| :: log[i].ok
  }

  lemma RightIff(t: Topology, i: nat, op: Op)
    requires i < Size(t)
    ensures RightCall(t, i, op) <==> op == Ops(t)[i]
  {
    var a, b := |t.exchanges|, |t.queues|;
    OpsOrder(t, if i < a then i else if i < a + b then i - a else i - a - b);
    hide Ops;
  }

  /** An attempt is known by the declarations: its calls are theirs, in order, and only the last may
      have failed. */
  lemma AttemptIff(t: Topology, log: seq<Reply>)
    ensures Attempt(Ops(t), log) <==> CallsFor(t, log) && forall i | 0 <= i < |log| - 1 :: log[i].ok
  {
    hide Ops, RightCall;
    forall i | 0 <= i < |log| && i < Size(t)
      ensures RightCall(t, i, log[i].op) <==> log[i].op == Ops(t)[i]
    {
      RightIff(t, i, log[i].op);
    }
  }

  lemma CompleteIff(t: Topology, log: seq<Reply>)
    ensures Complete(Ops(t), log) <==> Declares(t, log)
  {
    AttemptIff(t, log);
    hide CallsFor, Attempt;
    assert Declares(t, log) ==> Succeeded(log);
  }

  /** A channel as declareTopology sees it: calls go out, the broker answers as it likes. */
  class BrokerChannel {
    var log: seq<Reply>

    constructor ()
      ensures log == []
    {
      log := [];
    }

    method Issue(op: Op) returns (ok: bool)
      modifies this
      ensures log == old(log) + [Reply(op, ok)]
    {
      ok := *;
      log := log + [Reply(op, ok)];
    }
  }

  /** The next call of an attempt that has gone well so far. */
  method MakeCall(ch: BrokerChannel, op: Op, ghost topo: Topology) returns (ok: bool)
    requires |ch.log| < Size(topo) && op == Ops(topo)[|ch.log|]
    requires Attempt(Ops(topo), ch.log) && Succeeded(ch.log)
    modifies ch
    ensures ch.log == old(ch.log) + [Reply(op, ok)]
    ensures Attempt(Ops(topo), ch.log) && CallsFor(topo, ch.log) && (Succeeded(ch.log) <==> ok)
  {
    ok := ch.Issue(op);
    hide Ops, Attempt, CallsFor;
    AttemptGrows(Ops(topo), old(ch.log), ok);
    AttemptIff(topo, ch.log);
  }

  /** Stops at the first failing call; without one, makes every call. */
  method DeclareTopology(ch: BrokerChannel, topo: Topology) returns (err: Option<Op>)
    requires ch.log == []
    modifies ch
    ensures Attempt(Ops(topo), ch.log) && CallsFor(topo, ch.log)
    ensures err.None? ==> Complete(Ops(topo), ch.log) && Declares(topo, ch.log)
    ensures err.Some? ==> ch.log != [] && ch.log[|ch.log| - 1] == Reply(err.value, false)
  {
    assert Attempt(Ops(topo), []) && Succeeded([]);
    hide Ops, Attempt, CallsFor, Declares, Succeeded;
    var ok: bool;
    for i := 0 to |topo.exchanges|
      invariant |ch.log| == i && Attempt(Ops(topo), ch.log) && Succeeded(ch.log)
    {
      var e := topo.exchanges[i];
      var kind := e.kind;
      if kind == "" { kind := "direct"; }
      OpsOrder(topo, i);
      var op := DeclareExchange(e.name, kind, e.durable, e.autoDelete, e.internalOnly, e.noWait);
      ok := MakeCall(ch, op, topo);
      if !ok { return Some(op); }
    }
    for i := 0 to |topo.queues|
      invariant |ch.log| == |topo.exchanges| + i && Attempt(Ops(topo), ch.log) && Succeeded(ch.log)
    {
      var q := topo.queues[i];
      OpsOrder(topo, i);
      var op := DeclareQueue(q.name, q.durable, q.autoDelete, q.exclusive, q.noWait);
      ok := MakeCall(ch, op, topo);
      if !ok { return Some(op); }
    }
    for i := 0 to |topo.bindings|
      invariant |ch.log| == |topo.exchanges| + |topo.queues| + i && Attempt(Ops(topo), ch.log) && Succeeded(ch.log)
    {
      var b := topo.bindings[i];
      OpsOrder(topo, i);
      var op := BindQueue(b.queue, b.key, b.exchange, b.noWait);
      ok := MakeCall(ch, op, topo);
      if !ok { return Some(op); }
    }
    CompleteIff(topo, ch.log);
    AttemptIff(topo, ch.log);
    return None;
  }

  /** The attempt that a broker cuts short is the shortest prefix ending in a failure: two attempts
      against the same answers are the same attempt. */
  lemma {:induction false} AttemptUnique(ops: seq<Op>, a: seq<Reply>, b: seq<Reply>, answers: seq<bool>)
    requires Attempt(ops, a) && Attempt(ops, b) && |answers| == |ops|
    requires forall i | 0 <= i < |a| :: a[i].ok == answers[i]
    requires forall i | 0 <= i < |b| :: b[i].ok == answers[i]
    requires Complete(ops, a) || !Succeeded(a)
    requires Complete(ops, b) || !Succeeded(b)
    ensures a == b
  {
    assert |a| == |b|;
    assert forall i | 0 <= i < |a| :: a[i].op == b[i].op && a[i].ok == b[i].ok;
  }
}
