/** What a builder holds and how each of its calls changes it, as values.
    Both builders (`DynamicProxyAspect.AspectBuilder` and
    `AspectImplementation.Builder`) are proved to follow `Apply`, so the
    lemmas here hold of every sequence of calls made on either of them. */
module Registration {
  import opened Advice

  datatype Timing = Before | After | Around

  /** The declared target interfaces (absent until `withTargets` is called)
      and one advice map per timing. */
  datatype Config = Config(
    targets: Option<seq<Interface>>,
    before: map<Op, Action>,
    after: map<Op, Action>,
    around: map<Op, Action>)

  /** A freshly constructed builder: no targets, no advice. */
  const Initial: Config := Config(None, map[], map[], map[])

  /** One call on a builder. */
  datatype Call =
    | DeclareTargets(targets: seq<Interface>)
    | Register(timing: Timing, action: Action, ops: seq<Op>)

  function AdviceOf(c: Config, t: Timing): map<Op, Action>
  {
    match t
    case Before => c.before
    case After => c.after
    case Around => c.around
  }

  /** The advice of timing `t` for `op`, or absent. */
  function Lookup(c: Config, t: Timing, op: Op): Option<Action>
  {
    var m := AdviceOf(c, t);
    if op in m then Some(m[op]) else None
  }

  /** The map after putting `a` under each of `ops`, one after the other. */
  function PutAll(m: map<Op, Action>, a: Action, ops: seq<Op>): (r: map<Op, Action>)
    ensures r.Keys == m.Keys + set o | o in ops
    ensures forall o :: o in ops ==> r[o] == a
    ensures forall o :: o in m && o !in ops ==> r[o] == m[o]
    decreases |ops|
  {
    if ops == [] then m else PutAll(m[ops[0] := a], a, ops[1..])
  }

  function Apply(c: Config, call: Call): Config
  {
    match call
    case DeclareTargets(ts) => c.(targets := Some(ts))
    case Register(Before, a, ops) => c.(before := PutAll(c.before, a, ops))
    case Register(After, a, ops) => c.(after := PutAll(c.after, a, ops))
    case Register(Around, a, ops) => c.(around := PutAll(c.around, a, ops))
  }

  /** The state of a builder after the given calls, made in order on a new builder. */
  function Replay(calls: seq<Call>): Config
  {
    if calls == [] then Initial else Apply(Replay(calls[..|calls| - 1]), calls[|calls| - 1])
  }

  /** `call` puts an action under `op` for timing `t`. */
  predicate Registers(call: Call, t: Timing, op: Op)
  {
    call.Register? && call.timing == t && op in call.ops
  }

  /** A registration reaches exactly the listed operations of its own timing,
      and leaves the declared targets alone; declaring targets changes nothing else. */
  lemma ApplyFrame(c: Config, call: Call, t: Timing, op: Op)
    ensures Registers(call, t, op) ==> Lookup(Apply(c, call), t, op) == Some(call.action)
    ensures !Registers(call, t, op) ==> Lookup(Apply(c, call), t, op) == Lookup(c, t, op)
    ensures call.Register? ==> Apply(c, call).targets == c.targets
    ensures call.Register? && call.timing != t ==> AdviceOf(Apply(c, call), t) == AdviceOf(c, t)
    ensures call.DeclareTargets? ==> Apply(c, call) == c.(targets := Some(call.targets))
  {
  }

  /** Registering an action for no operation leaves the builder as it was. */
  lemma RegisterNothing(c: Config, t: Timing, a: Action)
    ensures Apply(c, Register(t, a, [])) == c
  {
  }

  /** The last registration for (`t`, `op`) is the one that is looked up,
      whatever came before it and whatever other calls follow it. */
  lemma {:induction false} LastWriteWins(calls: seq<Call>, i: nat, t: Timing, op: Op)
    requires i < |calls| && Registers(calls[i], t, op)
    requires forall j :: i < j < |calls| ==> !Registers(calls[j], t, op)
    ensures Lookup(Replay(calls), t, op) == Some(calls[i].action)
  {
    var n := |calls| - 1;
    ApplyFrame(Replay(calls[..n]), calls[n], t, op);
    if i < n {
      LastWriteWins(calls[..n], i, t, op);
    }
  }

  /** With no registration for (`t`, `op`), nothing is looked up for it. */
  lemma {:induction false} NeverRegistered(calls: seq<Call>, t: Timing, op: Op)
    requires forall j :: 0 <= j < |calls| ==> !Registers(calls[j], t, op)
    ensures Lookup(Replay(calls), t, op) == None
  {
    if calls != [] {
      var n := |calls| - 1;
      ApplyFrame(Replay(calls[..n]), calls[n], t, op);
      NeverRegistered(calls[..n], t, op);
    }
  }

  /** The last `withTargets` decides the declared targets. */
  lemma {:induction false} LastTargetsWin(calls: seq<Call>, i: nat)
    requires i < |calls| && calls[i].DeclareTargets?
    requires forall j :: i < j < |calls| ==> !calls[j].DeclareTargets?
    ensures Replay(calls).targets == Some(calls[i].targets)
  {
    var n := |calls| - 1;
    if i < n {
      LastTargetsWin(calls[..n], i);
    }
  }

  /** Without a `withTargets`, the targets stay absent. */
  lemma {:induction false} TargetsNeverDeclared(calls: seq<Call>)
    requires forall j :: 0 <= j < |calls| ==> !calls[j].DeclareTargets?
    ensures Replay(calls).targets == None
  {
    if calls != [] {
      TargetsNeverDeclared(calls[..|calls| - 1]);
    }
  }
}
