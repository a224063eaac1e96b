/** Whole-engine consequences: the greeting example of the repository's
    demo driver, re-registration, and what building and weaving give a
    client of either implementation. */
module Scenarios {
  import opened Advice
  import opened Registration
  import opened Dispatch
  import DP = DynamicProxyAspect
  import AI = AspectImplementation

  const GreetingInterface := Interface("Greeting")
  const Greet := Op(GreetingInterface, "greet", ["String"])

  /** The demo's three advices for `greet`, each named by what it prints. */
  const GreetingBefore := Action("This is a greeting....", None)
  const GreetingAround := Action("Hello Ioanna! I'm an aspect! ", None)
  const GreetingAfter := Action("The greeting has been done.", None)

  /** A greeting object: `greet(name)` returns the text "Hello <name>!". */
  const SimpleGreeting := TargetObject(
    [GreetingInterface],
    (op: Op, args: seq<Value>) =>
      if op == Greet && |args| == 1 && args[0].Text? then Returned(Text("Hello " + args[0].text + "!"))
      else Returned(Null))

  /** The demo's builder calls, in the demo's order. */
  const GreetingCalls: seq<Call> := [
    DeclareTargets([GreetingInterface]),
    Register(Before, GreetingBefore, [Greet]),
    Register(After, GreetingAfter, [Greet]),
    Register(Around, GreetingAround, [Greet])
  ]

  /** The greeting aspect built by the demo runs before, around, after on
      `greet`, never the target's own `greet`, and returns `Null`. */
  lemma GreetingWithAround(target: TargetObject, args: seq<Value>)
    ensures DispatchFor(Replay(GreetingCalls), target, Greet, args)
      == Execution([Ran(GreetingBefore), Ran(GreetingAround), Ran(GreetingAfter)], Returned(Null))
  {
    LastWriteWins(GreetingCalls, 1, Before, Greet);
    LastWriteWins(GreetingCalls, 2, After, Greet);
    LastWriteWins(GreetingCalls, 3, Around, Greet);
    Completes(Some(GreetingBefore), Some(GreetingAround), Some(GreetingAfter), target, Greet, args);
  }

  /** Without the around-registration, `greet` of the target runs between
      before and after, and its result is what the caller gets. */
  lemma GreetingWithoutAround(target: TargetObject, args: seq<Value>)
    requires target.call(Greet, args).Returned?
    ensures DispatchFor(Replay(GreetingCalls[..3]), target, Greet, args)
      == Execution([Ran(GreetingBefore), Called(Greet, args), Ran(GreetingAfter)], target.call(Greet, args))
  {
    var calls := GreetingCalls[..3];
    LastWriteWins(calls, 1, Before, Greet);
    LastWriteWins(calls, 2, After, Greet);
    NeverRegistered(calls, Around, Greet);
    Completes(Some(GreetingBefore), None, Some(GreetingAfter), target, Greet, args);
  }

  /** Woven without the around-registration, the greeting object's own
      `greet("Jo")` runs between the two advices and its "Hello Jo!" is
      what the caller gets. */
  lemma PlainGreetingIsReturned()
    ensures DispatchFor(Replay(GreetingCalls[..3]), SimpleGreeting, Greet, [Text("Jo")])
      == Execution([Ran(GreetingBefore), Called(Greet, [Text("Jo")]), Ran(GreetingAfter)],
                   Returned(Text("Hello Jo!")))
  {
    assert "Hello " + "Jo" + "!" == "Hello Jo!";
    assert SimpleGreeting.call(Greet, [Text("Jo")]) == Returned(Text("Hello Jo!"));
    GreetingWithoutAround(SimpleGreeting, [Text("Jo")]);
  }

  /** Registering `second` for (`t`, `op`) after `first` leaves no trace of
      `first`: every call of `op` behaves as if only `second` had been registered. */
  lemma OnlyLatestFires(calls: seq<Call>, t: Timing, first: Action, second: Action, op: Op,
                        target: TargetObject, args: seq<Value>)
    ensures DispatchFor(Replay(calls + [Register(t, first, [op]), Register(t, second, [op])]), target, op, args)
         == DispatchFor(Replay(calls + [Register(t, second, [op])]), target, op, args)
  {
    var twice := calls + [Register(t, first, [op]), Register(t, second, [op])];
    var once := calls + [Register(t, second, [op])];
    assert twice[..|twice| - 1] == calls + [Register(t, first, [op])];
    assert twice[..|twice| - 1][..|calls|] == calls;
    assert once[..|once| - 1] == calls;
    var base := Replay(calls);
    var mid := Apply(base, Register(t, first, [op]));
    forall u: Timing
      ensures Lookup(Replay(twice), u, op) == Lookup(Replay(once), u, op)
    {
      ApplyFrame(base, Register(t, first, [op]), u, op);
      ApplyFrame(mid, Register(t, second, [op]), u, op);
      ApplyFrame(base, Register(t, second, [op]), u, op);
    }
  }

  /** The demo run on `DynamicProxyAspect`: build the greeting aspect, weave
      it onto a greeting object and call `greet`.  The proxy implements the
      target's own interfaces, and the call prints the three advices only. */
  method GreetThroughDynamicProxy(name: string) returns (interfaces: seq<Interface>, trace: seq<Event>, outcome: Outcome)
    ensures interfaces == SimpleGreeting.interfaces
    ensures trace == [Ran(GreetingBefore), Ran(GreetingAround), Ran(GreetingAfter)]
    ensures outcome == Returned(Null)
  {
    var builder := new DP.AspectBuilder();
    var b := builder.WithTargets([GreetingInterface]);
    b := b.WithBeforeAdviceFor(GreetingBefore, [Greet]);
    b := b.WithAfterAdviceFor(GreetingAfter, [Greet]);
    b := b.WithAroundAdviceFor(GreetingAround, [Greet]);
    ReplayGreetingCalls();
    var aspect := b.Build();
    var weaver := new DP.AspectWeaver(aspect);
    var proxy := weaver.Weave(SimpleGreeting);
    interfaces := proxy.interfaces;
    GreetingWithAround(SimpleGreeting, [Text(name)]);
    trace, outcome := proxy.Invoke(Greet, [Text(name)]);
  }

  /** The same demo on `AspectImplementation`: the proxy implements the
      aspect's targets. */
  method GreetThroughAspectImplementation(name: string) returns (interfaces: seq<Interface>, trace: seq<Event>, outcome: Outcome)
    ensures interfaces == [GreetingInterface]
    ensures trace == [Ran(GreetingBefore), Ran(GreetingAround), Ran(GreetingAfter)]
    ensures outcome == Returned(Null)
  {
    var builder := new AI.Builder();
    var b := builder.WithTargets([GreetingInterface]);
    b := b.WithBeforeAdviceFor(GreetingBefore, [Greet]);
    b := b.WithAfterAdviceFor(GreetingAfter, [Greet]);
    b := b.WithAroundAdviceFor(GreetingAround, [Greet]);
    ReplayGreetingCalls();
    var aspect := b.Build();
    var weaver := new AI.Weaver();
    var proxy := weaver.Weave(aspect, SimpleGreeting);
    interfaces := proxy.value.interfaces;
    GreetingWithAround(SimpleGreeting, [Text(name)]);
    trace, outcome := proxy.value.Invoke(Greet, [Text(name)]);
  }

  lemma ReplayGreetingCalls()
    ensures Replay(GreetingCalls)
      == Apply(Apply(Apply(Apply(Initial, GreetingCalls[0]), GreetingCalls[1]), GreetingCalls[2]), GreetingCalls[3])
  {
    var cs := GreetingCalls;
    assert cs[..3][..2][..1] == [cs[0]] && cs[..3][..2] == [cs[0], cs[1]];
    assert Replay([cs[0]]) == Apply(Initial, cs[0]) by {
      assert [cs[0]][..0] == [];
    }
    assert Replay(cs[..2]) == Apply(Replay([cs[0]]), cs[1]);
    assert Replay(cs[..3]) == Apply(Replay(cs[..2]), cs[2]);
  }

  /** A built `DynamicProxyAspect` shares its maps with its builder: advice
      registered after `build()` is seen through the aspect, while a later
      `withTargets` is not. */
  method DynamicProxyAspectSharesMaps(a: Action, m: Op, ts: seq<Interface>)
    returns (before: Option<Action>, targets: Option<seq<Interface>>)
    ensures before == Some(a)
    ensures targets == None
  {
    var builder := new DP.AspectBuilder();
    var aspect := builder.Build();
    var b := builder.WithBeforeAdviceFor(a, [m]);
    b := b.WithTargets(ts);
    before := aspect.BeforeAdviceFor(m);
    targets := aspect.GetTargets();
  }

  /** The same sharing for `AspectImplementation`, and two aspects built
      from one builder keep agreeing, whatever is registered after. */
  method AspectImplementationSharesMaps(a: Action, m: Op, ts: seq<Interface>)
    returns (first: Option<Action>, second: Option<Action>, targets: Option<seq<Interface>>)
    ensures first == Some(a) && second == Some(a)
    ensures targets == None
  {
    var builder := new AI.Builder();
    var aspect1 := builder.Build();
    var aspect2 := builder.Build();
    var b := builder.WithAroundAdviceFor(a, [m]);
    b := b.WithTargets(ts);
    first := aspect1.AroundAdviceFor(m);
    second := aspect2.AroundAdviceFor(m);
    targets := aspect1.GetTargets();
  }
}
