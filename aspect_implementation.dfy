/** The aspect engine of `AspectImplementation.java`: the aspect built from
    a builder, the builder, and the weaver whose handler looks up all
    three advices of an operation before running any of them. */
module AspectImplementation {
  import opened Advice
  import opened Registration
  import opened Dispatch

  /** A built aspect.  It takes the builder's targets and the builder's own
      three map objects, so it shares them with the builder. */
  class AspectImplementation {
    const targets: Option<seq<Interface>>
    const beforeAdvice: AdviceMap
    const afterAdvice: AdviceMap
    const aroundAdvice: AdviceMap

    constructor (builder: Builder)
      ensures targets == builder.targets
      ensures beforeAdvice == builder.beforeAdvice && afterAdvice == builder.afterAdvice
      ensures aroundAdvice == builder.aroundAdvice
    {
      targets := builder.targets;
      beforeAdvice := builder.beforeAdvice;
      afterAdvice := builder.afterAdvice;
      aroundAdvice := builder.aroundAdvice;
    }

    /** The aspect's targets and advice, as they stand now. */
    function View(): Config
      reads beforeAdvice, afterAdvice, aroundAdvice
    {
      Config(targets, beforeAdvice.entries, afterAdvice.entries, aroundAdvice.entries)
    }

    function GetTargets(): (r: Option<seq<Interface>>)
      ensures r == View().targets
    {
      targets
    }

    /** The before-advice stored for `m`, or absent; only the before map is read. */
    function BeforeAdviceFor(m: Op): (r: Option<Action>)
      reads beforeAdvice
      ensures r.Some? <==> m in beforeAdvice.entries
      ensures r.Some? ==> r.value == beforeAdvice.entries[m]
      ensures r == Lookup(View(), Before, m)
    {
      beforeAdvice.Get(m)
    }

    /** The after-advice stored for `m`, or absent; only the after map is read. */
    function AfterAdviceFor(m: Op): (r: Option<Action>)
      reads afterAdvice
      ensures r.Some? <==> m in afterAdvice.entries
      ensures r.Some? ==> r.value == afterAdvice.entries[m]
      ensures r == Lookup(View(), After, m)
    {
      afterAdvice.Get(m)
    }

    /** The around-advice stored for `m`, or absent; only the around map is read. */
    function AroundAdviceFor(m: Op): (r: Option<Action>)
      reads aroundAdvice
      ensures r.Some? <==> m in aroundAdvice.entries
      ensures r.Some? ==> r.value == aroundAdvice.entries[m]
      ensures r == Lookup(View(), Around, m)
    {
      aroundAdvice.Get(m)
    }
  }

  class Builder {
    var targets: Option<seq<Interface>>
    const beforeAdvice: AdviceMap
    const afterAdvice: AdviceMap
    const aroundAdvice: AdviceMap

    /** The three maps are distinct objects, so that a registration of one
        timing cannot reach the others. */
    ghost predicate Valid()
    {
      beforeAdvice != afterAdvice && beforeAdvice != aroundAdvice && afterAdvice != aroundAdvice
    }

    function State(): Config
      reads this, beforeAdvice, afterAdvice, aroundAdvice
    {
      Config(targets, beforeAdvice.entries, afterAdvice.entries, aroundAdvice.entries)
    }

    constructor ()
      ensures Valid() && State() == Initial
      ensures fresh(beforeAdvice) && fresh(afterAdvice) && fresh(aroundAdvice)
    {
      targets := None;
      beforeAdvice := new AdviceMap();
      afterAdvice := new AdviceMap();
      aroundAdvice := new AdviceMap();
    }

    /** Overwrites the targets; the advice maps are untouched. */
    method WithTargets(targets: seq<Interface>) returns (self: Builder)
      requires Valid()
      modifies this
      ensures Valid() && self == this
      ensures State() == Apply(old(State()), DeclareTargets(targets))
    {
      this.targets := Some(targets);
      return this;
    }

    /** Puts `advice` under each of `methods` in the before map, in order. */
    method WithBeforeAdviceFor(advice: Action, methods: seq<Op>) returns (self: Builder)
      requires Valid()
      modifies beforeAdvice
      ensures Valid() && self == this
      ensures State() == Apply(old(State()), Register(Before, advice, methods))
    {
      for i := 0 to |methods|
        invariant PutAll(beforeAdvice.entries, advice, methods[i..])
               == PutAll(old(beforeAdvice.entries), advice, methods)
      {
        assert methods[i..][0] == methods[i] && methods[i..][1..] == methods[i + 1..];
        beforeAdvice.Put(methods[i], advice);
      }
      return this;
    }

    /** Puts `advice` under each of `methods` in the after map, in order. */
    method WithAfterAdviceFor(advice: Action, methods: seq<Op>) returns (self: Builder)
      requires Valid()
      modifies afterAdvice
      ensures Valid() && self == this
      ensures State() == Apply(old(State()), Register(After, advice, methods))
    {
      for i := 0 to |methods|
        invariant PutAll(afterAdvice.entries, advice, methods[i..])
               == PutAll(old(afterAdvice.entries), advice, methods)
      {
        assert methods[i..][0] == methods[i] && methods[i..][1..] == methods[i + 1..];
        afterAdvice.Put(methods[i], advice);
      }
      return this;
    }

    /** Puts `advice` under each of `methods` in the around map, in order. */
    method WithAroundAdviceFor(advice: Action, methods: seq<Op>) returns (self: Builder)
      requires Valid()
      modifies aroundAdvice
      ensures Valid() && self == this
      ensures State() == Apply(old(State()), Register(Around, advice, methods))
    {
      for i := 0 to |methods|
        invariant PutAll(aroundAdvice.entries, advice, methods[i..])
               == PutAll(old(aroundAdvice.entries), advice, methods)
      {
        assert methods[i..][0] == methods[i] && methods[i..][1..] == methods[i + 1..];
        aroundAdvice.Put(methods[i], advice);
      }
      return this;
    }

    /** A new aspect from this builder: it agrees with the builder now, and,
        sharing the builder's maps, it keeps seeing every later registration. */
    method Build() returns (aspect: AspectImplementation)
      requires Valid()
      ensures fresh(aspect)
      ensures aspect.targets == targets
      ensures aspect.beforeAdvice == beforeAdvice && aspect.afterAdvice == afterAdvice
      ensures aspect.aroundAdvice == aroundAdvice
      ensures aspect.View() == State()
    {
      aspect := new AspectImplementation(this);
    }
  }

  /** The object handed back by `weave`: it implements `interfaces` and
      routes every call to its handler. */
  class Proxy {
    const interfaces: seq<Interface>
    const handler: Handler

    constructor (interfaces: seq<Interface>, handler: Handler)
      ensures this.interfaces == interfaces && this.handler == handler
    {
      this.interfaces := interfaces;
      this.handler := handler;
    }

    method Invoke(op: Op, args: seq<Value>) returns (trace: seq<Event>, outcome: Outcome)
      ensures Execution(trace, outcome) == DispatchFor(handler.aspect.View(), handler.target, op, args)
    {
      trace, outcome := handler.Invoke(op, args);
    }
  }

  class Weaver {
    constructor ()
    {
    }

    /** A proxy implementing the aspect's targets whose handler captures
        `aspect` and `target`.  Without declared targets there is nothing to
        implement and proxy creation fails (no proxy). */
    method Weave(aspect: AspectImplementation, target: TargetObject) returns (proxy: Option<Proxy>)
      ensures proxy.None? <==> aspect.targets.None?
      ensures proxy.Some? ==> fresh(proxy.value) && fresh(proxy.value.handler)
      ensures proxy.Some? ==> proxy.value.interfaces == aspect.targets.value
      ensures proxy.Some? ==> proxy.value.handler.aspect == aspect && proxy.value.handler.target == target
    {
      var targets := aspect.GetTargets();
      var handler := new Handler(aspect, target);
      if targets.None? {
        return None;
      }
      var p := new Proxy(targets.value, handler);
      return Some(p);
    }
  }

  /** The invocation handler `weave` creates, with what it captures. */
  class Handler {
    const aspect: AspectImplementation
    const target: TargetObject

    constructor (aspect: AspectImplementation, target: TargetObject)
      ensures this.aspect == aspect && this.target == target
    {
      this.aspect := aspect;
      this.target := target;
    }

    /** One intercepted call of `op`: all three advices are looked up first;
        then before-advice if present, then the around-advice (the result
        staying `Null`) or else the target's own operation, then after-advice
        if present; a raised failure ends the call.  What it does is exactly
        the dispatch protocol for the aspect's advice. */
    method Invoke(op: Op, args: seq<Value>) returns (trace: seq<Event>, outcome: Outcome)
      ensures Execution(trace, outcome) == DispatchFor(aspect.View(), target, op, args)
    {
      var beforeAdvice := aspect.BeforeAdviceFor(op);
      var aroundAdvice := aspect.AroundAdviceFor(op);
      var afterAdvice := aspect.AfterAdviceFor(op);

      trace := [];
      if beforeAdvice.Some? {
        trace := trace + [Ran(beforeAdvice.value)];
        if beforeAdvice.value.raises.Some? {
          BeforeRaises(beforeAdvice.value, aroundAdvice, afterAdvice, target, op, args);
          return trace, Threw(beforeAdvice.value.raises.value);
        }
      }

      var result := Null;
      if aroundAdvice.Some? {
        trace := trace + [Ran(aroundAdvice.value)];
        if aroundAdvice.value.raises.Some? {
          MiddleRaises(beforeAdvice, aroundAdvice, afterAdvice, target, op, args, aroundAdvice.value.raises.value);
          return trace, Threw(aroundAdvice.value.raises.value);
        }
      } else {
        trace := trace + [Called(op, args)];
        var returned := target.call(op, args);
        if returned.Threw? {
          MiddleRaises(beforeAdvice, aroundAdvice, afterAdvice, target, op, args, returned.failure);
          return trace, returned;
        }
        result := returned.value;
      }

      Completes(beforeAdvice, aroundAdvice, afterAdvice, target, op, args);
      if afterAdvice.Some? {
        trace := trace + [Ran(afterAdvice.value)];
        if afterAdvice.value.raises.Some? {
          return trace, Threw(afterAdvice.value.raises.value);
        }
      }

      return trace, Returned(result);
    }
  }
}
