/** The aspect engine of `DynamicProxyAspect.java`: the built aspect with its
    three lookups, its fluent builder, its weaver and the invocation handler
    that every call of the proxy goes through. */
module DynamicProxyAspect {
  import opened Advice
  import opened Registration
  import opened Dispatch

  /** A built aspect.  Its three advice maps are the very map objects of the
      builder that built it, not copies. */
  class DynamicProxyAspect {
    const targets: Option<seq<Interface>>
    const beforeMap: AdviceMap
    const afterMap: AdviceMap
    const aroundMap: AdviceMap

    constructor (targets: Option<seq<Interface>>, beforeAdviceMap: AdviceMap,
                 afterAdviceMap: AdviceMap, aroundAdviceMap: AdviceMap)
      ensures this.targets == targets
      ensures beforeMap == beforeAdviceMap && afterMap == afterAdviceMap && aroundMap == aroundAdviceMap
    {
      this.targets := targets;
      beforeMap := beforeAdviceMap;
      afterMap := afterAdviceMap;
      aroundMap := aroundAdviceMap;
    }

    /** The aspect's targets and advice, as they stand now. */
    function View(): Config
      reads beforeMap, afterMap, aroundMap
    {
      Config(targets, beforeMap.entries, afterMap.entries, aroundMap.entries)
    }

    function GetTargets(): (r: Option<seq<Interface>>)
      ensures r == View().targets
    {
      targets
    }

    /** The before-advice stored for `m`, or absent; only the before map is read. */
    function BeforeAdviceFor(m: Op): (r: Option<Action>)
      reads beforeMap
      ensures r.Some? <==> m in beforeMap.entries
      ensures r.Some? ==> r.value == beforeMap.entries[m]
      ensures r == Lookup(View(), Before, m)
    {
      beforeMap.Get(m)
    }

    /** The after-advice stored for `m`, or absent; only the after map is read. */
    function AfterAdviceFor(m: Op): (r: Option<Action>)
      reads afterMap
      ensures r.Some? <==> m in afterMap.entries
      ensures r.Some? ==> r.value == afterMap.entries[m]
      ensures r == Lookup(View(), After, m)
    {
      afterMap.Get(m)
    }

    /** The around-advice stored for `m`, or absent; only the around map is read. */
    function AroundAdviceFor(m: Op): (r: Option<Action>)
      reads aroundMap
      ensures r.Some? <==> m in aroundMap.entries
      ensures r.Some? ==> r.value == aroundMap.entries[m]
      ensures r == Lookup(View(), Around, m)
    {
      aroundMap.Get(m)
    }
  }

  class AspectBuilder {
    var targets: Option<seq<Interface>>
    const beforeAdviceMap: AdviceMap
    const afterAdviceMap: AdviceMap
    const aroundAdviceMap: AdviceMap

    /** The three maps are distinct objects, so that a registration of one
        timing cannot reach the others. */
    ghost predicate Valid()
    {
      beforeAdviceMap != afterAdviceMap && beforeAdviceMap != aroundAdviceMap
      && afterAdviceMap != aroundAdviceMap
    }

    function State(): Config
      reads this, beforeAdviceMap, afterAdviceMap, aroundAdviceMap
    {
      Config(targets, beforeAdviceMap.entries, afterAdviceMap.entries, aroundAdviceMap.entries)
    }

    constructor ()
      ensures Valid() && State() == Initial
      ensures fresh(beforeAdviceMap) && fresh(afterAdviceMap) && fresh(aroundAdviceMap)
    {
      targets := None;
      beforeAdviceMap := new AdviceMap();
      afterAdviceMap := new AdviceMap();
      aroundAdviceMap := new AdviceMap();
    }

    /** Overwrites the targets; the advice maps are untouched. */
    method WithTargets(targets: seq<Interface>) returns (self: AspectBuilder)
      requires Valid()
      modifies this
      ensures Valid() && self == this
      ensures State() == Apply(old(State()), DeclareTargets(targets))
    {
      this.targets := Some(targets);
      return this;
    }

    /** Puts `beforeAdvice` under each of `methods` in the before map, in order. */
    method WithBeforeAdviceFor(beforeAdvice: Action, methods: seq<Op>) returns (self: AspectBuilder)
      requires Valid()
      modifies beforeAdviceMap
      ensures Valid() && self == this
      ensures State() == Apply(old(State()), Register(Before, beforeAdvice, methods))
    {
      for i := 0 to |methods|
        invariant PutAll(beforeAdviceMap.entries, beforeAdvice, methods[i..])
               == PutAll(old(beforeAdviceMap.entries), beforeAdvice, methods)
      {
        assert methods[i..][0] == methods[i] && methods[i..][1..] == methods[i + 1..];
        beforeAdviceMap.Put(methods[i], beforeAdvice);
      }
      return this;
    }

    /** Puts `afterAdvice` under each of `methods` in the after map, in order. */
    method WithAfterAdviceFor(afterAdvice: Action, methods: seq<Op>) returns (self: AspectBuilder)
      requires Valid()
      modifies afterAdviceMap
      ensures Valid() && self == this
      ensures State() == Apply(old(State()), Register(After, afterAdvice, methods))
    {
      for i := 0 to |methods|
        invariant PutAll(afterAdviceMap.entries, afterAdvice, methods[i..])
               == PutAll(old(afterAdviceMap.entries), afterAdvice, methods)
      {
        assert methods[i..][0] == methods[i] && methods[i..][1..] == methods[i + 1..];
        afterAdviceMap.Put(methods[i], afterAdvice);
      }
      return this;
    }

    /** Puts `aroundAdvice` under each of `methods` in the around map, in order. */
    method WithAroundAdviceFor(aroundAdvice: Action, methods: seq<Op>) returns (self: AspectBuilder)
      requires Valid()
      modifies aroundAdviceMap
      ensures Valid() && self == this
      ensures State() == Apply(old(State()), Register(Around, aroundAdvice, methods))
    {
      for i := 0 to |methods|
        invariant PutAll(aroundAdviceMap.entries, aroundAdvice, methods[i..])
               == PutAll(old(aroundAdviceMap.entries), aroundAdvice, methods)
      {
        assert methods[i..][0] == methods[i] && methods[i..][1..] == methods[i + 1..];
        aroundAdviceMap.Put(methods[i], aroundAdvice);
      }
      return this;
    }

    /** A new aspect with the current targets and this builder's own three
        maps: it agrees with the builder now, and it keeps seeing every
        later registration made on the builder. */
    method Build() returns (aspect: DynamicProxyAspect)
      requires Valid()
      ensures fresh(aspect)
      ensures aspect.targets == targets
      ensures aspect.beforeMap == beforeAdviceMap && aspect.afterMap == afterAdviceMap
      ensures aspect.aroundMap == aroundAdviceMap
      ensures aspect.View() == State()
    {
      aspect := new DynamicProxyAspect(targets, beforeAdviceMap, afterAdviceMap, aroundAdviceMap);
    }
  }

  /** The object handed back by `weave`: it implements `interfaces` and
      routes every call to its handler. */
  class Proxy {
    const interfaces: seq<Interface>
    const handler: ProxyHandler

    constructor (interfaces: seq<Interface>, handler: ProxyHandler)
      ensures this.interfaces == interfaces && this.handler == handler
    {
      this.interfaces := interfaces;
      this.handler := handler;
    }

    method Invoke(op: Op, args: seq<Value>) returns (trace: seq<Event>, outcome: Outcome)
      ensures Execution(trace, outcome) == DispatchFor(handler.aspect.View(), handler.target, op, args)
    {
      trace, outcome := handler.Invoke(op, args);
    }
  }

  class AspectWeaver {
    const aspect: DynamicProxyAspect

    constructor (aspect: DynamicProxyAspect)
      ensures this.aspect == aspect
    {
      this.aspect := aspect;
    }

    /** A proxy for `target` that implements the interfaces of the target's
        own class (not the aspect's targets) and dispatches through a new
        handler holding `target` and this weaver's aspect. */
    method Weave(target: TargetObject) returns (proxy: Proxy)
      ensures fresh(proxy) && fresh(proxy.handler)
      ensures proxy.interfaces == target.interfaces
      ensures proxy.handler.target == target && proxy.handler.aspect == aspect
    {
      var interfaces := target.interfaces;
      var proxyHandler := new ProxyHandler(target, aspect);
      proxy := new Proxy(interfaces, proxyHandler);
    }
  }

  class ProxyHandler {
    var target: TargetObject
    var aspect: DynamicProxyAspect

    constructor (target: TargetObject, aspect: DynamicProxyAspect)
      ensures this.target == target && this.aspect == aspect
    {
      this.target := target;
      this.aspect := aspect;
    }

    /** One intercepted call of `op`: before-advice if present, then the
        around-advice (result `Null`) or else the target's own operation,
        then after-advice if present; a raised failure ends the call.  What
        it does is exactly the dispatch protocol for the aspect's advice. */
    method Invoke(op: Op, args: seq<Value>) returns (trace: seq<Event>, outcome: Outcome)
      ensures Execution(trace, outcome) == DispatchFor(aspect.View(), target, op, args)
    {
      trace := [];
      var beforeAdvice := aspect.BeforeAdviceFor(op);
      if beforeAdvice.Some? {
        trace := trace + [Ran(beforeAdvice.value)];
        if beforeAdvice.value.raises.Some? {
          BeforeRaises(beforeAdvice.value, aspect.AroundAdviceFor(op), aspect.AfterAdviceFor(op), target, op, args);
          return trace, Threw(beforeAdvice.value.raises.value);
        }
      }

      var result: Value;
      var aroundAdvice := aspect.AroundAdviceFor(op);
      if aroundAdvice.Some? {
        trace := trace + [Ran(aroundAdvice.value)];
        if aroundAdvice.value.raises.Some? {
          MiddleRaises(beforeAdvice, aroundAdvice, aspect.AfterAdviceFor(op), target, op, args,
                       aroundAdvice.value.raises.value);
          return trace, Threw(aroundAdvice.value.raises.value);
        }
        result := Null;
      } else {
        trace := trace + [Called(op, args)];
        var returned := target.call(op, args);
        if returned.Threw? {
          MiddleRaises(beforeAdvice, aroundAdvice, aspect.AfterAdviceFor(op), target, op, args, returned.failure);
          return trace, returned;
        }
        result := returned.value;
      }

      var afterAdvice := aspect.AfterAdviceFor(op);
      Completes(beforeAdvice, aroundAdvice, afterAdvice, target, op, args);
      if afterAdvice.Some? {
        trace := trace + [Ran(afterAdvice.value)];
        if afterAdvice.value.raises.Some? {
          return trace, Threw(afterAdvice.value.raises.value);
        }
      }

      return trace, Returned(result);
    }
  }
}
