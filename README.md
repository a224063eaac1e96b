# Aspects over dynamic proxies, in Dafny

This project models a small aspect engine for Java objects. A caller uses a
fluent builder to register, for chosen operations (reflective `Method`s),
one advice action per timing: before, around and after. `build()` gives an
aspect, and a weaver wraps a target object in a proxy. Every call on the
proxy goes through an invocation handler that runs this protocol:

1. the before-advice, if any;
2. then either the around-advice, which gives the result `null`, or the
   target's own operation, which gives its return value;
3. then the after-advice, if any.

A failure raised by any step ends the call.

The repository has two near-identical engines, `DynamicProxyAspect.java` and
`AspectImplementation.java`. Each is modelled in its own module, with
classes that mirror the Java classes:

- The builders are classes whose methods update their fields with `for`
  loops.
- Each advice map is an `AdviceMap` object, standing for a
  `HashMap<Method, Runnable>`.
- `build()` hands the builder's own map objects to the aspect, as the Java
  does. An aspect therefore shares its maps with its builder.

Both implementations are proved against two value-level specifications.
They are shared, as the two engines implement the same `Aspect`, `Builder`
and `Weaver` interfaces:

- `Registration`: a builder's state (`Config`) and what each builder call
  does to it (`Apply`). `Replay` gives the state after a sequence of calls.
  The module proves last-write-wins and independence for every such
  sequence.
- `Dispatch`: a call's advice gives a plan of steps (`Plan`), and a generic
  fail-fast executor runs the plan (`Execute`). Their composition,
  `Protocol`, is what each handler's `Invoke` is proved to produce.
  Lemmas state the order, transparency, around substitution and
  failure-propagation properties of the protocol.

Other modelling choices:

- Operation identifiers are values compared by equality: interface, name
  and parameter types.
- An advice action is an opaque label. Running it appends `Ran(action)` to
  the call's trace, and it may raise a failure.
- The target is a value listing its class's interfaces. It also gives, per
  operation and arguments, a return value or a failure; invoking it appends
  `Called(op, args)`.
- Java exceptions are the `Threw` outcome.

Points of the code worth knowing before reading the model:

- **Aliasing.** `build()` does not take a snapshot: both `build()`s pass
  the builder's own `HashMap`s (`DynamicProxyAspect.java:90`,
  `AspectImplementation.java:16-19`). The model shares them the same way:
  advice registered after `build()` is visible through the aspect
  (`DynamicProxyAspectSharesMaps`, `AspectImplementationSharesMaps`). Only
  the targets array reference is copied, so a later `withTargets` is not
  seen.
- **Exposed interfaces.** `DynamicProxyAspect.AspectWeaver.weave` makes
  the proxy implement the interfaces of the target's own class, not the
  aspect's targets (`DynamicProxyAspect.java:105`). `AspectImplementation`'s
  weaver makes it implement the aspect's targets
  (`AspectImplementation.java:94,118`).
- **Missing targets.** A builder whose `withTargets` was never called
  keeps `targets` at `null` (`None` here), and so does the aspect it
  builds. `AspectImplementation`'s weaver then cannot create a proxy, which
  is modelled as no proxy. The `DynamicProxyAspect` weaver never reads the
  targets.
- **The cast in `AspectImplementation`.** That weaver casts the *target* to
  `Aspect` (`AspectImplementation.java:93`) and then invokes the operation
  on that same object. The model gives its `Weave` the aspect and the
  target as two separate parameters. The cast is not modelled.

## Model

| member | source | states |
|---|---|---|
| `Registration.PutAll` | DynamicProxyAspect.java:66-68 | putting one action under a list of operations, in order: afterwards exactly the old keys plus the listed operations are mapped; every listed operation maps to the action (duplicates included); unlisted keys keep their action |
| `Registration.ApplyFrame` | DynamicProxyAspect.java:58-86 | a registration sets its action for exactly the listed operations of its own timing; other operations, the other two timings and the targets are unchanged; `withTargets` changes only the targets |
| `Registration.RegisterNothing` | DynamicProxyAspect.java:66-68 | registering for an empty list of operations leaves the builder state unchanged |
| `Registration.LastWriteWins` | DynamicProxyAspect.java:65-86 | after any sequence of builder calls, the lookup for (timing, operation) gives the action of the last call that registered that pair, whatever the other calls were |
| `Registration.NeverRegistered` | DynamicProxyAspect.java:54-56 | if no call registered (timing, operation), the lookup gives absent: the maps start empty |
| `Registration.LastTargetsWin` | DynamicProxyAspect.java:59-62 | the last `withTargets` in a sequence of calls decides the targets |
| `Registration.TargetsNeverDeclared` | DynamicProxyAspect.java:53 | without any `withTargets`, the targets stay unset (`null`) |
| `Dispatch.ExecuteFailFast` | DynamicProxyAspect.java:126-154 | running a plan stops at the first step that raises: the trace is the events of a prefix of the plan; all steps before the last one completed; a failure comes from the last step in the trace; a normal outcome means every step ran and completed |
| `Dispatch.ProtocolOrder` | DynamicProxyAspect.java:129-153 | a call's trace is a prefix of: before (if registered), then exactly one of the around-advice and the target's operation, then after (if registered); each at most once |
| `Dispatch.Transparency` | DynamicProxyAspect.java:143-145 | with no advice at all, the trace is just the target call with the call's arguments, and the outcome is exactly the target's |
| `Dispatch.Completes` | DynamicProxyAspect.java:129-153 | when before and the middle step complete normally, the trace is before, middle, after; the result is `null` under around-advice and the target's return value otherwise, unless the after-advice raises, in which case its failure is the outcome |
| `Dispatch.AroundSubstitution` | DynamicProxyAspect.java:136-142 | with around-advice present, the target's operation never appears in the trace, and a normal outcome is `null` |
| `Dispatch.BeforeRaises` | DynamicProxyAspect.java:129-132 | a raising before-advice is the only step that runs, and its failure is the outcome |
| `Dispatch.MiddleRaises` | DynamicProxyAspect.java:136-145 | a failure of the around-advice or of the target's operation is the outcome; the after-advice does not run |
| `Dispatch.IndependentOfOtherOperations` | DynamicProxyAspect.java:34-48 | a registration that does not list an operation, or a `withTargets`, does not change what a call of that operation does |
| `DynamicProxyAspect.DynamicProxyAspect.constructor` | DynamicProxyAspect.java:19-24 | the aspect keeps the given targets and the given three map objects themselves |
| `DynamicProxyAspect.DynamicProxyAspect.GetTargets` | DynamicProxyAspect.java:28-30 | gives the targets the aspect holds |
| `DynamicProxyAspect.DynamicProxyAspect.BeforeAdviceFor` | DynamicProxyAspect.java:34-36 | gives exactly the action stored for the operation in the before map, or absent if there is none; it reads no other map |
| `DynamicProxyAspect.DynamicProxyAspect.AfterAdviceFor` | DynamicProxyAspect.java:40-42 | gives exactly the action stored for the operation in the after map, or absent; it reads no other map |
| `DynamicProxyAspect.DynamicProxyAspect.AroundAdviceFor` | DynamicProxyAspect.java:46-48 | gives exactly the action stored for the operation in the around map, or absent; it reads no other map |
| `DynamicProxyAspect.AspectBuilder.constructor` | DynamicProxyAspect.java:53-56 | a new builder has no targets, three distinct new maps, all empty |
| `DynamicProxyAspect.AspectBuilder.WithTargets` | DynamicProxyAspect.java:59-62 | overwrites the targets, leaves the maps unchanged, returns the builder itself |
| `DynamicProxyAspect.AspectBuilder.WithBeforeAdviceFor` | DynamicProxyAspect.java:65-70 | the loop takes the builder to `Apply` of the registration: only the before map changes, as `PutAll` says |
| `DynamicProxyAspect.AspectBuilder.WithAfterAdviceFor` | DynamicProxyAspect.java:73-78 | the same, for the after map only |
| `DynamicProxyAspect.AspectBuilder.WithAroundAdviceFor` | DynamicProxyAspect.java:81-86 | the same, for the around map only |
| `DynamicProxyAspect.AspectBuilder.Build` | DynamicProxyAspect.java:89-91 | a new aspect holding the current targets and the builder's own three map objects, so it agrees with the builder when built |
| `DynamicProxyAspect.AspectWeaver.constructor` | DynamicProxyAspect.java:99-101 | the weaver holds the given aspect |
| `DynamicProxyAspect.AspectWeaver.Weave` | DynamicProxyAspect.java:103-110 | a new proxy implementing the interfaces of the target's own class (not the aspect's targets), with a new handler holding the target and the weaver's aspect |
| `DynamicProxyAspect.Proxy.Invoke` | DynamicProxyAspect.java:109 | every call on the proxy is the handler's dispatch |
| `DynamicProxyAspect.ProxyHandler.constructor` | DynamicProxyAspect.java:118-121 | the handler holds the given target and aspect |
| `DynamicProxyAspect.ProxyHandler.Invoke` | DynamicProxyAspect.java:126-154 | the handler's trace and outcome are exactly the dispatch protocol for the advice the aspect holds for the operation |
| `AspectImplementation.AspectImplementation.constructor` | AspectImplementation.java:15-20 | the aspect takes the builder's targets and the builder's three map objects themselves |
| `AspectImplementation.AspectImplementation.GetTargets` | AspectImplementation.java:23-25 | gives the targets the aspect holds |
| `AspectImplementation.AspectImplementation.BeforeAdviceFor` | AspectImplementation.java:28-30 | the action stored for the operation in the before map, or absent; no other map is read |
| `AspectImplementation.AspectImplementation.AfterAdviceFor` | AspectImplementation.java:33-35 | the action stored for the operation in the after map, or absent; no other map is read |
| `AspectImplementation.AspectImplementation.AroundAdviceFor` | AspectImplementation.java:38-40 | the action stored for the operation in the around map, or absent; no other map is read |
| `AspectImplementation.Builder.constructor` | AspectImplementation.java:48-52 | a new builder has no targets, three distinct new maps, all empty |
| `AspectImplementation.Builder.WithTargets` | AspectImplementation.java:55-58 | overwrites the targets only, returns the builder itself |
| `AspectImplementation.Builder.WithBeforeAdviceFor` | AspectImplementation.java:61-66 | the loop takes the builder to `Apply` of the registration: only the before map changes |
| `AspectImplementation.Builder.WithAfterAdviceFor` | AspectImplementation.java:69-74 | the same, for the after map only |
| `AspectImplementation.Builder.WithAroundAdviceFor` | AspectImplementation.java:77-82 | the same, for the around map only |
| `AspectImplementation.Builder.Build` | AspectImplementation.java:85-87 | a new aspect with the builder's targets and the builder's own maps, agreeing with the builder when built |
| `AspectImplementation.Weaver.Weave` | AspectImplementation.java:92-119 | a proxy implementing the aspect's targets, with a handler capturing aspect and target; no proxy when the targets were never set |
| `AspectImplementation.Proxy.Invoke` | AspectImplementation.java:118 | every call on the proxy is the handler's dispatch |
| `AspectImplementation.Handler.constructor` | AspectImplementation.java:96 | the handler captures the aspect and the target |
| `AspectImplementation.Handler.Invoke` | AspectImplementation.java:96-117 | the handler's trace and outcome are exactly the dispatch protocol for the three advices the aspect holds for the operation |
| `Scenarios.GreetingWithAround` | Main.java:24-31 | the greeting aspect built by the demo runs before, around, after on `greet`, never the target's own `greet`, and returns `null` |
| `Scenarios.GreetingWithoutAround` | Main.java:24-29 | without the around-registration, the target's `greet` runs between before and after, and its result is returned |
| `Scenarios.PlainGreetingIsReturned` | Main.java:64 | with before and after but no around-advice, `greet("Jo")` on the greeting object runs between the two advices and returns "Hello Jo!" to the caller |
| `Scenarios.OnlyLatestFires` | DynamicProxyAspect.java:67 | re-registering the same (operation, timing) makes every call behave as if only the latest action had been registered |
| `Scenarios.GreetThroughDynamicProxy` | DynamicProxyAspect.java:103-110 | building, weaving and calling `greet` through `DynamicProxyAspect` gives the three advice events only, `null`, and a proxy exposing the target's interfaces |
| `Scenarios.GreetThroughAspectImplementation` | AspectImplementation.java:92-119 | the same demo through `AspectImplementation` gives the same trace and a proxy exposing the aspect's targets |
| `Scenarios.DynamicProxyAspectSharesMaps` | DynamicProxyAspect.java:89-91 | advice registered on the builder after `build()` is seen through the aspect; a later `withTargets` is not |
| `Scenarios.AspectImplementationSharesMaps` | AspectImplementation.java:15-20 | the same sharing, and two aspects built from one builder see the same later registration |

## Left out

- `Proxy.newProxyInstance`, class loaders, `getClass().getInterfaces()` and interface arrays are runtime proxy creation. A proxy is an object that records the interfaces it implements and its handler. The model does not check that a call's operation belongs to those interfaces. In Java, `toString`, `equals` and `hashCode` reach the handler too. The targets are an immutable sequence, so a caller who later mutates the array passed to `withTargets` is not modelled.
- `Method.invoke` and Java's exception wrapping (`InvocationTargetException`, `UndeclaredThrowableException`) are left out. A failure of the target reaches the caller as the same `Failure` value.
- The bodies of the `Runnable`s (console printing) are left out. An action is an opaque label that either completes or raises the same failure on every run. An action that changes program state is not modelled. In particular, actions here never register advice while running. With such an action, the two handlers could differ: `DynamicProxyAspect` looks up the around- and after-advice after the before-advice has run, while `AspectImplementation` looks up all three first.
- `null` actions and `null` operation arrays are left out. Registering a `null` `Runnable` stores `null`, which a later lookup cannot tell from absent advice. A `null` array would raise in the `for` loop. Actions in this model are never absent.
- `AspectImplementation.Weaver.Weave`: the cast of the target to `Aspect` (`AspectImplementation.java:93`) is not modelled: the aspect and the target are separate parameters. So neither the `ClassCastException` for a target that is not an aspect, nor the fact that in the source the aspect and the target are one object, is captured.
- The `Callable` wrapper around around-advice (`DynamicProxyAspect.java:138-142`) is modelled as what it amounts to: run the action, then the result is `null`.
- The deprecated, unused `AspectFactory` (`DynamicProxyAspect.java:157-169`) adds no behaviour.
- `Main.java` is demo glue that prints to `System.out`. It refers to classes that `AspectImplementation.java` does not define (`AspectFactory`, `AspectBuilder`, `AspectWeaver.setAspect`). Only its builder calls and its expected output are used, in `Scenarios`.
- `DynamicProxyAspect.Proxy.Invoke`: the conversion of the handler's result to the operation's declared return type is not modelled, nor its failure. An operation has no return type here. So when around-advice replaces an operation whose return type is primitive, the model returns `Null`, while the Java proxy raises a `NullPointerException` after the after-advice has run.
- `AspectImplementation.Proxy.Invoke`: the same return-value conversion and its `NullPointerException` are not modelled.
- `DynamicProxyAspect.AspectWeaver.Weave`, `DynamicProxyAspect.ProxyHandler` and `AspectImplementation.Weaver.Weave` take the aspect class of their own file, where the Java accepts any `Aspect` (`DynamicProxyAspect.java:97,116`, `AspectImplementation.java:93`). Weaving another `Aspect` implementation is not modelled, for example an `AspectImplementation` handed to the `DynamicProxyAspect` weaver. Both aspect classes have the same lookups, proved against the same `Lookup`, so such a mix would dispatch the same way.
- Concurrency: the engine has none.
