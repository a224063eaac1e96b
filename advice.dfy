/** The values an aspect works with: operation identifiers, advice actions,
    the proxied target, and the trace of what a call did.  Also the mutable
    advice map that both aspect implementations keep per timing. */
module Advice {

  datatype Option<T> = None | Some(value: T)

  /** A declared interface, the unit an aspect is applied upon. */
  datatype Interface = Interface(name: string)

  /** An operation identifier: an operation of a declared interface, named
      by its name and parameter types, and compared by value. */
  datatype Op = Op(owner: Interface, name: string, parameterTypes: seq<string>)

  /** Why a step of a call aborted it. */
  datatype Failure = Failure(name: string)

  /** What an operation hands back to its caller; `Null` is the result of a
      call whose around-advice replaced the operation. */
  datatype Value = Null | Text(text: string) | Ref(id: nat)

  datatype Outcome = Returned(value: Value) | Threw(failure: Failure)

  /** An advice action: an opaque, argument-less unit of work.  Running it is
      observable as an event carrying it; when `raises` holds a
      failure, the run ends by raising it. */
  datatype Action = Action(name: string, raises: Option<Failure>)

  /** What a call made happen, in order: an action ran, or the target's own
      operation was invoked with the call's arguments. */
  datatype Event = Ran(action: Action) | Called(op: Op, args: seq<Value>)

  /** The object being proxied: the interfaces its class implements and
      what each of its operations returns or raises. */
  datatype TargetObject = TargetObject(interfaces: seq<Interface>, call: (Op, seq<Value>) -> Outcome)

  /** A mutable map from operation to action, the role of the source's
      `HashMap<Method, Runnable>`.  Kept as an object so that a builder and
      the aspects it builds can share one map, as they do in the source. */
  class AdviceMap {
    var entries: map<Op, Action>

    constructor ()
      ensures entries == map[]
    {
      entries := map[];
    }

    /** `put`: afterwards `op` is mapped to `a` and every other key is as it was. */
    method Put(op: Op, a: Action)
      modifies this
      ensures entries == old(entries)[op := a]
    {
      entries := entries[op := a];
    }

    /** `get`: the action stored for `op`, or absent. */
    function Get(op: Op): (r: Option<Action>)
      reads this
      ensures r.Some? <==> op in entries
      ensures r.Some? ==> r.value == entries[op]
    {
      if op in entries then Some(entries[op]) else None
    }
  }
}
