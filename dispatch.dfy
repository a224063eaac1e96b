/** The dispatch protocol of an intercepted call, as a value: the advice
    found for the operation gives a plan of steps (before, then around or
    the target's own operation, then after), and a fail-fast executor runs
    the plan.  Both invocation handlers are proved to produce exactly what
    `Protocol` says. */
module Dispatch {
  import opened Advice
  import opened Registration

  /** One step of a call: run an action (whose completion is the call's
      result when it `substitutes` for the target), or invoke the target. */
  datatype Step = Advise(action: Action, substitutes: bool) | Proceed(op: Op, args: seq<Value>)

  datatype Execution = Execution(trace: seq<Event>, outcome: Outcome)

  function EventOf(s: Step): Event
  {
    match s
    case Advise(a, _) => Ran(a)
    case Proceed(op, args) => Called(op, args)
  }

  /** How one step completes.  An action that does not raise completes with
      no value. */
  function Perform(s: Step, target: TargetObject): Outcome
  {
    match s
    case Advise(a, _) => if a.raises.Some? then Threw(a.raises.value) else Returned(Null)
    case Proceed(op, args) => target.call(op, args)
  }

  /** Whether the value a step completes with becomes the call's result. */
  predicate Yields(s: Step)
  {
    s.Proceed? || s.substitutes
  }

  /** Runs `steps` in order, stopping at the first one that raises; the
      result is the value of the last yielding step, `result` if none. */
  function Execute(steps: seq<Step>, target: TargetObject, result: Value): Execution
  {
    if steps == [] then Execution([], Returned(result))
    else
      match Perform(steps[0], target)
      case Threw(e) => Execution([EventOf(steps[0])], Threw(e))
      case Returned(v) =>
        var rest := Execute(steps[1..], target, if Yields(steps[0]) then v else result);
        Execution([EventOf(steps[0])] + rest.trace, rest.outcome)
  }

  function Optional(advice: Option<Action>): seq<Step>
  {
    if advice.Some? then [Advise(advice.value, false)] else []
  }

  /** The steps of a call of `op`: before-advice if any, then the
      around-advice in place of the target if there is one, else the
      target itself, then after-advice if any. */
  function Plan(before: Option<Action>, around: Option<Action>, after: Option<Action>,
                op: Op, args: seq<Value>): seq<Step>
  {
    Optional(before)
    + [if around.Some? then Advise(around.value, true) else Proceed(op, args)]
    + Optional(after)
  }

  function Protocol(before: Option<Action>, around: Option<Action>, after: Option<Action>,
                    target: TargetObject, op: Op, args: seq<Value>): Execution
  {
    Execute(Plan(before, around, after, op, args), target, Null)
  }

  /** What a call of `op` does under the advice registered in `c`. */
  function DispatchFor(c: Config, target: TargetObject, op: Op, args: seq<Value>): Execution
  {
    Protocol(Lookup(c, Before, op), Lookup(c, Around, op), Lookup(c, After, op), target, op, args)
  }

  function Events(steps: seq<Step>): (r: seq<Event>)
    ensures |r| == |steps|
    ensures forall i :: 0 <= i < |steps| ==> r[i] == EventOf(steps[i])
  {
    if steps == [] then [] else [EventOf(steps[0])] + Events(steps[1..])
  }

  function RanIfAny(advice: Option<Action>): seq<Event>
  {
    if advice.Some? then [Ran(advice.value)] else []
  }

  /** Fail-fast execution: the trace is the events of a prefix of the
      steps; every step in it but the last completed normally; a raised
      failure is that of the last step in the trace, and a normal outcome
      means that every step ran and completed normally. */
  lemma {:induction false} ExecuteFailFast(steps: seq<Step>, target: TargetObject, result: Value)
    ensures var x := Execute(steps, target, result);
      && |x.trace| <= |steps|
      && x.trace == Events(steps)[..|x.trace|]
      && (forall i :: 0 <= i < |x.trace| - 1 ==> Perform(steps[i], target).Returned?)
      && (x.outcome.Threw? ==> |x.trace| > 0 && Perform(steps[|x.trace| - 1], target) == x.outcome)
      && (x.outcome.Returned? ==>
            |x.trace| == |steps| && forall i :: 0 <= i < |steps| ==> Perform(steps[i], target).Returned?)
  {
    if steps != [] {
      var v := Perform(steps[0], target);
      if v.Returned? {
        var next := if Yields(steps[0]) then v.value else result;
        ExecuteFailFast(steps[1..], target, next);
        var x := Execute(steps, target, result);
        var rest := Execute(steps[1..], target, next);
        assert x.trace == [EventOf(steps[0])] + rest.trace;
        assert Events(steps) == [EventOf(steps[0])] + Events(steps[1..]);
        forall i | 0 <= i < |x.trace| - 1
          ensures Perform(steps[i], target).Returned?
        {
          if i > 0 {
            assert steps[i] == steps[1..][i - 1];
          }
        }
        if x.outcome.Threw? {
          assert steps[|x.trace| - 1] == steps[1..][|rest.trace| - 1];
        }
        if x.outcome.Returned? {
          forall i | 0 <= i < |steps|
            ensures Perform(steps[i], target).Returned?
          {
            if i > 0 {
              assert steps[i] == steps[1..][i - 1];
            }
          }
        }
      }
    }
  }

  /** Executing a plan that starts with a step completing normally. */
  lemma ExecuteCons(s: Step, rest: seq<Step>, target: TargetObject, result: Value)
    requires Perform(s, target).Returned?
    ensures Execute([s] + rest, target, result)
      == var r := Execute(rest, target, if Yields(s) then Perform(s, target).value else result);
         Execution([EventOf(s)] + r.trace, r.outcome)
  {
  }

  /** Executing a plan whose first step raises. */
  lemma ExecuteConsRaises(s: Step, rest: seq<Step>, target: TargetObject, result: Value)
    requires Perform(s, target).Threw?
    ensures Execute([s] + rest, target, result) == Execution([EventOf(s)], Perform(s, target))
  {
  }

  /** The order of a call: its trace is a prefix of before (if present),
      then exactly one of around and the target's operation, then after (if
      present). */
  lemma ProtocolOrder(before: Option<Action>, around: Option<Action>, after: Option<Action>,
                      target: TargetObject, op: Op, args: seq<Value>)
    ensures var x := Protocol(before, around, after, target, op, args);
      var middle := if around.Some? then Ran(around.value) else Called(op, args);
      var planned := RanIfAny(before) + [middle] + RanIfAny(after);
      |x.trace| <= |planned| && x.trace == planned[..|x.trace|]
  {
    var steps := Plan(before, around, after, op, args);
    ExecuteFailFast(steps, target, Null);
    var middle := if around.Some? then Ran(around.value) else Called(op, args);
    assert Events(steps) == RanIfAny(before) + [middle] + RanIfAny(after);
  }

  /** Transparency: an operation without any advice behaves as the target's
      own operation, which is invoked once with the call's arguments. */
  lemma Transparency(target: TargetObject, op: Op, args: seq<Value>)
    ensures Protocol(None, None, None, target, op, args)
      == Execution([Called(op, args)], target.call(op, args))
  {
    assert Plan(None, None, None, op, args) == [Proceed(op, args)];
    if target.call(op, args).Returned? {
      ExecuteCons(Proceed(op, args), [], target, Null);
    } else {
      ExecuteConsRaises(Proceed(op, args), [], target, Null);
    }
  }

  /** When the before-advice (if any) and then the around-advice or the
      target's operation complete normally, the trace is before, that middle
      step, after.  The call returns `Null` under around-advice and the
      target's result otherwise, unless the after-advice raises: its failure
      then reaches the caller. */
  lemma Completes(before: Option<Action>, around: Option<Action>, after: Option<Action>,
                  target: TargetObject, op: Op, args: seq<Value>)
    requires before.Some? ==> before.value.raises.None?
    requires around.Some? ==> around.value.raises.None?
    requires around.None? ==> target.call(op, args).Returned?
    ensures Protocol(before, around, after, target, op, args)
      == Execution(
           RanIfAny(before) + [if around.Some? then Ran(around.value) else Called(op, args)] + RanIfAny(after),
           if after.Some? && after.value.raises.Some? then Threw(after.value.raises.value)
           else Returned(if around.Some? then Null else target.call(op, args).value))
  {
    var middle := if around.Some? then Advise(around.value, true) else Proceed(op, args);
    var tail := [middle] + Optional(after);
    assert Plan(before, around, after, op, args) == Optional(before) + tail;
    var result := Perform(middle, target).value;
    ExecuteCons(middle, Optional(after), target, Null);
    if after.Some? {
      assert Optional(after) == [Optional(after)[0]] + [];
      if after.value.raises.None? {
        ExecuteCons(Optional(after)[0], [], target, result);
      } else {
        ExecuteConsRaises(Optional(after)[0], [], target, result);
      }
    }
    if before.Some? {
      ExecuteCons(Optional(before)[0], tail, target, Null);
    }
  }

  /** Around substitution: with around-advice, the target's operation is
      never invoked, and a call that does not raise returns `Null`. */
  lemma AroundSubstitution(before: Option<Action>, around: Option<Action>, after: Option<Action>,
                           target: TargetObject, op: Op, args: seq<Value>)
    requires around.Some?
    ensures var x := Protocol(before, around, after, target, op, args);
      && (forall i :: 0 <= i < |x.trace| ==> x.trace[i].Ran?)
      && (x.outcome.Returned? ==> x.outcome.value == Null)
  {
    var steps := Plan(before, around, after, op, args);
    ExecuteFailFast(steps, target, Null);
    var x := Protocol(before, around, after, target, op, args);
    assert forall i :: 0 <= i < |steps| ==> steps[i].Advise?;
    if x.outcome.Returned? {
      Completes(before, around, after, target, op, args);
    }
  }

  /** A raising before-advice aborts the call: nothing else runs and its
      failure is what the caller sees. */
  lemma BeforeRaises(b: Action, around: Option<Action>, after: Option<Action>,
                     target: TargetObject, op: Op, args: seq<Value>)
    requires b.raises.Some?
    ensures Protocol(Some(b), around, after, target, op, args)
      == Execution([Ran(b)], Threw(b.raises.value))
  {
  }

  /** A failure of the around-advice or of the target's operation skips
      the after-advice and reaches the caller. */
  lemma MiddleRaises(before: Option<Action>, around: Option<Action>, after: Option<Action>,
                     target: TargetObject, op: Op, args: seq<Value>, e: Failure)
    requires before.Some? ==> before.value.raises.None?
    requires if around.Some? then around.value.raises == Some(e) else target.call(op, args) == Threw(e)
    ensures Protocol(before, around, after, target, op, args)
      == Execution(RanIfAny(before) + [if around.Some? then Ran(around.value) else Called(op, args)], Threw(e))
  {
    var middle := if around.Some? then Advise(around.value, true) else Proceed(op, args);
    var tail := [middle] + Optional(after);
    assert Plan(before, around, after, op, args) == Optional(before) + tail;
    ExecuteConsRaises(middle, Optional(after), target, Null);
    if before.Some? {
      ExecuteCons(Optional(before)[0], tail, target, Null);
    }
  }

  /** Advice registered for other operations does not fire: a registration
      that does not list `op`, or a `withTargets`, leaves every call of `op`
      as it was. */
  lemma IndependentOfOtherOperations(c: Config, call: Call, target: TargetObject, op: Op, args: seq<Value>)
    requires call.DeclareTargets? || op !in call.ops
    ensures DispatchFor(Apply(c, call), target, op, args) == DispatchFor(c, target, op, args)
  {
  }
}
