/** A pipe is a reusable two-slot trigger. `value | pipe` fills the value
    slot and `pipe > function` fills the function slot. Whichever fill
    completes the pair calls the function on the value, empties both slots
    and returns the call's result. Until then the operator returns the pipe
    itself. */
module Pipes {
  import opened Thunks

  /** A slot of the pipe: the sentinel `EMPTY` or an occupant. */
  datatype Slot<T> = Empty | Full(item: T)

  /** The pipe's two slots. `C` is the type of what the function slot holds. */
  datatype Slots<V, C> = Slots(value: Slot<V>, func: Slot<C>) {
    /** At most one slot is occupied: the only state callers can observe. */
    predicate Settled()
    {
      value.Empty? || func.Empty?
    }
  }

  /** Both slots empty, as after construction and after every call. */
  function Idle<V, C>(): Slots<V, C>
  {
    Slots(Empty, Empty)
  }

  /** What one operator does beyond updating the slots: nothing yet, or the
      call `callable(argument)`. */
  datatype Action<V, C> = Wait | Invoke(callable: C, argument: V)

  datatype Step<V, C> = Step(next: Slots<V, C>, action: Action<V, C>)

  /** `call_when_ready`: fire when both slots are occupied, then empty both. */
  function ReadyStep<V, C>(s: Slots<V, C>): (r: Step<V, C>)
    ensures r.next.Settled()
    ensures r.action.Invoke? <==> !s.Settled()
    ensures r.action.Invoke? ==> r.action == Invoke(s.func.item, s.value.item) && r.next == Idle()
    ensures r.action.Wait? ==> r.next == s
  {
    if s.value.Full? && s.func.Full? then
      Step(Idle(), Invoke(s.func.item, s.value.item))
    else
      Step(s, Wait)
  }

  /** `value | pipe`: store the value, then fire if a function is waiting. */
  function FeedStep<V, C>(s: Slots<V, C>, v: V): (r: Step<V, C>)
    ensures r.next.Settled()
    ensures s.func.Full? ==> r == Step(Idle(), Invoke(s.func.item, v))
    ensures s.func.Empty? ==> r == Step(Slots(Full(v), Empty), Wait)
  {
    ReadyStep(s.(value := Full(v)))
  }

  /** `pipe > function`: store the function, then fire if a value is waiting. */
  function ApplyStep<V, C>(s: Slots<V, C>, c: C): (r: Step<V, C>)
    ensures r.next.Settled()
    ensures s.value.Full? ==> r == Step(Idle(), Invoke(c, s.value.item))
    ensures s.value.Empty? ==> r == Step(Slots(Empty, Full(c)), Wait)
  {
    ReadyStep(s.(func := Full(c)))
  }

  /** One operand given to the pipe by either operator. */
  datatype Operand<V, C> = ValueIn(v: V) | FunctionIn(c: C)

  function OperandStep<V, C>(s: Slots<V, C>, e: Operand<V, C>): Step<V, C>
  {
    match e
    case ValueIn(v) => FeedStep(s, v)
    case FunctionIn(c) => ApplyStep(s, c)
  }

  /** The final slots and the actions, one per operand, of a whole sequence
      of operators applied to one pipe. */
  function Run<V, C>(s: Slots<V, C>, es: seq<Operand<V, C>>): (r: (Slots<V, C>, seq<Action<V, C>>))
    ensures |r.1| == |es|
    ensures es != [] ==> r.0.Settled()
    decreases |es|
  {
    if es == [] then (s, [])
    else
      var st := OperandStep(s, es[0]);
      var rest := Run(st.next, es[1..]);
      (rest.0, [st.action] + rest.1)
  }

  /** Running a sequence that starts with `e` is one step followed by the
      run of the rest. */
  lemma RunCons<V, C>(s: Slots<V, C>, e: Operand<V, C>, es: seq<Operand<V, C>>)
    ensures Run(s, [e] + es) ==
            (Run(OperandStep(s, e).next, es).0, [OperandStep(s, e).action] + Run(OperandStep(s, e).next, es).1)
  {
  }

  /** Running a single operand is one step. */
  lemma RunOne<V, C>(s: Slots<V, C>, e: Operand<V, C>)
    ensures Run(s, [e]) == (OperandStep(s, e).next, [OperandStep(s, e).action])
  {
    var st := OperandStep(s, e);
    assert [e][1..] == [];
    assert Run(st.next, []) == (st.next, []);
    assert [st.action] + [] == [st.action];
  }

  /** Running two sequences one after the other is running their
      concatenation. */
  lemma {:induction false} RunAppend<V, C>(s: Slots<V, C>, a: seq<Operand<V, C>>, b: seq<Operand<V, C>>)
    ensures Run(s, a + b).0 == Run(Run(s, a).0, b).0
    ensures Run(s, a + b).1 == Run(s, a).1 + Run(Run(s, a).0, b).1
    decreases |a|
  {
    if a != [] {
      assert (a + b)[0] == a[0];
      assert (a + b)[1..] == a[1..] + b;
      RunAppend(OperandStep(s, a[0]).next, a[1..], b);
    } else {
      assert a + b == b;
    }
  }

  /** A pipe that has fired keeps no trace of the expression: what it does
      next is what a fresh pipe would do. */
  lemma PipeIsReusable<V, C>(a: seq<Operand<V, C>>, b: seq<Operand<V, C>>)
    requires Run(Idle(), a).0 == Idle()
    ensures Run(Idle(), a + b) == (Run(Idle(), b).0, Run(Idle(), a).1 + Run(Idle(), b).1)
  {
    RunAppend(Idle(), a, b);
  }

  /** On an empty pipe, value then function and function then value give
      the same call and both leave the pipe empty. */
  lemma OrderIndependent<V, C>(v: V, c: C)
    ensures Run(Idle(), [ValueIn(v), FunctionIn(c)]) == (Idle(), [Wait, Invoke(c, v)])
    ensures Run(Idle(), [FunctionIn(c), ValueIn(v)]) == (Idle(), [Wait, Invoke(c, v)])
  {
    assert [ValueIn(v), FunctionIn(c)] == [ValueIn(v)] + [FunctionIn(c)];
    assert [FunctionIn(c), ValueIn(v)] == [FunctionIn(c)] + [ValueIn(v)];
    RunCons(Idle(), ValueIn(v), [FunctionIn(c)]);
    RunOne(Slots(Full(v), Empty), FunctionIn(c));
    RunCons(Idle(), FunctionIn(c), [ValueIn(v)]);
    RunOne(Slots(Empty, Full(c)), ValueIn(v));
    assert [Wait] + [Invoke(c, v)] == [Wait, Invoke(c, v)];
  }

  function ValuesIn<V, C>(vs: seq<V>): (es: seq<Operand<V, C>>)
  {
    if vs == [] then [] else [ValueIn(vs[0])] + ValuesIn(vs[1..])
  }

  function FunctionsIn<V, C>(cs: seq<C>): (es: seq<Operand<V, C>>)
  {
    if cs == [] then [] else [FunctionIn(cs[0])] + FunctionsIn(cs[1..])
  }

  function Waits<V, C>(n: nat): seq<Action<V, C>>
  {
    seq(n, i => Wait)
  }

  /** Values fed while no function is set overwrite one another: the
      function is applied to the most recent one only. */
  lemma {:induction false} LastValueWins<V, C>(s: Slots<V, C>, vs: seq<V>, c: C)
    requires s.func.Empty? && vs != []
    ensures Run(s, ValuesIn(vs) + [FunctionIn(c)]) == (Idle(), Waits(|vs|) + [Invoke(c, vs[|vs| - 1])])
    decreases |vs|
  {
    var rest := ValuesIn<V, C>(vs[1..]) + [FunctionIn(c)];
    assert ValuesIn(vs) + [FunctionIn(c)] == [ValueIn(vs[0])] + rest;
    var s' := Slots(Full(vs[0]), Empty);
    RunCons(s, ValueIn(vs[0]), rest);
    if |vs| == 1 {
      assert rest == [FunctionIn(c)];
      RunOne(s', FunctionIn(c));
      assert Waits<V, C>(1) == [Wait];
    } else {
      LastValueWins(s', vs[1..], c);
      assert vs[1..][|vs[1..]| - 1] == vs[|vs| - 1];
      assert Waits<V, C>(|vs|) == [Wait] + Waits(|vs| - 1);
      assert [Wait] + (Waits<V, C>(|vs| - 1) + [Invoke(c, vs[|vs| - 1])]) == Waits<V, C>(|vs|) + [Invoke(c, vs[|vs| - 1])];
    }
  }

  /** Functions given while no value is set overwrite one another: only the
      most recent one is called. */
  lemma {:induction false} LastFunctionWins<V, C>(s: Slots<V, C>, cs: seq<C>, v: V)
    requires s.value.Empty? && cs != []
    ensures Run(s, FunctionsIn(cs) + [ValueIn(v)]) == (Idle(), Waits(|cs|) + [Invoke(cs[|cs| - 1], v)])
    decreases |cs|
  {
    var rest := FunctionsIn<V, C>(cs[1..]) + [ValueIn(v)];
    assert FunctionsIn(cs) + [ValueIn(v)] == [FunctionIn(cs[0])] + rest;
    var s' := Slots(Empty, Full(cs[0]));
    RunCons(s, FunctionIn(cs[0]), rest);
    if |cs| == 1 {
      assert rest == [ValueIn(v)];
      RunOne(s', ValueIn(v));
      assert Waits<V, C>(1) == [Wait];
    } else {
      LastFunctionWins(s', cs[1..], v);
      assert cs[1..][|cs[1..]| - 1] == cs[|cs| - 1];
      assert Waits<V, C>(|cs|) == [Wait] + Waits(|cs| - 1);
      assert [Wait] + (Waits<V, C>(|cs| - 1) + [Invoke(cs[|cs| - 1], v)]) == Waits<V, C>(|cs|) + [Invoke(cs[|cs| - 1], v)];
    }
  }

  /** What the function slot can hold: a plain callable or a thunk. */
  datatype Callable<!V, R> = Plain(f: V -> R) | ThunkRef(t: Thunk<V, R>)

  /** What an operator returns: the pipe itself while it waits, or the
      result of the call. */
  datatype Outcome<R> = Waiting | Fired(result: R)

  /** The objects a call of `c` may change: the thunk, if it is one. */
  function CallableFrame<V, R>(c: Callable<V, R>): set<object>
  {
    if c.ThunkRef? then {c.t} else {}
  }

  function SlotFrame<V, R>(s: Slot<Callable<V, R>>): set<object>
  {
    if s.Full? then CallableFrame(s.item) else {}
  }

  /** The result of calling `c` on `x` in the current state. */
  function Evaluate<V, R>(c: Callable<V, R>, x: V): R
    reads CallableFrame(c)
  {
    match c
    case Plain(f) => f(x)
    case ThunkRef(t) => t.target(Received(t.args, x))
  }

  /** What an operator returns for a given action, in the current state. */
  function Perform<V, R>(a: Action<V, Callable<V, R>>): Outcome<R>
    reads if a.Invoke? then CallableFrame(a.callable) else {}
  {
    match a
    case Wait => Waiting
    case Invoke(c, x) => Fired(Evaluate(c, x))
  }

  /** The effect of an action on the state of a thunk it calls. */
  twostate predicate ThunkEffect<V, R>(a: Action<V, Callable<V, R>>)
    reads if a.Invoke? then CallableFrame(a.callable) else {}
  {
    a.Invoke? && a.callable.ThunkRef? ==>
      a.callable.t.args == Residual(old(a.callable.t.args), a.argument)
  }

  class Pipe<V, R> {
    var value: Slot<V>
    var func: Slot<Callable<V, R>>

    function State(): Slots<V, Callable<V, R>>
      reads this
    {
      Slots(value, func)
    }

    /** `Pipe()`: both slots start empty. */
    constructor ()
      ensures State() == Idle()
    {
      value := Empty;
      func := Empty;
    }

    /** `call_when_ready`. The function is called before the slots are
        emptied, as in the source. */
    method CallWhenReady() returns (out: Outcome<R>)
      modifies this, SlotFrame(func)
      ensures State() == ReadyStep(old(State())).next
      ensures out == old(Perform(ReadyStep(State()).action))
      ensures ThunkEffect(ReadyStep(old(State())).action)
      ensures ReadyStep(old(State())).action.Wait? ==> unchanged(SlotFrame(old(func)))
    {
      if value.Full? && func.Full? {
        var ret;
        match func.item {
          case Plain(f) =>
            ret := f(value.item);
          case ThunkRef(t) =>
            ret := t.Call(value.item);
        }
        value := Empty;
        func := Empty;
        out := Fired(ret);
      } else {
        out := Waiting;
      }
    }

    /** `value | pipe` (`__ror__`). */
    method Feed(v: V) returns (out: Outcome<R>)
      modifies this, SlotFrame(func)
      ensures State().Settled()
      ensures State() == FeedStep(old(State()), v).next
      ensures out == old(Perform(FeedStep(State(), v).action))
      ensures ThunkEffect(FeedStep(old(State()), v).action)
    {
      value := Full(v);
      out := CallWhenReady();
    }

    /** `pipe > function` (`__gt__`). */
    method Apply(c: Callable<V, R>) returns (out: Outcome<R>)
      modifies this, CallableFrame(c)
      ensures State().Settled()
      ensures State() == ApplyStep(old(State()), c).next
      ensures out == old(Perform(ApplyStep(State(), c).action))
      ensures ThunkEffect(ApplyStep(old(State()), c).action)
      ensures old(value).Empty? ==> unchanged(CallableFrame(c))
    {
      func := Full(c);
      out := CallWhenReady();
    }
  }
}
