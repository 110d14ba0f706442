# pipes — a Dafny model

`pipes.py` lets a Python user write `value |p> function` in place of
`function(value)`. Two small stateful objects make this work, and this
project models and verifies both of them.

- **`Pipe`** is a reusable two-slot trigger. `value | pipe` (`__ror__`) fills
  the value slot. `pipe > function` (`__gt__`) fills the function slot. Both
  then run `call_when_ready`. When both slots are occupied, it calls the
  function on the value, empties both slots and returns the result. Otherwise
  it returns the pipe itself.
- **`Thunk`** is a deferred call. It holds a target and a list of preset
  arguments, any of which may be the placeholder sentinel `var`. When called
  with the piped value `a`, a thunk with no placeholder calls
  `target(a, *args)`. Otherwise it overwrites the first placeholder of its
  own stored list with `a`, in place, and calls `target(*args)`.

Files:

- `thunks.dfy` (module `Thunks`): the argument datatype
  `Arg = Placeholder | Val(v)`. Pure functions state what one call stores
  (`Residual`) and what the target receives (`Received`). Lemmas cover
  repeated calls. The class `Thunk` keeps a `const target` and a mutable
  `args: seq<Arg<V>>`. Its `Call` method is proved against those functions.
- `pipes.dfy` (module `Pipes`): the pipe's slots as a pure state machine
  (`ReadyStep`, `FeedStep`, `ApplyStep`, and `Run` over a sequence of
  operands), with lemmas about reuse, order and overwriting. The class `Pipe`
  has the fields `value` and `func`. Its methods `Feed` and `Apply` stand for
  `|` and `>` and are proved against the state machine. The function slot
  holds `Callable = Plain(f) | ThunkRef(t)`, so a pipe can drive a thunk,
  and the thunk's in-place update is part of the pipe methods' contracts.
- `examples.dfy` (module `Examples`): the documentation's examples as client
  methods whose postconditions give the documented results (6, 18, 10).

The sentinels `EMPTY` and `var` are datatype constructors (`Slot.Empty`,
`Arg.Placeholder`), so they are matched by identity and no real value can
be taken for them. A thunk's target is a total function
`seq<Arg<V>> -> R`. If a thunk holds several placeholders, the later ones
reach the target as the sentinel, exactly as in Python. An operator that
does not fire returns `Waiting`, which stands for the pipe object that
Python returns.

In `call_when_ready` (pipes.py:51-55) the call comes before the two resets,
so a call that raises leaves both slots occupied. Exceptions are outside this
model (see below), so that case does not arise here.

## Model

| member | source | states |
|---|---|---|
| Thunks.FirstPlaceholder | pipes.py:90-93 | the index it returns is below the length exactly when the list holds a placeholder (`var in args`); that index holds a placeholder and every earlier one holds a real value (`args.index(var)`) |
| Thunks.PlaceholdersAfterFill | pipes.py:93 | overwriting one placeholder with a value lowers the number of placeholders by exactly one |
| Thunks.Residual | pipes.py:89-93 | the stored list after one call: same length; unchanged when there is no placeholder; otherwise the first placeholder holds the piped value, every other position is unchanged, and one placeholder fewer remains |
| Thunks.Received | pipes.py:89-94 | without a placeholder the target receives the piped value followed by the preset arguments in order; with one it receives the stored list as it is after the substitution, of the same length |
| Thunks.OnePlaceholderIsUsedUp | pipes.py:90-94 | a thunk with exactly one placeholder has none after its first call; its next call prepends the new value to the substituted list and leaves the stored list alone |
| Thunks.FillInOrder | pipes.py:89-94 | reference description of repeated calls: the length is kept and the number of placeholders left is the original number minus the number of values, but never below zero |
| Thunks.ResidualAfterFillsInOrder | pipes.py:89-94 | calling one thunk successively with values xs leaves exactly the list FillInOrder describes: the i-th placeholder from the left receives the i-th value |
| Thunks.PlaceholdersRunOut | pipes.py:90-93 | after at least as many calls as it had placeholders, a thunk's stored list has none left and has its original length |
| Thunks.Thunk.constructor | pipes.py:85-87 | the thunk keeps the target and the preset arguments in their order |
| Thunks.Thunk.Call | pipes.py:89-94 | the stored list becomes Residual of the old list, and the result is the target applied to Received; with a placeholder that is the new stored list, without one it is the piped value followed by the stored list |
| Pipes.ReadyStep | pipes.py:44-57 | fires exactly when both slots are occupied, calling the stored function on the stored value and emptying both slots; otherwise changes nothing; afterwards at most one slot is occupied |
| Pipes.FeedStep | pipes.py:59-61 | with a function waiting, fires it on the new value and empties the pipe; otherwise stores the value, leaves the function slot empty and waits |
| Pipes.ApplyStep | pipes.py:63-65 | with a value waiting, fires the new function on it and empties the pipe; otherwise stores the function, leaves the value slot empty and waits |
| Pipes.Run | pipes.py:59-65 | a sequence of operators yields one action per operand and, when it is not empty, leaves at most one slot occupied |
| Pipes.RunAppend | pipes.py:59-65 | two sequences of operators applied one after the other act as their concatenation |
| Pipes.PipeIsReusable | pipes.py:51-55 | once an expression has fired and emptied the pipe, a following expression behaves exactly as on a fresh pipe |
| Pipes.OrderIndependent | pipes.py:44-65 | on an empty pipe, value then function and function then value both wait once, then make the same call and leave the pipe empty |
| Pipes.LastValueWins | pipes.py:56-61 | values fed while no function is set overwrite one another; the function is applied to the most recent one only and the pipe ends empty |
| Pipes.LastFunctionWins | pipes.py:56-65 | functions given while no value is set overwrite one another; only the most recent one is called and the pipe ends empty |
| Pipes.Pipe.constructor | pipes.py:40-42 | a new pipe has both slots empty |
| Pipes.Pipe.CallWhenReady | pipes.py:44-57 | the slots follow ReadyStep; when it fires, the result is the stored callable's result on the stored value, and a stored thunk's list is updated as Thunk.Call does; when it waits, nothing changes |
| Pipes.Pipe.Feed | pipes.py:59-61 | the slots follow FeedStep, at most one slot is occupied afterwards, the result is the call's result or Waiting, and a fired thunk is updated as Thunk.Call does |
| Pipes.Pipe.Apply | pipes.py:63-65 | the slots follow ApplyStep, at most one slot is occupied afterwards, the result is the call's result or Waiting, a fired thunk is updated as Thunk.Call does, and a thunk that does not fire is untouched |
| Examples.SumThroughPipe | pipes.py:9-10 | piping [1, 2, 3] into `sum` waits after the value and then gives 6 |
| Examples.ThunksThroughPipe | pipes.py:11-16 | on one reused pipe, piping 6 into `f.t(1, 2)` gives 18 and then piping 6 into `f.t(1, var, 4)` gives 10 |
| Examples.FunctionFirst | pipes.py:44-65 | giving the thunk `f.t(1, 2)` first waits, and feeding 6 afterwards gives 18 |
| Examples.ThunkReused | pipes.py:89-94 | a thunk `t(1, var, 4)` called with 6 passes [1, 6, 4]; called again with 7 it passes [7, 1, 6, 4] |

## Left out

- `Pipe.install` and the `forbiddenfruit` `curse` calls (pipes.py:67-78): they patch Python's built-in function types through a foreign library. The model builds thunks with the `Thunk` constructor directly.
- `FUNC_TYPE`, `BUILTIN_FUNC_TYPE`, the module-level pipe `p`, the alias `t` and the doctest runner (pipes.py:22-23, 96-101): wiring only.
- Python operator dispatch: `|` falling back to `__ror__`, and the chaining of `>`. `Feed` and `Apply` are explicit methods instead.
- Exceptions raised by the wrapped callable: every callable is total. In the source, a raising call leaves both slots occupied, because the call precedes the resets. The model does not capture this.
- Callables that fail on a wrong number or type of arguments: a target is a total function of the argument list. `Examples.Formula` returns 0 for an argument list that the Python lambda would reject.
- Piping the sentinels themselves: the piped value is always `Val(a)` and a stored value is always `Full(v)`. The model therefore does not capture that feeding `EMPTY` leaves the slot looking empty, or that piping `var` leaves the placeholder in place.
- User objects with a custom `__eq__`: `!=`, `in` and `list.index` would consult it. The model compares sentinels by identity only.
- Stateful callables other than thunks, and callables that use the same pipe again (re-entrancy): the function slot holds either a pure function or a thunk, and a thunk's target is a pure function.
- Concurrent use of one pipe: the source is single-threaded.
