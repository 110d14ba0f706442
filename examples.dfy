/** The usage examples of the library's documentation, restated as client
    methods of the Pipe and Thunk contracts. */
module Examples {
  import opened Thunks
  import opened Pipes

  function Sum(xs: seq<int>): int
  {
    if xs == [] then 0 else xs[0] + Sum(xs[1..])
  }

  /** `lambda x, y, z: x * (y + z)`. Any other argument list would make the
      call fail; the model gives it the result 0. */
  function Formula(xs: seq<Arg<int>>): int
  {
    if |xs| == 3 && xs[0].Val? && xs[1].Val? && xs[2].Val? then
      xs[0].v * (xs[1].v + xs[2].v)
    else
      0
  }

  /** `[1, 2, 3] |p> sum` gives 6. */
  method SumThroughPipe() returns (first: Outcome<int>, out: Outcome<int>)
    ensures first == Waiting
    ensures out == Fired(6)
  {
    var p := new Pipe<seq<int>, int>();
    first := p.Feed([1, 2, 3]);
    out := p.Apply(Plain(Sum));
    assert Sum([1, 2, 3]) == 1 + Sum([2, 3]);
    assert Sum([2, 3]) == 2 + Sum([3]);
    assert Sum([3]) == 3 + Sum([]);
  }

  /** `6 |p> f.t(1, 2)` gives 18, then the same pipe serves
      `6 |p> f.t(1, var, 4)`, which gives 10. */
  method ThunksThroughPipe() returns (preset: Outcome<int>, substituted: Outcome<int>)
    ensures preset == Fired(18)
    ensures substituted == Fired(10)
  {
    var p := new Pipe<int, int>();
    var t1 := new Thunk(Formula, [Val(1), Val(2)]);
    var w := p.Feed(6);
    preset := p.Apply(ThunkRef(t1));
    assert Received([Val(1), Val(2)], 6) == [Val(6), Val(1), Val(2)];
    var t2 := new Thunk(Formula, [Val(1), Placeholder, Val(4)]);
    w := p.Feed(6);
    substituted := p.Apply(ThunkRef(t2));
    assert FirstPlaceholder([Val(1), Placeholder, Val(4)]) == 1;
  }

  /** The function may come first: the call fires on the value. */
  method FunctionFirst() returns (first: Outcome<int>, out: Outcome<int>)
    ensures first == Waiting
    ensures out == Fired(18)
  {
    var p := new Pipe<int, int>();
    var t := new Thunk(Formula, [Val(1), Val(2)]);
    first := p.Apply(ThunkRef(t));
    assert p.State() == Slots(Empty, Full(ThunkRef(t))) && t.args == [Val(1), Val(2)];
    assert Received([Val(1), Val(2)], 6) == [Val(6), Val(1), Val(2)];
    out := p.Feed(6);
  }

  /** A thunk that records what it receives, called twice with one
      placeholder: the first call substitutes, the second prepends to the
      already substituted list. */
  method ThunkReused() returns (first: seq<Arg<int>>, second: seq<Arg<int>>)
    ensures first == [Val(1), Val(6), Val(4)]
    ensures second == [Val(7), Val(1), Val(6), Val(4)]
  {
    var t := new Thunk(xs => xs, [Val(1), Placeholder, Val(4)]);
    first := t.Call(6);
    assert FirstPlaceholder([Val(1), Placeholder, Val(4)]) == 1;
    second := t.Call(7);
    assert !HasPlaceholder(t.args);
  }
}
