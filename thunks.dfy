/** A thunk defers a call to a target until the piped value arrives.

    It holds a target and a list of preset arguments. Any of those arguments
    may be the placeholder sentinel `var`. On a call with value `a`, a thunk
    with no placeholder passes `a` in front of the preset arguments. Otherwise
    it overwrites the first placeholder of its own stored list with `a` and
    passes that list. */
module Thunks {

  /** One preset argument: either the placeholder sentinel or a real value.
      The two constructors are distinct, so the placeholder is recognised by
      identity and no real value can be mistaken for it. */
  datatype Arg<V> = Placeholder | Val(v: V)

  /** The membership test `var in args`. */
  predicate HasPlaceholder<V>(args: seq<Arg<V>>)
  {
    exists i :: 0 <= i < |args| && args[i].Placeholder?
  }

  /** The linear search of `list.index(var)`. It returns `|args|` when there
      is no placeholder, so `k < |args|` is exactly the membership test. */
  function FirstPlaceholder<V>(args: seq<Arg<V>>): (k: nat)
    ensures k <= |args|
    ensures k < |args| <==> HasPlaceholder(args)
    ensures k < |args| ==> args[k].Placeholder?
    ensures forall j :: 0 <= j < k ==> args[j].Val?
  {
    if args == [] then 0
    else if args[0].Placeholder? then 0
    else 1 + FirstPlaceholder(args[1..])
  }

  /** The number of placeholders in a list of arguments. */
  function Placeholders<V>(args: seq<Arg<V>>): (n: nat)
    ensures n <= |args|
    ensures n == 0 <==> !HasPlaceholder(args)
  {
    if args == [] then 0
    else (if args[0].Placeholder? then 1 else 0) + Placeholders(args[1..])
  }

  /** Writing a value over one placeholder removes exactly one placeholder. */
  lemma {:induction false} PlaceholdersAfterFill<V>(args: seq<Arg<V>>, k: nat, a: V)
    requires k < |args| && args[k].Placeholder?
    ensures Placeholders(args[k := Val(a)]) == Placeholders(args) - 1
  {
    if k == 0 {
      assert args[k := Val(a)][1..] == args[1..];
    } else {
      assert args[k := Val(a)][1..] == args[1..][k - 1 := Val(a)];
      PlaceholdersAfterFill(args[1..], k - 1, a);
    }
  }

  /** The stored arguments after one call with value `a`: the first
      placeholder is overwritten with `a`; without a placeholder the list is
      left alone. */
  function Residual<V>(args: seq<Arg<V>>, a: V): (r: seq<Arg<V>>)
    ensures |r| == |args|
    ensures !HasPlaceholder(args) ==> r == args
    ensures HasPlaceholder(args) ==>
              r[FirstPlaceholder(args)] == Val(a) &&
              forall j :: 0 <= j < |args| && j != FirstPlaceholder(args) ==> r[j] == args[j]
    ensures Placeholders(r) == if HasPlaceholder(args) then Placeholders(args) - 1 else Placeholders(args)
  {
    var k := FirstPlaceholder(args);
    if k == |args| then args
    else
      PlaceholdersAfterFill(args, k, a);
      args[k := Val(a)]
  }

  /** The argument list the target receives on a call with value `a`.
      Without a placeholder, `a` comes first and the preset arguments follow
      in their order. With one, the target receives the stored list itself,
      as it is after the substitution. */
  function Received<V>(args: seq<Arg<V>>, a: V): (r: seq<Arg<V>>)
    ensures !HasPlaceholder(args) ==> r == [Val(a)] + args && |r| == |args| + 1
    ensures HasPlaceholder(args) ==> r == Residual(args, a) && |r| == |args|
  {
    if FirstPlaceholder(args) == |args| then [Val(a)] + args else Residual(args, a)
  }

  /** A thunk with exactly one placeholder uses it up on its first call. From
      then on it behaves like a placeholder-free thunk: the next value is put
      in front of the already substituted list, which stays as it is. */
  lemma OnePlaceholderIsUsedUp<V>(args: seq<Arg<V>>, a: V, b: V)
    requires Placeholders(args) == 1
    ensures !HasPlaceholder(Residual(args, a))
    ensures Received(Residual(args, a), b) == [Val(b)] + Residual(args, a)
    ensures Residual(Residual(args, a), b) == Residual(args, a)
  {
  }

  /** The stored arguments after successive calls with the values `xs`. */
  function ResidualAfter<V>(args: seq<Arg<V>>, xs: seq<V>): seq<Arg<V>>
    decreases |xs|
  {
    if xs == [] then args else ResidualAfter(Residual(args, xs[0]), xs[1..])
  }

  /** An independent description of repeated calls: walking the list from
      the left, the i-th placeholder receives the i-th value; placeholders
      beyond the supply of values stay, and surplus values are dropped. */
  function FillInOrder<V>(args: seq<Arg<V>>, xs: seq<V>): (r: seq<Arg<V>>)
    ensures |r| == |args|
    ensures Placeholders(r) == if |xs| < Placeholders(args) then Placeholders(args) - |xs| else 0
  {
    if args == [] then []
    else if args[0].Val? then [args[0]] + FillInOrder(args[1..], xs)
    else if xs == [] then [Placeholder] + FillInOrder(args[1..], xs)
    else [Val(xs[0])] + FillInOrder(args[1..], xs[1..])
  }

  /** A call on a list that starts with a real value leaves that value in
      front and acts on the rest. */
  lemma ResidualOfValueFirst<V>(args: seq<Arg<V>>, x: V)
    requires args != [] && args[0].Val?
    ensures Residual(args, x) == [args[0]] + Residual(args[1..], x)
  {
  }

  /** One call followed by the rest of the calls agrees with filling in
      order from the start. */
  lemma {:induction false} FillAfterCall<V>(args: seq<Arg<V>>, x: V, xs: seq<V>)
    ensures FillInOrder(Residual(args, x), xs) == FillInOrder(args, [x] + xs)
  {
    if args == [] {
    } else if args[0].Val? {
      ResidualOfValueFirst(args, x);
      var rest := Residual(args[1..], x);
      assert ([args[0]] + rest)[1..] == rest;
      FillAfterCall(args[1..], x, xs);
    } else {
      assert FirstPlaceholder(args) == 0;
      assert Residual(args, x)[1..] == args[1..];
      assert ([x] + xs)[1..] == xs;
    }
  }

  /** Reusing one thunk for the values `xs` fills its placeholders from left
      to right, one per call, as FillInOrder describes. */
  lemma {:induction false} ResidualAfterFillsInOrder<V>(args: seq<Arg<V>>, xs: seq<V>)
    ensures ResidualAfter(args, xs) == FillInOrder(args, xs)
    decreases |xs|
  {
    if xs == [] {
      FillNothing(args);
    } else {
      ResidualAfterFillsInOrder(Residual(args, xs[0]), xs[1..]);
      FillAfterCall(args, xs[0], xs[1..]);
      assert [xs[0]] + xs[1..] == xs;
    }
  }

  /** Filling with no values changes nothing. */
  lemma {:induction false} FillNothing<V>(args: seq<Arg<V>>)
    ensures FillInOrder(args, []) == args
  {
    if args != [] {
      FillNothing(args[1..]);
      if args[0].Placeholder? {
        assert [Placeholder] + args[1..] == args;
      } else {
        assert [args[0]] + args[1..] == args;
      }
    }
  }

  /** After as many calls as it has placeholders, a thunk has none left and
      its stored list has kept its length. */
  lemma PlaceholdersRunOut<V>(args: seq<Arg<V>>, xs: seq<V>)
    requires |xs| >= Placeholders(args)
    ensures !HasPlaceholder(ResidualAfter(args, xs))
    ensures |ResidualAfter(args, xs)| == |args|
  {
    ResidualAfterFillsInOrder(args, xs);
  }

  /** The deferred call: a target and its mutable list of preset arguments. */
  class Thunk<V, R> {
    const target: seq<Arg<V>> -> R
    var args: seq<Arg<V>>

    /** `Thunk(function, *args)`: the preset arguments are kept in order. */
    constructor (target: seq<Arg<V>> -> R, preset: seq<Arg<V>>)
      ensures this.target == target && args == preset
    {
      this.target := target;
      args := preset;
    }

    /** `thunk(a)`: call the target with the piped value, substituting it in
        place for the first placeholder when there is one. */
    method Call(a: V) returns (r: R)
      modifies this
      ensures args == Residual(old(args), a)
      ensures r == target(Received(old(args), a))
      ensures HasPlaceholder(old(args)) ==> r == target(args)
      ensures !HasPlaceholder(old(args)) ==> r == target([Val(a)] + args)
    {
      var k := FirstPlaceholder(args);
      if k == |args| {
        r := target([Val(a)] + args);
      } else {
        args := args[k := Val(a)];
        r := target(args);
      }
    }
  }
}
