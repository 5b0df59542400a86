/** `compose(...funcs)`: right-to-left function composition built with
    `Array.prototype.reduce` and no initial value. */
module Compose {
  import opened Js

  /** Reference meaning of composing `fs`: `fs[0](fs[1](... fs[n-1](x)))`. */
  function ApplyAll<T>(fs: seq<T -> T>, x: T): (y: T)
    decreases |fs|
  {
    if fs == [] then x else fs[0](ApplyAll(fs[1..], x))
  }

  /** The reduce over the functions, continued from accumulator `acc`: each
      step makes a new accumulator that applies the next function first and
      the old accumulator to its result. */
  function FoldCompose<T>(acc: T -> T, fs: seq<T -> T>): (composite: T -> T)
    decreases |fs|
  {
    if fs == [] then acc else FoldCompose(x => acc(fs[0](x)), fs[1..])
  }

  /** The reduce accumulator applied to `x` is `acc` after all of `fs`,
      innermost last. */
  lemma {:induction false} FoldComposeApplies<T>(acc: T -> T, fs: seq<T -> T>, x: T)
    ensures FoldCompose(acc, fs)(x) == acc(ApplyAll(fs, x))
    decreases |fs|
  {
    if fs != [] {
      var next := y => acc(fs[0](y));
      FoldComposeApplies(next, fs[1..], x);
      assert FoldCompose(acc, fs) == FoldCompose(next, fs[1..]);
    }
  }

  /** `compose(...fs)`: one function is returned as it is; several are
      folded by reduce; none makes reduce throw. */
  function Compose<T>(fs: seq<T -> T>): (r: Result<T -> T>)
    ensures r.Ok? <==> |fs| > 0
    ensures |fs| == 0 ==> r == Err(ReduceOfEmptyArray)
    ensures |fs| == 1 ==> r == Ok(fs[0])
  {
    if |fs| == 1 then Ok(fs[0])
    else if |fs| == 0 then Err(ReduceOfEmptyArray)
    else Ok(FoldCompose(fs[0], fs[1..]))
  }

  /** Whatever the number of functions, the composite applies them right to
      left: `compose(f1, ..., fn)(x) == f1(f2(... fn(x)))`. */
  lemma ComposeApplies<T>(fs: seq<T -> T>, x: T)
    requires |fs| > 0
    ensures Compose(fs).Ok? && Compose(fs).value(x) == ApplyAll(fs, x)
  {
    if |fs| == 1 {
      assert ApplyAll(fs[1..], x) == x;
    } else {
      FoldComposeApplies(fs[0], fs[1..], x);
    }
  }

  /** Composition splits at any point: composing `fs + gs` applies `gs`
      first and `fs` to its result. */
  lemma {:induction false} ApplyAllAppend<T>(fs: seq<T -> T>, gs: seq<T -> T>, x: T)
    ensures ApplyAll(fs + gs, x) == ApplyAll(fs, ApplyAll(gs, x))
    decreases |fs|
  {
    if fs != [] {
      assert (fs + gs)[1..] == fs[1..] + gs;
      ApplyAllAppend(fs[1..], gs, x);
    } else {
      assert fs + gs == gs;
    }
  }

  /** The last function is the one applied directly to the argument. */
  lemma LastIsInnermost<T>(fs: seq<T -> T>, x: T)
    requires |fs| > 0
    ensures ApplyAll(fs, x) == ApplyAll(fs[..|fs| - 1], fs[|fs| - 1](x))
  {
    var n := |fs|;
    assert fs == fs[..n - 1] + [fs[n - 1]];
    ApplyAllAppend(fs[..n - 1], [fs[n - 1]], x);
    assert ApplyAll([fs[n - 1]], x) == fs[n - 1](ApplyAll([], x));
  }
}
