/** Small shared vocabulary: JavaScript's `null`/`undefined` as `Option`, a thrown
    `Error` as a `Failed` status, and the array helpers (`map`, `filter`) the games use. */
module Optional {

  /** A value that may be absent (`null` or `undefined` in the source). */
  datatype Option<+T> = None | Some(value: T)

  /** Why an operation threw instead of completing. */
  datatype Failure =
    | MissingRequiredField        // registerEvent: id, name or type is missing or empty
    | EventNotFound(id: string)   // updateEvent on an id that is not registered
    | InvalidSquareIndex(i: int)  // setSquareEvent outside 0..TOTAL_SQUARES-1

  /** The outcome of an operation that either completes or throws. */
  datatype Status = Done | Failed(reason: Failure)
}

module Seqs {

  /** `xs.map(f)`, also the value-level view of `xs.forEach(x => x.update())`. */
  function MapAll<T, U>(f: T -> U, xs: seq<T>): (ys: seq<U>)
    ensures |ys| == |xs|
    ensures forall k :: 0 <= k < |xs| ==> ys[k] == f(xs[k])
  {
    seq(|xs|, k requires 0 <= k < |xs| => f(xs[k]))
  }

  /** Mapping a concatenation maps each part: `(xs.concat(ys)).map(f)` is
      `xs.map(f).concat(ys.map(f))`, as for the enemies and the ones spawned this frame. */
  lemma {:induction false} MapAllAppend<T, U>(f: T -> U, xs: seq<T>, ys: seq<T>)
    ensures MapAll(f, xs + ys) == MapAll(f, xs) + MapAll(f, ys)
  {
    var l, r := MapAll(f, xs + ys), MapAll(f, xs) + MapAll(f, ys);
    assert |l| == |r|;
    forall k | 0 <= k < |l| ensures l[k] == r[k] {
      if k < |xs| {
        assert (xs + ys)[k] == xs[k];
      } else {
        assert (xs + ys)[k] == ys[k - |xs|];
      }
    }
  }

  /** `xs.filter(keep)`: the elements that satisfy `keep`, left to right. */
  function Filter<T>(xs: seq<T>, keep: T -> bool): (ys: seq<T>)
    ensures |ys| <= |xs|
    ensures forall y :: y in ys ==> y in xs && keep(y)
  {
    if xs == [] then []
    else if keep(xs[0]) then [xs[0]] + Filter(xs[1..], keep)
    else Filter(xs[1..], keep)
  }

  /** How many elements of `xs` satisfy `keep`. */
  function CountKept<T>(xs: seq<T>, keep: T -> bool): nat
  {
    if xs == [] then 0
    else (if keep(xs[0]) then 1 else 0) + CountKept(xs[1..], keep)
  }

  lemma {:induction false} FilterAppend<T>(xs: seq<T>, ys: seq<T>, keep: T -> bool)
    ensures Filter(xs + ys, keep) == Filter(xs, keep) + Filter(ys, keep)
  {
    if xs == [] {
      assert xs + ys == ys;
    } else {
      assert (xs + ys)[0] == xs[0];
      assert (xs + ys)[1..] == xs[1..] + ys;
      FilterAppend(xs[1..], ys, keep);
      if keep(xs[0]) {
        calc {
          Filter(xs + ys, keep);
          [xs[0]] + Filter(xs[1..] + ys, keep);
          [xs[0]] + (Filter(xs[1..], keep) + Filter(ys, keep));
          ([xs[0]] + Filter(xs[1..], keep)) + Filter(ys, keep);
        }
      }
    }
  }

  lemma {:induction false} CountKeptAppend<T>(xs: seq<T>, ys: seq<T>, keep: T -> bool)
    ensures CountKept(xs + ys, keep) == CountKept(xs, keep) + CountKept(ys, keep)
  {
    if xs == [] {
      assert xs + ys == ys;
    } else {
      assert (xs + ys)[1..] == xs[1..] + ys;
      CountKeptAppend(xs[1..], ys, keep);
    }
  }

  lemma {:induction false} FilterLength<T>(xs: seq<T>, keep: T -> bool)
    ensures |Filter(xs, keep)| == CountKept(xs, keep)
  {
    if xs != [] {
      FilterLength(xs[1..], keep);
    }
  }

  /** Counting over a non-empty prefix looks at its first element, then at the rest. */
  lemma {:induction false} CountKeptPrefix<T>(xs: seq<T>, keep: T -> bool, i: int)
    requires 0 < i <= |xs|
    ensures CountKept(xs[..i], keep) == (if keep(xs[0]) then 1 else 0) + CountKept(xs[1..][..i - 1], keep)
  {
    assert xs[..i][0] == xs[0];
    assert xs[..i][1..] == xs[1..][..i - 1];
  }

  /** The kept element at index `i` lands at the number of kept elements before it. */
  lemma {:induction false} FilterAt<T>(xs: seq<T>, keep: T -> bool, i: int)
    requires 0 <= i < |xs| && keep(xs[i])
    ensures CountKept(xs[..i], keep) < |Filter(xs, keep)|
    ensures Filter(xs, keep)[CountKept(xs[..i], keep)] == xs[i]
    decreases i
  {
    if i == 0 {
      assert xs[..i] == [];
    } else {
      FilterAt(xs[1..], keep, i - 1);
      CountKeptPrefix(xs, keep, i);
      assert xs[1..][i - 1] == xs[i];
    }
  }

  /** `Filter` keeps exactly the elements that satisfy `keep`, in their original
      relative order: it has one element per kept element, and the kept element at
      index `i` lands at the index given by the number of kept elements before it. */
  lemma {:induction false} FilterKeepsOrder<T>(xs: seq<T>, keep: T -> bool)
    ensures |Filter(xs, keep)| == CountKept(xs, keep)
    ensures forall i :: 0 <= i < |xs| && keep(xs[i]) ==>
              CountKept(xs[..i], keep) < |Filter(xs, keep)| &&
              Filter(xs, keep)[CountKept(xs[..i], keep)] == xs[i]
  {
    FilterLength(xs, keep);
    forall i | 0 <= i < |xs| && keep(xs[i])
      ensures CountKept(xs[..i], keep) < |Filter(xs, keep)|
      ensures Filter(xs, keep)[CountKept(xs[..i], keep)] == xs[i]
    {
      FilterAt(xs, keep, i);
    }
  }

  /** Filtering a sequence whose every element is kept changes nothing. */
  lemma {:induction false} FilterAllKept<T>(xs: seq<T>, keep: T -> bool)
    requires forall k :: 0 <= k < |xs| ==> keep(xs[k])
    ensures Filter(xs, keep) == xs
  {
    if xs != [] {
      FilterAllKept(xs[1..], keep);
    }
  }

  /** Filtering twice is filtering once. */
  lemma {:induction false} FilterIdempotent<T>(xs: seq<T>, keep: T -> bool)
    ensures Filter(Filter(xs, keep), keep) == Filter(xs, keep)
  {
    var ys := Filter(xs, keep);
    assert forall k :: 0 <= k < |ys| ==> ys[k] in ys;
    FilterAllKept(ys, keep);
  }
}
