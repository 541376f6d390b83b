/**
  The Python built-ins that the sensitivity generator relies on, stated over
  exact arithmetic: the exceptions it can meet, int() applied to a float
  (truncation toward zero), round(x, 3) and range(start, stop, step).

  Floats are modelled as Dafny `real`, so every value is exact; round(x, 3) is
  represented by the integer number of thousandths it denotes.
*/
module PyBuiltins {

  /** The exceptions the modelled code can raise. */
  datatype PyError = ValueError | ZeroDivisionError | OSError

  /** A computation that either yields a value or raises a Python exception. */
  datatype Result<+T> = Success(value: T) | Failure(error: PyError) {
    predicate IsFailure() { Failure? }
    function PropagateFailure<U>(): Result<U>
      requires Failure?
    {
      Failure(error)
    }
    function Extract(): T
      requires Success?
    {
      value
    }
  }

  datatype Option<+T> = None | Some(value: T)

  // ---------------------------------------------------------------------------
  // int(x) for a float x

  /** Python's int() on a float: the integer part, truncated toward zero. */
  function Trunc(x: real): (n: int)
    ensures 0.0 <= x ==> 0 <= n && n as real <= x < n as real + 1.0
    ensures x < 0.0 ==> n <= 0 && n as real - 1.0 < x <= n as real
  {
    if x >= 0.0 then x.Floor else -((-x).Floor)
  }

  /** Truncation leaves integers alone. */
  lemma TruncOfInt(n: int)
    ensures Trunc(n as real) == n
  {
  }

  // ---------------------------------------------------------------------------
  // round(x, 3)

  /** Rounds to the nearest integer; an exact tie goes to the even neighbour. */
  function RoundHalfEven(x: real): (n: int)
    ensures -0.5 <= n as real - x <= 0.5
    ensures (n as real - x == 0.5 || x - n as real == 0.5) ==> n % 2 == 0
  {
    var f := x.Floor;
    var frac := x - f as real;
    if frac < 0.5 then f
    else if frac > 0.5 then f + 1
    else if f % 2 == 0 then f
    else f + 1
  }

  /** round(x, 3), as the number of thousandths of the result. */
  function Round3(x: real): (m: int)
    ensures -0.0005 <= m as real / 1000.0 - x <= 0.0005
  {
    RoundHalfEven(x * 1000.0)
  }

  /** The real value of a rounded result. */
  function Thousandths(m: int): real
  {
    m as real / 1000.0
  }

  lemma RoundHalfEvenOfInt(n: int)
    ensures RoundHalfEven(n as real) == n
  {
  }

  /** Rounding twice to three places is rounding once. */
  lemma Round3Idempotent(x: real)
    ensures Round3(Thousandths(Round3(x))) == Round3(x)
  {
    var m := Round3(x);
    assert Thousandths(m) * 1000.0 == m as real;
    RoundHalfEvenOfInt(m);
  }

  /** Rounding preserves order (not necessarily strictly). */
  lemma RoundHalfEvenMonotone(x: real, y: real)
    requires x <= y
    ensures RoundHalfEven(x) <= RoundHalfEven(y)
  {
    if x < y {
      assert RoundHalfEven(x) as real < RoundHalfEven(y) as real + 1.0;
    }
  }

  lemma Round3Monotone(x: real, y: real)
    requires x <= y
    ensures Round3(x) <= Round3(y)
  {
    RoundHalfEvenMonotone(x * 1000.0, y * 1000.0);
  }

  lemma Round3NonNegative(x: real)
    requires 0.0 <= x
    ensures 0 <= Round3(x)
  {
  }

  // ---------------------------------------------------------------------------
  // range(start, stop, step)

  /** The length of range(start, stop, step), as Python defines it for a nonzero step. */
  function RangeLength(start: int, stop: int, step: int): nat
    requires step != 0
  {
    if step > 0 then
      if start < stop then (stop - start + step - 1) / step else 0
    else
      if start > stop then (start - stop - step - 1) / (-step) else 0
  }

  /**
    range(start, stop, step): the i-th element is start + i * step; a zero
    step raises ValueError.
  */
  function PyRange(start: int, stop: int, step: int): (r: Result<seq<int>>)
    ensures r.Failure? <==> step == 0
    ensures r.Failure? ==> r.error == ValueError
    ensures r.Success? ==> forall i :: 0 <= i < |r.value| ==> r.value[i] == start + i * step
  {
    if step == 0 then Failure(ValueError)
    else Success(seq(RangeLength(start, stop, step), i => start + i * step))
  }

  // Arithmetic helpers for the range lemmas below.

  lemma MulLeft(a: int, b: int, c: int)
    requires a <= b && 0 <= c
    ensures a * c <= b * c
  {
    assert b * c - a * c == (b - a) * c;
  }

  lemma DivUnique(a: int, s: int, q: int, r: int)
    requires 0 < s && a == q * s + r && 0 <= r < s
    ensures a / s == q && a % s == r
  {
    var q', r' := a / s, a % s;
    assert a == q' * s + r';
    if q < q' {
      MulLeft(q + 1, q', s);
      assert false;
    } else if q' < q {
      MulLeft(q' + 1, q, s);
      assert false;
    }
  }

  /** The length formula chosen by Python: index i exists exactly while the element is before stop. */
  lemma {:induction false} RangeIndexAscending(start: int, stop: int, step: int, i: int)
    requires step > 0 && 0 <= i
    ensures i < RangeLength(start, stop, step) <==> start + i * step < stop
  {
    MulLeft(0, i, step);
    if start < stop {
      var d := stop - start;
      var len := RangeLength(start, stop, step);
      assert d + step - 1 == len * step + (d + step - 1) % step;
      if i < len {
        MulLeft(i, len - 1, step);
      } else {
        MulLeft(len, i, step);
      }
    }
  }

  /** The same for a negative step: index i exists exactly while the element is after stop. */
  lemma {:induction false} RangeIndexDescending(start: int, stop: int, step: int, i: int)
    requires step < 0 && 0 <= i
    ensures i < RangeLength(start, stop, step) <==> start + i * step > stop
  {
    RangeIndexAscending(-start, -stop, -step, i);
    assert -start + i * (-step) == -(start + i * step);
  }

  /**
    With a positive step s and stop = last + 1, the range is non-empty exactly
    when first <= last, and then holds (last - first) / s + 1 elements.
  */
  lemma {:induction false} RangeCount(first: int, last: int, s: int)
    requires s > 0
    ensures last < first ==> RangeLength(first, last + 1, s) == 0
    ensures first <= last ==> RangeLength(first, last + 1, s) == (last - first) / s + 1
  {
    if first <= last {
      var x := last - first;
      assert x == (x / s) * s + x % s;
      DivUnique(x + s, s, x / s + 1, x % s);
    }
  }

  /** A range with a nonzero step lists no value twice. */
  lemma {:induction false} RangeDistinct(start: int, stop: int, step: int, i: int, j: int)
    requires step != 0
    requires 0 <= i < j < RangeLength(start, stop, step)
    ensures PyRange(start, stop, step).value[i] != PyRange(start, stop, step).value[j]
  {
    var r := PyRange(start, stop, step).value;
    if step > 0 {
      MulLeft(i + 1, j, step);
    } else {
      MulLeft(i + 1, j, -step);
    }
    assert r[i] == start + i * step && r[j] == start + j * step;
  }

  /**
    Membership in an ascending range: v occurs exactly when it lies in
    [start, stop) and differs from start by a multiple of step.
  */
  lemma {:induction false} RangeMembership(start: int, stop: int, step: int, v: int)
    requires step > 0
    ensures v in PyRange(start, stop, step).value <==> start <= v < stop && (v - start) % step == 0
  {
    var r := PyRange(start, stop, step).value;
    if v in r {
      var i :| 0 <= i < |r| && r[i] == v;
      RangeIndexAscending(start, stop, step, i);
      MulLeft(0, i, step);
      DivUnique(v - start, step, i, 0);
    }
    if start <= v < stop && (v - start) % step == 0 {
      var k := (v - start) / step;
      assert v - start == k * step + (v - start) % step;
      if k < 0 {
        MulLeft(k, -1, step);
        assert false;
      }
      RangeIndexAscending(start, stop, step, k);
      assert r[k] == v;
    }
  }

  /**
    range(first, last + 1, s) with s > 0: exactly the values from first to last
    that differ from first by a multiple of s, in increasing order,
    (last - first) / s + 1 of them when first <= last and none otherwise.
  */
  lemma InclusiveRange(first: int, last: int, s: int)
    requires s > 0
    ensures var r := PyRange(first, last + 1, s).value;
      (forall v :: v in r <==> first <= v <= last && (v - first) % s == 0) &&
      (forall i, j :: 0 <= i < j < |r| ==> r[i] < r[j]) &&
      (last < first ==> r == []) &&
      (first <= last ==> |r| == (last - first) / s + 1 && r[0] == first)
  {
    var r := PyRange(first, last + 1, s).value;
    forall v ensures v in r <==> first <= v <= last && (v - first) % s == 0 {
      RangeMembership(first, last + 1, s, v);
    }
    forall i, j | 0 <= i < j < |r| ensures r[i] < r[j] {
      MulLeft(i + 1, j, s);
    }
    RangeCount(first, last, s);
  }
}
