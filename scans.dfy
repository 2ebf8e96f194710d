/** The 1-based table scans of the fire-danger calculation, with Java's array
    bound check made explicit. */
module Scans {

  /** The only way the calculation fails: an ArrayIndexOutOfBoundsException,
      carrying the offending index and the array's length. */
  datatype Fault = ArrayIndexOutOfBounds(index: int, length: int)

  datatype Result<T> = Ok(value: T) | Err(fault: Fault)

  /** Entry `j` of `t` passes the loop test of `Scan`: `x` still exceeds it and
      the index is below the cap. */
  predicate Passes(t: seq<real>, x: real, cap: int, j: int)
    requires 0 <= j < |t|
  {
    x - t[j] > 0.0 && j < cap
  }

  /** The loop `while (x - t[i] > 0 && i < cap) i++;` started at index `i`.
      Java evaluates `t[i]` before it tests `i < cap`, so an index that reaches
      the end of `t` faults before the cap is consulted. The contract says the
      result is the first index from `i` on whose test fails, and that the scan
      faults exactly when every remaining entry passes the test. */
  function Scan(t: seq<real>, x: real, i: nat, cap: int): (r: Result<nat>)
    ensures r.Ok? ==> i <= r.value < |t| && !(Passes(t, x, cap, r.value))
    ensures r.Ok? ==> forall j :: i <= j < r.value ==> Passes(t, x, cap, j)
    ensures r.Err? <==> forall j :: i <= j < |t| ==> Passes(t, x, cap, j)
    ensures r.Err? ==> r.fault == ArrayIndexOutOfBounds(if i < |t| then |t| else i, |t|)
    decreases |t| - i
  {
    if i >= |t| then Err(ArrayIndexOutOfBounds(i, |t|))
    else if Passes(t, x, cap, i) then Scan(t, x, i + 1, cap)
    else Ok(i)
  }

  /** The loop itself: `i` starts at 1 and moves on while `x` exceeds `t[i]`
      and `i` is below `cap`. The bound check `i < |t|` is the JVM's check on
      `t[i]`, which the loop's test performs before it compares `i` with `cap`:
      an index that reaches the end of `t` is reported as the fault. */
  method ScanFromOne(t: seq<real>, x: real, cap: int) returns (r: Result<nat>)
    ensures r == Scan(t, x, 1, cap)
  {
    var i := 1;
    while i < |t| && x - t[i] > 0.0 && i < cap
      invariant 1 <= i && (i <= |t| || i == 1)
      invariant Scan(t, x, i, cap) == Scan(t, x, 1, cap)
      decreases |t| - i
    {
      i := i + 1;
    }
    if i >= |t| {
      return Err(ArrayIndexOutOfBounds(i, |t|));
    }
    r := Ok(i);
  }

  /** A larger value never stops earlier: the selected index is monotone in `x`,
      and once a value runs off the end, every larger value does too. */
  lemma {:induction false} ScanMonotone(t: seq<real>, x: real, y: real, i: nat, cap: int)
    requires x <= y
    ensures Scan(t, y, i, cap).Ok? ==> Scan(t, x, i, cap).Ok?
    ensures Scan(t, y, i, cap).Ok? ==> Scan(t, x, i, cap).value <= Scan(t, y, i, cap).value
    ensures Scan(t, x, i, cap).Err? ==> Scan(t, y, i, cap).Err?
    decreases |t| - i
  {
    if i < |t| && Passes(t, x, cap, i) {
      ScanMonotone(t, x, y, i + 1, cap);
    }
  }
}
