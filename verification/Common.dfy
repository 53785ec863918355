/** Types and arithmetic shared by the models of the backend's services. */
module Common {

  datatype Option<+T> = None | Some(value: T)

  datatype Result<+T, +E> = Ok(value: T) | Err(error: E)
  {
    predicate IsFailure() { Err? }

    function PropagateFailure<U>(): Result<U, E>
      requires Err?
    {
      Err(error)
    }

    function Extract(): T
      requires Ok?
    {
      value
    }
  }

  /** Instants are milliseconds since the epoch; a day has a fixed length. */
  type Instant = int

  const DAY_MS: int := 86_400_000

  function AddDays(t: Instant, days: int): Instant {
    t + days * DAY_MS
  }

  /** JavaScript's `Math.round(num / den)` on exact rationals: halves go up. */
  function RoundHalfUp(num: int, den: int): (r: int)
    requires den > 0
    ensures den * (2 * r - 1) <= 2 * num < den * (2 * r + 1)
  {
    DivisionBounds(2 * num + den, 2 * den);
    (2 * num + den) / (2 * den)
  }

  lemma DivisionBounds(a: int, b: int)
    requires b > 0
    ensures b * (a / b) <= a < b * (a / b) + b
  {
  }

  /** The rounding is the only integer within its half-open window. */
  lemma RoundHalfUpUnique(num: int, den: int, r: int)
    requires den > 0
    requires den * (2 * r - 1) <= 2 * num < den * (2 * r + 1)
    ensures RoundHalfUp(num, den) == r
  {
    var q := RoundHalfUp(num, den);
    if q < r {
      MulLe(den, 2 * q + 1, 2 * r - 1);
    } else if r < q {
      MulLe(den, 2 * r + 1, 2 * q - 1);
    }
  }

  lemma MulLe(k: int, a: int, b: int)
    requires k >= 0 && a <= b
    ensures k * a <= k * b
  {
  }

  lemma ModOfHalf(v: nat, d: nat)
    requires d > 0
    ensures v % (2 * d) / 2 == v / 2 % d && v % (2 * d) % 2 == v % 2
  {
    var q, r := v / 2 / d, v / 2 % d;
    assert v == 2 * d * q + (2 * r + v % 2);
    DivModUnique(v, 2 * d, q, 2 * r + v % 2);
  }

  lemma DivModUnique(v: int, d: int, q: int, r: int)
    requires d > 0 && 0 <= r < d && v == d * q + r
    ensures v / d == q && v % d == r
  {
    var q' := v / d;
    if q' > q {
      MulLe(d, 1, q' - q);
    } else if q' < q {
      MulLe(d, q' - q, -1);
    }
  }

  /** The numbers 1..n in order. */
  function UpTo(n: nat): seq<nat> {
    seq(n, i requires 0 <= i < n => i + 1)
  }

  ghost predicate NoDup<T>(s: seq<T>) {
    forall i, j :: 0 <= i < j < |s| ==> s[i] != s[j]
  }

  lemma OneMoreElement<T>(s: set<T>, s': set<T>, x: T, more: bool)
    requires x !in s && forall y :: y in s' <==> y in s || (y == x && more)
    ensures |s'| == |s| + if more then 1 else 0
  {
    assert s' == s + if more then {x} else {};
  }

  /**
   From what one step does to a property, what a run does from moment m to moment j: it holds
   throughout exactly when no step between them is one that breaks it.
   */
  lemma KeptBetweenIff(m: nat, j: nat, kept: nat -> bool, breaks: nat -> bool)
    requires m <= j && kept(m)
    requires forall n :: m <= n < j && kept(n) ==> (kept(n + 1) <==> !breaks(n))
    ensures (forall n :: m <= n <= j ==> kept(n)) <==> (forall n :: m <= n < j ==> !breaks(n))
  {
    if forall n :: m <= n < j ==> !breaks(n) {
      for n := m to j
        invariant forall x :: m <= x <= n ==> kept(x)
      {
        assert kept(n) && !breaks(n);
      }
    } else {
      var n :| m <= n < j && breaks(n);
      assert kept(n) ==> !kept(n + 1);
    }
  }

  /** The same for a whole run. */
  lemma KeptThroughoutIff<W(!new), S(!new)>(run: seq<W>, steps: seq<S>, kept: W -> bool, breaks: (W, S) -> bool)
    requires |run| == |steps| + 1 && kept(run[0])
    requires forall i :: 0 <= i < |steps| && kept(run[i]) ==> (kept(run[i + 1]) <==> !breaks(run[i], steps[i]))
    ensures (forall i :: 0 <= i < |run| ==> kept(run[i]))
        <==> (forall i :: 0 <= i < |steps| ==> !breaks(run[i], steps[i]))
  {
    var keptAt, breaksAt := (n: nat) => n < |run| && kept(run[n]), (n: nat) => n < |steps| && breaks(run[n], steps[n]);
    KeptBetweenIff(0, |steps|, keptAt, breaksAt);
    assert forall i :: 0 <= i < |run| ==> keptAt(i) == kept(run[i]);
    assert forall i :: 0 <= i < |steps| ==> breaksAt(i) == breaks(run[i], steps[i]);
  }
}
