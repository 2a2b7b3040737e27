/** Shared vocabulary of the solar/green-hydrogen estimator: optional and
    fallible values, the calendar months with their fixed day counts, the
    left-to-right sum that `reduce((sum, v) => sum + v, 0)` and `.sum()`
    compute, and the two decimal roundings the program displays with
    (JavaScript `toFixed` and Python `round`). */
module Common {

  datatype Option<+T> = None | Some(value: T)

  datatype Result<+T, +E> = Success(value: T) | Failure(error: E)

  // ---------------------------------------------------------------------
  // Months and their day counts
  // ---------------------------------------------------------------------

  datatype Month = Jan | Feb | Mar | Apr | May | Jun | Jul | Aug | Sep | Oct | Nov | Dec

  /** The twelve months in calendar order. */
  const Months: seq<Month> := [Jan, Feb, Mar, Apr, May, Jun, Jul, Aug, Sep, Oct, Nov, Dec]

  /** Days per month of a non-leap year: February is fixed at 28. */
  function DaysInMonth(m: Month): (d: nat)
    ensures 28 <= d <= 31
    ensures d == 28 <==> m == Feb
  {
    match m
    case Feb => 28
    case Apr | Jun | Sep | Nov => 30
    case _ => 31
  }

  function DaysOf(ms: seq<Month>): nat
  {
    if ms == [] then 0 else DaysOf(ms[..|ms| - 1]) + DaysInMonth(ms[|ms| - 1])
  }

  /** The day table covers every month exactly once and adds up to a 365-day year. */
  lemma DaysInYear()
    ensures |Months| == 12
    ensures forall m: Month :: m in Months
    ensures forall i, j :: 0 <= i < j < |Months| ==> Months[i] != Months[j]
    ensures DaysOf(Months) == 365
  {
    MonthsCoverAll();
    DaysOfMonths();
  }

  lemma MonthsCoverAll()
    ensures forall m: Month :: m in Months
  {
    forall m: Month ensures m in Months {
      match m
      case Jan => assert Months[0] == m;
      case Feb => assert Months[1] == m;
      case Mar => assert Months[2] == m;
      case Apr => assert Months[3] == m;
      case May => assert Months[4] == m;
      case Jun => assert Months[5] == m;
      case Jul => assert Months[6] == m;
      case Aug => assert Months[7] == m;
      case Sep => assert Months[8] == m;
      case Oct => assert Months[9] == m;
      case Nov => assert Months[10] == m;
      case Dec => assert Months[11] == m;
    }
  }

  lemma DaysOfMonths()
    ensures DaysOf(Months) == 365
  {
    assert DaysOf(Months[..1]) == 31;
    assert Months[..2][..1] == Months[..1];
    assert DaysOf(Months[..2]) == 59;
    assert Months[..3][..2] == Months[..2];
    assert DaysOf(Months[..3]) == 90;
    assert Months[..4][..3] == Months[..3];
    assert DaysOf(Months[..4]) == 120;
    assert Months[..5][..4] == Months[..4];
    assert DaysOf(Months[..5]) == 151;
    assert Months[..6][..5] == Months[..5];
    assert DaysOf(Months[..6]) == 181;
    assert Months[..7][..6] == Months[..6];
    assert DaysOf(Months[..7]) == 212;
    assert Months[..8][..7] == Months[..7];
    assert DaysOf(Months[..8]) == 243;
    assert Months[..9][..8] == Months[..8];
    assert DaysOf(Months[..9]) == 273;
    assert Months[..10][..9] == Months[..9];
    assert DaysOf(Months[..10]) == 304;
    assert Months[..11][..10] == Months[..10];
    assert DaysOf(Months[..11]) == 334;
    assert Months[..12][..11] == Months[..11];
    assert Months[..12] == Months;
  }

  predicate DistinctMonths(ms: seq<Month>)
  {
    forall i, j :: 0 <= i < j < |ms| ==> ms[i] != ms[j]
  }

  /** A sequence of pairwise distinct months has at most twelve elements,
      and exactly twelve when it mentions every month. */
  lemma {:induction false} DistinctMonthsBound(ms: seq<Month>)
    requires DistinctMonths(ms)
    ensures |ms| <= 12
    ensures (forall m: Month :: m in ms) ==> |ms| == 12
  {
    var all := set m: Month | m in Months;
    var mine := set m: Month | m in ms;
    DaysInYear();
    DistinctCard(Months);
    DistinctCard(ms);
    assert mine <= all;
    assert all == mine + (all - mine);
    assert |all| == |mine| + |all - mine|;
    if forall m: Month :: m in ms {
      assert all - mine == {};
    }
  }

  lemma {:induction false} DistinctCard(ms: seq<Month>)
    requires DistinctMonths(ms)
    ensures |set m: Month | m in ms| == |ms|
  {
    if ms != [] {
      var init := ms[..|ms| - 1];
      DistinctCard(init);
      assert (set m: Month | m in ms) == (set m: Month | m in init) + {ms[|ms| - 1]};
      assert ms[|ms| - 1] !in init;
    }
  }

  // ---------------------------------------------------------------------
  // Sums
  // ---------------------------------------------------------------------

  /** Left fold of `+` starting from 0, in sequence order. */
  function Sum(xs: seq<real>): real
  {
    if xs == [] then 0.0 else Sum(xs[..|xs| - 1]) + xs[|xs| - 1]
  }

  /** Every term lies in [lo, hi], so the sum lies between |xs|·lo and |xs|·hi. */
  lemma {:induction false} SumBetween(xs: seq<real>, lo: real, hi: real)
    requires forall i :: 0 <= i < |xs| ==> lo <= xs[i] <= hi
    ensures (|xs| as real) * lo <= Sum(xs) <= (|xs| as real) * hi
  {
    if xs != [] {
      SumBetween(xs[..|xs| - 1], lo, hi);
    }
  }

  /** The sum of `n` copies of `c` is `n · c`. */
  lemma {:induction false} SumConstant(xs: seq<real>, c: real)
    requires forall i :: 0 <= i < |xs| ==> xs[i] == c
    ensures Sum(xs) == (|xs| as real) * c
  {
    if xs != [] {
      SumConstant(xs[..|xs| - 1], c);
    }
  }

  /** The sum distributes over concatenation. */
  lemma {:induction false} SumAppend(a: seq<real>, b: seq<real>)
    ensures Sum(a + b) == Sum(a) + Sum(b)
  {
    if b == [] {
      assert a + b == a;
    } else {
      var init := b[..|b| - 1];
      SumAppend(a, init);
      assert (a + b)[..|a + b| - 1] == a + init;
    }
  }

  /** The last term of a prefix is added last. */
  lemma SumPrefixSnoc(v: seq<real>, k: nat)
    requires 0 < k <= |v|
    ensures Sum(v[..k]) == Sum(v[..k - 1]) + v[k - 1]
  {
    assert v[..k][..k - 1] == v[..k - 1];
  }

  /** Non-negative terms have a non-negative sum. */
  lemma {:induction false} SumNonNegative(xs: seq<real>)
    requires forall i :: 0 <= i < |xs| ==> xs[i] >= 0.0
    ensures Sum(xs) >= 0.0
  {
    if xs != [] {
      SumNonNegative(xs[..|xs| - 1]);
    }
  }

  lemma SumNonNegativeWhen(xs: seq<real>)
    ensures (forall i :: 0 <= i < |xs| ==> xs[i] >= 0.0) ==> Sum(xs) >= 0.0
  {
    if forall i :: 0 <= i < |xs| ==> xs[i] >= 0.0 {
      SumNonNegative(xs);
    }
  }

  // ---------------------------------------------------------------------
  // Decimal rounding
  // ---------------------------------------------------------------------

  function Pow10(digits: nat): (p: nat)
    ensures p >= 1
  {
    if digits == 0 then 1 else 10 * Pow10(digits - 1)
  }

  /** 10^digits as a real, the grid step of a rounding to `digits` decimals being its inverse. */
  function Scale(digits: nat): (p: real)
    ensures p >= 1.0
  {
    Pow10(digits) as real
  }

  /** The number a JavaScript `x.toFixed(digits)` string denotes: the multiple
      of 10^-digits nearest to |x|, ties going to the larger magnitude, with the
      sign of x put back. */
  function ToFixed(x: real, digits: nat): (r: real)
    ensures x - 1.0 / (2.0 * Scale(digits)) <= r <= x + 1.0 / (2.0 * Scale(digits))
    ensures x >= 0.0 ==> r >= 0.0
    ensures x <= 0.0 ==> r <= 0.0
  {
    if x < 0.0 then -RoundHalfUp(-x, digits) else RoundHalfUp(x, digits)
  }

  function RoundHalfUp(x: real, digits: nat): (r: real)
    ensures x - 1.0 / (2.0 * Scale(digits)) <= r <= x + 1.0 / (2.0 * Scale(digits))
    ensures x >= 0.0 ==> r >= 0.0
  {
    var n := (x * Scale(digits) + 0.5).Floor;
    ScaledBack(x, Scale(digits), n as real);
    n as real / Scale(digits)
  }

  lemma RoundHalfUpUnfold(x: real, digits: nat)
    ensures RoundHalfUp(x, digits) == (x * Scale(digits) + 0.5).Floor as real / Scale(digits)
  {
  }

  /** The number Python's `round(x, digits)` returns: the nearest multiple of
      10^-digits, ties going to the even multiple. */
  function RoundHalfEven(x: real, digits: nat): (r: real)
    ensures x - 1.0 / (2.0 * Scale(digits)) <= r <= x + 1.0 / (2.0 * Scale(digits))
  {
    var y := x * Scale(digits);
    var f := y.Floor;
    var n := if y - f as real > 0.5 then f + 1
             else if y - f as real < 0.5 then f
             else if f % 2 == 0 then f else f + 1;
    ScaledBack(x, Scale(digits), n as real);
    n as real / Scale(digits)
  }

  /** An integer n within 1/2 of x·p, scaled back by p, is within 1/(2p) of x. */
  lemma ScaledBack(x: real, p: real, n: real)
    requires p >= 1.0
    requires x * p - 0.5 <= n <= x * p + 0.5
    ensures x - 1.0 / (2.0 * p) <= n / p <= x + 1.0 / (2.0 * p)
  {
    assert n / p - x == (n - x * p) / p;
    assert 1.0 / (2.0 * p) == 0.5 / p;
  }

  /** A value already on the 10^-digits grid (x·10^digits is the integer n)
      is displayed unchanged. */
  lemma ToFixedOnGrid(x: real, n: int, digits: nat)
    requires x * Scale(digits) == n as real
    ensures ToFixed(x, digits) == x
  {
    if x < 0.0 {
      assert (-x) * Scale(digits) == (-n) as real;
      HalfUpOnGrid(-x, -n, digits);
    } else {
      HalfUpOnGrid(x, n, digits);
    }
  }

  lemma HalfUpOnGrid(x: real, n: int, digits: nat)
    requires x * Scale(digits) == n as real
    ensures RoundHalfUp(x, digits) == x
  {
    RoundHalfUpUnfold(x, digits);
    assert (x * Scale(digits) + 0.5).Floor == n;
  }
}
