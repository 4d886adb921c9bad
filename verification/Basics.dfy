/** Shared vocabulary: options, identifiers, clock units, powers of two and the rounding
    of a `numeric(18,4)` column. */
module Basics {
  /** Row identifiers. A table is a sequence and a row's identifier is its position, so
      identifiers are fresh on insertion and never reused. */
  type Id = nat

  datatype Option<+T> = None | Some(value: T)

  /** Instants are microseconds; calendar days are day numbers. */
  const SECOND: int := 1_000_000
  const DAY: int := 86_400 * SECOND

  /** Whole days of a signed span, rounded down as Python's `timedelta.days` does. */
  function WholeDays(span: int): int {
    span / DAY
  }

  /** Days begin at multiples of 86,400 seconds; a span of `n` days and a bit has `n` whole ones. */
  lemma WholeDaysFloor(span: int, n: int)
    ensures WholeDays(span) == n <==> n * 86_400_000_000 <= span < (n + 1) * 86_400_000_000
  {
  }

  function Pow2(n: nat): (p: nat)
    ensures p >= 1
  {
    if n == 0 then 1 else 2 * Pow2(n - 1)
  }

  lemma {:induction false} Pow2Monotone(m: nat, n: nat)
    requires m <= n
    ensures Pow2(m) <= Pow2(n)
    decreases n
  {
    if m < n {
      Pow2Monotone(m, n - 1);
    }
  }

  function Min(a: int, b: int): int {
    if a <= b then a else b
  }

  // ---- numeric(18,4) -----------------------------------------------------------------

  /** A number in ten-thousandths, ties rounded away from zero. */
  function RoundUnits(r: real): int {
    if r >= 0.0 then (r * 10000.0 + 0.5).Floor else -((-r * 10000.0 + 0.5).Floor)
  }

  /** What a `numeric(18,4)` column holds after storing `r`. */
  function Round4(r: real): real {
    RoundUnits(r) as real / 10000.0
  }

  /** `r` has at most four decimals, so storing it loses nothing. */
  predicate Scaled(r: real) {
    Round4(r) == r
  }

  const NUMERIC_LIMIT: int := 1_000_000_000_000_000_000

  /** Rounded to four decimals, `r` has at most fourteen digits before the point; the database
      refuses any other value. */
  predicate Fits(r: real) {
    -NUMERIC_LIMIT < RoundUnits(r) < NUMERIC_LIMIT
  }

  lemma RoundUnitsExact(n: int)
    ensures RoundUnits(n as real / 10000.0) == n
  {
    var r := n as real / 10000.0;
    if n >= 0 {
      assert r * 10000.0 + 0.5 == n as real + 0.5;
    } else {
      assert -r * 10000.0 + 0.5 == (-n) as real + 0.5;
    }
  }

  lemma Round4Idempotent(r: real)
    ensures Scaled(Round4(r))
  {
    RoundUnitsExact(RoundUnits(r));
  }

  lemma Round4Monotone(a: real, b: real)
    requires a <= b
    ensures Round4(a) <= Round4(b)
  {
    assert RoundUnits(a) <= RoundUnits(b);
  }

  /** What is stored is a whole number of ten-thousandths, nearest to the value; of two equally
      near ones, the one further from zero. */
  lemma RoundIsNearest(r: real, n: int)
    ensures Round4(r) == RoundUnits(r) as real / 10000.0
    ensures RoundUnits(r) == n <==>
              if r >= 0.0 then n as real / 10000.0 - 0.00005 <= r < n as real / 10000.0 + 0.00005
              else n as real / 10000.0 - 0.00005 < r <= n as real / 10000.0 + 0.00005
  {
  }

  /** The column holds fourteen digits before the point. */
  lemma FitsFourteenDigits(r: real)
    ensures Fits(r) <==> -100_000_000_000_000.0 < Round4(r) < 100_000_000_000_000.0
  {
  }
}
