/**
 * Time arithmetic shared by the three entitlement modules. Every instant is an
 * integer number of milliseconds since the epoch, as `Date.getTime()` returns;
 * "days remaining" is JavaScript's `Math.ceil(ms / 86400000)`, which on whole
 * milliseconds is integer ceiling division.
 */
module Days {

  /** One day in milliseconds: `1000 * 60 * 60 * 24`. */
  const DAY_MS: int := 86_400_000

  /** Length of the trial in days. */
  const TRIAL_DAYS: int := 7

  /** Length of the trial in milliseconds: `7 * 24 * 60 * 60 * 1000`. */
  const WEEK_MS: int := 604_800_000

  datatype Option<+T> = None | Some(value: T)

  /** `Math.ceil(ms / DAY_MS)`: the least whole number of days that covers `ms`. */
  function DaysCeil(ms: int): (days: int)
    ensures (days - 1) * DAY_MS < ms <= days * DAY_MS
  {
    var q := ms / DAY_MS;
    if ms % DAY_MS == 0 then q else q + 1
  }

  /** `Math.max(0, n)`. */
  function Max0(n: int): (m: int)
    ensures m >= 0 && m >= n
    ensures m == n || m == 0
  {
    if n > 0 then n else 0
  }

  /** The ceiling is positive exactly when there is time left. */
  lemma DaysCeilPositive(ms: int)
    ensures DaysCeil(ms) > 0 <==> ms > 0
  {
    var d := DaysCeil(ms);
    if d > 0 {
      assert (d - 1) * DAY_MS >= 0;
    } else {
      assert d * DAY_MS <= 0;
    }
  }

  /** Less time left never means more days remaining. */
  lemma DaysCeilMonotone(a: int, b: int)
    requires a <= b
    ensures DaysCeil(a) <= DaysCeil(b)
  {
    var da, db := DaysCeil(a), DaysCeil(b);
    assert (da - 1 - db) * DAY_MS == (da - 1) * DAY_MS - db * DAY_MS;
    assert (da - 1 - db) * DAY_MS < 0;
  }

  /** A whole number of days is its own ceiling. */
  lemma DaysCeilWhole(k: int)
    ensures DaysCeil(k * DAY_MS) == k
  {
    var d := DaysCeil(k * DAY_MS);
    assert (d - 1) * DAY_MS < k * DAY_MS <= d * DAY_MS;
    assert (d - 1 - k) * DAY_MS < 0 <= (d - k) * DAY_MS;
  }

  /** Within the trial week, between 1 and 7 days remain. */
  lemma DaysCeilWithinWeek(ms: int)
    requires 0 < ms <= WEEK_MS
    ensures 1 <= DaysCeil(ms) <= TRIAL_DAYS
  {
    DaysCeilPositive(ms);
    DaysCeilMonotone(ms, TRIAL_DAYS * DAY_MS);
    DaysCeilWhole(TRIAL_DAYS);
  }
}
