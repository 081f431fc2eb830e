/** The countdown arithmetic the two Christmas widgets share: choosing which Christmas to count down to,
    and splitting a millisecond count into days, hours, minutes and seconds the way the widgets do
    (`Math.floor` of a quotient and JavaScript's `%`). Instants are integer milliseconds; the calendar is
    reduced to the instants of this year's and next year's Christmas, which the caller supplies. */
module Countdown {

  const SECOND := 1000
  const MINUTE := 60 * SECOND
  const HOUR := 60 * MINUTE
  const DAY := 24 * HOUR

  /** JavaScript's `%` with a positive divisor: the result takes the sign of the dividend. */
  function JsRem(a: int, n: int): (r: int)
    requires n > 0
    ensures a >= 0 ==> r == a % n
    ensures a < 0 ==> -n < r <= 0
  {
    if a >= 0 then a % n else -((-a) % n)
  }

  datatype Split = Split(days: int, hours: int, minutes: int, seconds: int)

  /** The four displayed fields of a millisecond count. `Math.floor(x / n)` with n > 0 is Dafny's `x / n`. */
  function SplitMillis(d: int): Split {
    Split(d / DAY, JsRem(d, DAY) / HOUR, JsRem(d, HOUR) / MINUTE, JsRem(d, MINUTE) / SECOND)
  }

  /** Milliseconds a split accounts for. */
  function Millis(s: Split): int {
    s.days * DAY + s.hours * HOUR + s.minutes * MINUTE + s.seconds * SECOND
  }

  /** For a count that is not negative the fields are in range and account for the count to the second. */
  lemma SplitMillisBounds(d: int)
    requires d >= 0
    ensures var s := SplitMillis(d);
      && s.days >= 0 && 0 <= s.hours < 24 && 0 <= s.minutes < 60 && 0 <= s.seconds < 60
      && Millis(s) <= d < Millis(s) + SECOND
  {
    var r1, r2, r3 := d % DAY, d % HOUR, d % MINUTE;
    assert d == (d / DAY) * DAY + r1 && 0 <= r1 < DAY;
    ModOfMultiple(d, 24, HOUR);
    assert r1 == (r1 / HOUR) * HOUR + r2 && 0 <= r2 < HOUR;
    ModOfMultiple(d, 60, MINUTE);
    assert r2 == (r2 / MINUTE) * MINUTE + r3 && 0 <= r3 < MINUTE;
    assert r3 == (r3 / SECOND) * SECOND + r3 % SECOND && 0 <= r3 % SECOND < SECOND;
  }

  /** Reducing modulo a multiple of `n` first does not change the remainder modulo `n`. */
  lemma ModOfMultiple(d: int, k: int, n: int)
    requires d >= 0 && k > 0 && n > 0
    ensures (d % (k * n)) % n == d % n
  {
    var q := d / (k * n);
    var r := d % (k * n);
    assert d == q * (k * n) + r;
    assert d == (q * k) * n + r;
    ModAddMultiple(r, q * k, n);
  }

  /** Adding a whole number of `n`s leaves the remainder modulo `n` unchanged. */
  lemma ModAddMultiple(r: int, m: int, n: int)
    requires r >= 0 && m >= 0 && n > 0
    ensures (m * n + r) % n == r % n
  {
    assert r == (r / n) * n + r % n;
    assert m * n + r == (m + r / n) * n + r % n;
    RemainderUnique(m * n + r, n, m + r / n, r % n);
  }

  /** Any decomposition a == q * n + r with 0 <= r < n gives Dafny's remainder. */
  lemma RemainderUnique(a: int, n: int, q: int, r: int)
    requires n > 0 && a == q * n + r && 0 <= r < n
    ensures a % n == r
  {
    var q', r' := a / n, a % n;
    if q' > q {
      Distribute(q', q, n);
      AtLeastOnce(q' - q, n);
    } else if q' < q {
      Distribute(q, q', n);
      AtLeastOnce(q - q', n);
    }
  }

  lemma Distribute(a: int, b: int, n: int)
    ensures a * n - b * n == (a - b) * n
  {
  }

  /** A positive multiple of a positive `n` is at least `n`. */
  lemma {:induction false} AtLeastOnce(k: int, n: int)
    requires k >= 1 && n > 0
    ensures k * n >= n
    decreases k
  {
    if k > 1 {
      AtLeastOnce(k - 1, n);
      Distribute(k, k - 1, n);
    }
  }

  /** The Christmas instant to count down to: this year's, or next year's once this year's has passed.
      Next year's Christmas lies after every instant of the current year, which is all `now` can be. */
  function Target(now: int, thisChristmas: int, nextChristmas: int): (t: int)
    requires now <= nextChristmas
    ensures t >= now
    ensures t == thisChristmas <==> now <= thisChristmas || thisChristmas == nextChristmas
    ensures t == thisChristmas || t == nextChristmas
  {
    if now > thisChristmas then nextChristmas else thisChristmas
  }

  /** Milliseconds left until the targeted Christmas; never negative. */
  function Remaining(now: int, thisChristmas: int, nextChristmas: int): (r: int)
    requires now <= nextChristmas
    ensures r >= 0
    ensures now <= thisChristmas ==> r == thisChristmas - now
    ensures now > thisChristmas ==> r == nextChristmas - now
  {
    Target(now, thisChristmas, nextChristmas) - now
  }
}
