/**
 * Relative timestamps (frontend/src/app/utils/dateUtils.ts). `Date` parsing, the clock and
 * `toLocaleString` are inputs: the two instants arrive as integer milliseconds and the locale
 * rendering of the date string as a function.
 */
module DateUtils {
  import Strs

  const MS_PER_SECOND: int := 1000
  const MS_PER_MINUTE: int := 60_000
  const MS_PER_HOUR: int := 3_600_000
  const MS_PER_DAY: int := 86_400_000

  /** The bucket `formatRelativeTime` picks. */
  datatype RelativeTime =
    | JustNow
    | MinutesAgo(minutes: int)
    | HoursAgo(hours: int)
    | Yesterday
    | DaysAgo(days: int)
    | Older

  /** The successive `Math.floor` divisions and the cascade of early returns. */
  function Bucket(diffMs: int): RelativeTime
  {
    // With a positive divisor Dafny's `/` rounds down, as `Math.floor(a / b)` does.
    var diffSeconds := diffMs / 1000;
    var diffMinutes := diffSeconds / 60;
    var diffHours := diffMinutes / 60;
    var diffDays := diffHours / 24;
    if diffSeconds < 60 then JustNow
    else if diffMinutes < 60 then MinutesAgo(diffMinutes)
    else if diffHours < 24 then HoursAgo(diffHours)
    else if diffDays == 1 then Yesterday
    else if diffDays < 7 then DaysAgo(diffDays)
    else Older
  }

  /** Rounding down twice is rounding down once by the product. */
  lemma FloorTwice(a: int, b: int, c: int)
    requires b > 0 && c > 0
    ensures (a / b) / c == a / (b * c)
  {
    var q := a / b;
    var r := a % b;
    var q2 := q / c;
    var r2 := q % c;
    Recompose(a, b, c, q, r, q2, r2);
    RemainderBound(b, c, r, r2);
    DivOfDecomposition(a, b * c, q2, b * r2 + r);
  }

  /** `a = b·q + r` and `q = c·q2 + r2` give `a = (b·c)·q2 + (b·r2 + r)`. */
  lemma Recompose(a: int, b: int, c: int, q: int, r: int, q2: int, r2: int)
    requires a == b * q + r && q == c * q2 + r2
    ensures a == (b * c) * q2 + (b * r2 + r)
  {
    assert b * q == b * (c * q2) + b * r2;
    assert b * (c * q2) == (b * c) * q2;
  }

  /** The combined remainder stays below the product. */
  lemma RemainderBound(b: int, c: int, r: int, r2: int)
    requires b > 0 && 0 <= r < b && 0 <= r2 < c
    ensures 0 <= b * r2 + r < b * c
  {
    assert b * r2 <= b * (c - 1) by { MulLe(b, r2, c - 1); }
    assert b * (c - 1) == b * c - b;
    assert b * r2 >= 0 by { MulLe(b, 0, r2); }
  }

  lemma MulLe(b: int, x: int, y: int)
    requires b >= 0 && x <= y
    ensures b * x <= b * y
  {
    assert b * y - b * x == b * (y - x);
  }

  lemma DivOfDecomposition(a: int, d: int, q: int, r: int)
    requires d > 0 && 0 <= r < d && a == d * q + r
    ensures a / d == q
  {
    var q' := a / d;
    var r' := a % d;
    assert d * (q' - q) == r - r';
    if q' - q >= 1 {
      MulAtLeast(d, q' - q);
    } else if q - q' >= 1 {
      MulAtLeast(d, q - q');
    }
  }

  lemma MulAtLeast(d: int, k: int)
    requires d > 0 && k >= 1
    ensures d * k >= d
  {
    assert d * k == d + d * (k - 1);
  }

  /** The minutes, hours and days are the millisecond difference divided down in one step. */
  lemma UnitsOfDiff(diffMs: int)
    ensures diffMs / 1000 / 60 == diffMs / MS_PER_MINUTE
    ensures diffMs / 1000 / 60 / 60 == diffMs / MS_PER_HOUR
    ensures diffMs / 1000 / 60 / 60 / 24 == diffMs / MS_PER_DAY
  {
    FloorTwice(diffMs, 1000, 60);
    FloorTwice(diffMs, MS_PER_MINUTE, 60);
    FloorTwice(diffMs, MS_PER_HOUR, 24);
  }

  /**
   * The buckets as ranges of the difference: they are disjoint (one constructor each) and every
   * difference, a future instant included, falls in one of them.
   */
  lemma {:induction false} BucketRanges(diffMs: int)
    ensures Bucket(diffMs).JustNow? <==> diffMs < MS_PER_MINUTE
    ensures Bucket(diffMs).MinutesAgo? <==> MS_PER_MINUTE <= diffMs < MS_PER_HOUR
    ensures Bucket(diffMs).MinutesAgo? ==> Bucket(diffMs).minutes == diffMs / MS_PER_MINUTE
    ensures Bucket(diffMs).HoursAgo? <==> MS_PER_HOUR <= diffMs < MS_PER_DAY
    ensures Bucket(diffMs).HoursAgo? ==> Bucket(diffMs).hours == diffMs / MS_PER_HOUR
    ensures Bucket(diffMs).Yesterday? <==> MS_PER_DAY <= diffMs < 2 * MS_PER_DAY
    ensures Bucket(diffMs).DaysAgo? <==> 2 * MS_PER_DAY <= diffMs < 7 * MS_PER_DAY
    ensures Bucket(diffMs).DaysAgo? ==> 2 <= Bucket(diffMs).days <= 6 && Bucket(diffMs).days == diffMs / MS_PER_DAY
    ensures Bucket(diffMs).Older? <==> 7 * MS_PER_DAY <= diffMs
  {
    UnitsOfDiff(diffMs);
    var seconds := diffMs / 1000;
    assert seconds < 60 <==> diffMs < MS_PER_MINUTE;
    var minutes := diffMs / MS_PER_MINUTE;
    assert minutes < 60 <==> diffMs < MS_PER_HOUR;
    var hours := diffMs / MS_PER_HOUR;
    assert hours < 24 <==> diffMs < MS_PER_DAY;
    var days := diffMs / MS_PER_DAY;
    assert days <= 1 <==> diffMs < 2 * MS_PER_DAY;
    assert days < 7 <==> diffMs < 7 * MS_PER_DAY;
  }

  /** `formatRelativeTime`; `localeString` is what `formatDate(dateString)` renders. */
  function FormatRelativeTime(dateMs: int, nowMs: int, localeString: string): (r: string)
    ensures nowMs - dateMs < MS_PER_MINUTE ==> r == "just now"
    ensures 7 * MS_PER_DAY <= nowMs - dateMs ==> r == localeString
  {
    BucketRanges(nowMs - dateMs);
    match Bucket(nowMs - dateMs)
    case JustNow => "just now"
    case MinutesAgo(m) => if m == 1 then "1 minute ago" else Strs.IntToStr(m) + " minutes ago"
    case HoursAgo(h) => if h == 1 then "1 hour ago" else Strs.IntToStr(h) + " hours ago"
    case Yesterday => "yesterday"
    case DaysAgo(d) => Strs.IntToStr(d) + " days ago"
    case Older => localeString
  }

  /** Singular wording exactly at one minute or one hour; the counts otherwise. */
  lemma CountWording(dateMs: int, nowMs: int, localeString: string)
    ensures var d := nowMs - dateMs;
      && (MS_PER_MINUTE <= d < 2 * MS_PER_MINUTE ==> FormatRelativeTime(dateMs, nowMs, localeString) == "1 minute ago")
      && (2 * MS_PER_MINUTE <= d < MS_PER_HOUR ==>
            FormatRelativeTime(dateMs, nowMs, localeString) == Strs.NatToStr(d / MS_PER_MINUTE) + " minutes ago")
      && (MS_PER_HOUR <= d < 2 * MS_PER_HOUR ==> FormatRelativeTime(dateMs, nowMs, localeString) == "1 hour ago")
      && (2 * MS_PER_HOUR <= d < MS_PER_DAY ==>
            FormatRelativeTime(dateMs, nowMs, localeString) == Strs.NatToStr(d / MS_PER_HOUR) + " hours ago")
      && (MS_PER_DAY <= d < 2 * MS_PER_DAY ==> FormatRelativeTime(dateMs, nowMs, localeString) == "yesterday")
      && (2 * MS_PER_DAY <= d < 7 * MS_PER_DAY ==>
            FormatRelativeTime(dateMs, nowMs, localeString) == Strs.NatToStr(d / MS_PER_DAY) + " days ago")
  {
    BucketRanges(nowMs - dateMs);
  }
}
