/**
 * wicked_zerg_challenger/tools/api_key_usage_limiter.py: a table of request
 * counters keyed by `'%Y-%m-%d'` and `'%Y-%m-%d-%H'` strings, pruned by
 * string comparison against the key of the date 30 days ago.
 *
 * The clock is not read here: every operation takes the current keys as
 * parameters. `DateKey` and `HourKey` give the strftime formats, and the
 * lemmas at the end show that such keys compare as strings the way their
 * dates compare, which is what the pruning relies on.
 */
module UsageLimiter {

  /** Python's `a < b` on strings: code-point lexicographic order. */
  predicate LexLt(a: string, b: string) {
    |b| > 0 && (|a| == 0 || a[0] < b[0] || (a[0] == b[0] && LexLt(a[1..], b[1..])))
  }

  /** Python's `a <= b` on strings. */
  predicate LexLe(a: string, b: string) {
    a == b || LexLt(a, b)
  }

  /** Why the source refuses a request; the message text is rendered from these numbers. */
  datatype Refusal = NoRefusal | DailyExceeded(count: int, limit: int) | HourlyExceeded(count: int, limit: int)

  /** `get_current_usage`'s dictionary. */
  datatype Usage = Usage(daily: int, dailyLimit: int, hourly: int, hourlyLimit: int)

  /** `usage.get(key, 0)`. */
  function CountOf(usage: map<string, int>, key: string): int {
    if key in usage then usage[key] else 0
  }

  /** `usage[key] = usage.get(key, 0) + 1`. */
  function Bump(usage: map<string, int>, key: string): (r: map<string, int>)
    ensures r.Keys == usage.Keys + {key}
    ensures r[key] == CountOf(usage, key) + 1
    ensures forall k :: k in usage && k != key ==> r[k] == usage[k]
  {
    usage[key := CountOf(usage, key) + 1]
  }

  /** `{k: v for k, v in usage.items() if k >= cutoff}`. */
  function Prune(usage: map<string, int>, cutoff: string): (r: map<string, int>)
    ensures forall k :: k in r <==> k in usage && LexLe(cutoff, k)
    ensures forall k :: k in r ==> r[k] == usage[k]
  {
    map k | k in usage && LexLe(cutoff, k) :: usage[k]
  }

  class ApiKeyUsageLimiter {
    const dailyLimit: int
    const hourlyLimit: int
    var usage: map<string, int>

    /** `loaded` is the table read from the usage file (empty when there is none). */
    constructor (dailyLimit: int, hourlyLimit: int, loaded: map<string, int>)
      ensures this.dailyLimit == dailyLimit && this.hourlyLimit == hourlyLimit
      ensures usage == loaded
    {
      this.dailyLimit := dailyLimit;
      this.hourlyLimit := hourlyLimit;
      usage := loaded;
    }

    /**
     * `can_make_request`: the daily limit is checked first, then the hourly
     * one; absent keys count as 0. Nothing is written.
     */
    method CanMakeRequest(dateKey: string, hourKey: string) returns (ok: bool, refusal: Refusal)
      ensures ok <==> CountOf(usage, dateKey) < dailyLimit && CountOf(usage, hourKey) < hourlyLimit
      ensures ok <==> refusal == NoRefusal
      ensures CountOf(usage, dateKey) >= dailyLimit ==> refusal == DailyExceeded(CountOf(usage, dateKey), dailyLimit)
      ensures CountOf(usage, dateKey) < dailyLimit && CountOf(usage, hourKey) >= hourlyLimit ==>
        refusal == HourlyExceeded(CountOf(usage, hourKey), hourlyLimit)
    {
      var dailyCount := CountOf(usage, dateKey);
      var hourlyCount := CountOf(usage, hourKey);
      if dailyCount >= dailyLimit {
        return false, DailyExceeded(dailyCount, dailyLimit);
      }
      if hourlyCount >= hourlyLimit {
        return false, HourlyExceeded(hourlyCount, hourlyLimit);
      }
      return true, NoRefusal;
    }

    /**
     * `record_request`: bumps the date and hour counters, then keeps only
     * the keys at or after `cutoff` (the date key of 30 days ago).
     */
    method RecordRequest(dateKey: string, hourKey: string, cutoff: string)
      modifies this
      ensures usage == Prune(Bump(Bump(old(usage), dateKey), hourKey), cutoff)
      ensures forall k :: k in usage ==> LexLe(cutoff, k)
      ensures forall k :: k in usage && k != dateKey && k != hourKey ==> k in old(usage) && usage[k] == old(usage)[k]
      ensures dateKey != hourKey && LexLe(cutoff, dateKey) ==>
        dateKey in usage && usage[dateKey] == CountOf(old(usage), dateKey) + 1
      ensures dateKey != hourKey && LexLe(cutoff, hourKey) ==>
        hourKey in usage && usage[hourKey] == CountOf(old(usage), hourKey) + 1
    {
      usage := usage[dateKey := CountOf(usage, dateKey) + 1];
      usage := usage[hourKey := CountOf(usage, hourKey) + 1];
      usage := map k | k in usage && LexLe(cutoff, k) :: usage[k];
    }

    /** `get_current_usage`: the two counters (0 when absent) beside the two limits. */
    method GetCurrentUsage(dateKey: string, hourKey: string) returns (u: Usage)
      ensures u.daily == CountOf(usage, dateKey) && u.hourly == CountOf(usage, hourKey)
      ensures u.dailyLimit == dailyLimit && u.hourlyLimit == hourlyLimit
      ensures dateKey !in usage ==> u.daily == 0
      ensures hourKey !in usage ==> u.hourly == 0
    {
      u := Usage(CountOf(usage, dateKey), dailyLimit, CountOf(usage, hourKey), hourlyLimit);
    }
  }

  // ---------------------------------------------------------------------
  // The strftime keys and their order

  /** A moment as `datetime.now()` gives it, to the hour. */
  datatype DateHour = DateHour(year: int, month: int, day: int, hour: int)

  predicate ValidDateHour(d: DateHour) {
    1000 <= d.year <= 9999 && 1 <= d.month <= 12 && 1 <= d.day <= 31 && 0 <= d.hour <= 23
  }

  /** `a` is on a calendar day no later than `b`. */
  predicate DayNotAfter(a: DateHour, b: DateHour) {
    a.year < b.year
    || (a.year == b.year && a.month < b.month)
    || (a.year == b.year && a.month == b.month && a.day <= b.day)
  }

  function Pow10(w: nat): (p: nat)
    ensures p >= 1
  {
    if w == 0 then 1 else 10 * Pow10(w - 1)
  }

  /** `n` in decimal, zero-padded to `w` digits. */
  function Pad(n: nat, w: nat): (s: string)
    ensures |s| == w
  {
    if w == 0 then "" else Pad(n / 10, w - 1) + ['0' + (n % 10) as char]
  }

  /** `strftime('%Y-%m-%d')`. */
  function DateKey(d: DateHour): (s: string)
    requires ValidDateHour(d)
    ensures |s| == 10
  {
    Pad(d.year, 4) + "-" + Pad(d.month, 2) + "-" + Pad(d.day, 2)
  }

  /** `strftime('%Y-%m-%d-%H')`. */
  function HourKey(d: DateHour): (s: string)
    requires ValidDateHour(d)
  {
    Pad(d.year, 4) + "-" + Pad(d.month, 2) + "-" + Pad(d.day, 2) + "-" + Pad(d.hour, 2)
  }

  lemma {:induction false} LexLtAppend(x: string, y: string, u: string, v: string)
    requires |x| == |y| && LexLt(x, y)
    ensures LexLt(x + u, y + v)
  {
    if |x| > 0 && x[0] == y[0] {
      assert (x + u)[1..] == x[1..] + u && (y + v)[1..] == y[1..] + v;
      LexLtAppend(x[1..], y[1..], u, v);
    }
  }

  lemma {:induction false} LexLtSamePrefix(x: string, u: string, v: string)
    requires LexLt(u, v)
    ensures LexLt(x + u, x + v)
  {
    if |x| > 0 {
      assert (x + u)[1..] == x[1..] + u && (x + v)[1..] == x[1..] + v;
      LexLtSamePrefix(x[1..], u, v);
    } else {
      assert x + u == u && x + v == v;
    }
  }

  lemma {:induction false} PrefixLexLe(x: string, u: string)
    ensures LexLe(x, x + u)
  {
    if |u| > 0 && |x| > 0 {
      assert (x + u)[1..] == x[1..] + u;
      PrefixLexLe(x[1..], u);
      assert x[1..] + u != x[1..];
    } else if |u| > 0 {
      assert LexLt(x, x + u);
    } else {
      assert x + u == x;
    }
  }

  lemma {:induction false} LexLtLeTrans(a: string, b: string, c: string)
    requires LexLe(a, b) && LexLe(b, c)
    ensures LexLe(a, c)
  {
    if a != b && b != c && |a| > 0 && a[0] == b[0] && b[0] == c[0] {
      LexLtLeTrans(a[1..], b[1..], c[1..]);
      assert a == [a[0]] + a[1..] && c == [c[0]] + c[1..];
    }
  }

  /** Zero-padded numbers of the same width compare as strings like the numbers. */
  lemma {:induction false} PadOrder(a: nat, b: nat, w: nat)
    requires a < b < Pow10(w)
    ensures LexLt(Pad(a, w), Pad(b, w))
  {
    var ha, hb := a / 10, b / 10;
    assert hb < Pow10(w - 1);
    if ha < hb {
      PadOrder(ha, hb, w - 1);
      LexLtAppend(Pad(ha, w - 1), Pad(hb, w - 1), ['0' + (a % 10) as char], ['0' + (b % 10) as char]);
    } else {
      assert a % 10 < b % 10;
      LexLtSamePrefix(Pad(ha, w - 1), ['0' + (a % 10) as char], ['0' + (b % 10) as char]);
    }
  }

  /** An earlier year decides the order of two keys. */
  lemma YearDecides(ya: string, yb: string, ra: string, rb: string)
    requires |ya| == |yb| && LexLt(ya, yb)
    ensures LexLe(ya + ra, yb + rb)
  {
    LexLtAppend(ya, yb, ra, rb);
  }

  /** With the same year, an earlier month decides the order of two keys. */
  lemma MonthDecides(y: string, ma: string, mb: string, ra: string, rb: string)
    requires |ma| == |mb| && LexLt(ma, mb)
    ensures LexLe(y + (ma + ra), y + (mb + rb))
  {
    LexLtAppend(ma, mb, ra, rb);
    LexLtSamePrefix(y, ma + ra, mb + rb);
  }

  /** With the same year and month, the day decides the order of two keys. */
  lemma DayDecides(ym: string, da: string, db: string)
    requires LexLe(da, db)
    ensures LexLe(ym + da, ym + db)
  {
    if da != db {
      LexLtSamePrefix(ym, da, db);
    }
  }

  /** The date key of an earlier day is not greater than that of a later day. */
  lemma DateKeyOrder(a: DateHour, b: DateHour)
    requires ValidDateHour(a) && ValidDateHour(b) && DayNotAfter(a, b)
    ensures LexLe(DateKey(a), DateKey(b))
  {
    if a.year < b.year {
      PadOrder(a.year, b.year, 4);
      YearKeyOrder(a, b);
    } else if a.month < b.month {
      PadOrder(a.month, b.month, 2);
      MonthKeyOrder(a, b);
    } else {
      if a.day < b.day {
        PadOrder(a.day, b.day, 2);
      }
      DayKeyOrder(a, b);
    }
  }

  lemma YearKeyOrder(a: DateHour, b: DateHour)
    requires ValidDateHour(a) && ValidDateHour(b) && LexLt(Pad(a.year, 4), Pad(b.year, 4))
    ensures LexLe(DateKey(a), DateKey(b))
  {
    var ra, rb := "-" + Pad(a.month, 2) + "-" + Pad(a.day, 2), "-" + Pad(b.month, 2) + "-" + Pad(b.day, 2);
    assert DateKey(a) == Pad(a.year, 4) + ra && DateKey(b) == Pad(b.year, 4) + rb;
    YearDecides(Pad(a.year, 4), Pad(b.year, 4), ra, rb);
  }

  lemma MonthKeyOrder(a: DateHour, b: DateHour)
    requires ValidDateHour(a) && ValidDateHour(b) && a.year == b.year
    requires LexLt(Pad(a.month, 2), Pad(b.month, 2))
    ensures LexLe(DateKey(a), DateKey(b))
  {
    var y := Pad(a.year, 4) + "-";
    var ra, rb := "-" + Pad(a.day, 2), "-" + Pad(b.day, 2);
    assert DateKey(a) == y + (Pad(a.month, 2) + ra) && DateKey(b) == y + (Pad(b.month, 2) + rb);
    MonthDecides(y, Pad(a.month, 2), Pad(b.month, 2), ra, rb);
  }

  lemma DayKeyOrder(a: DateHour, b: DateHour)
    requires ValidDateHour(a) && ValidDateHour(b) && a.year == b.year && a.month == b.month
    requires LexLe(Pad(a.day, 2), Pad(b.day, 2))
    ensures LexLe(DateKey(a), DateKey(b))
  {
    var ym := Pad(a.year, 4) + "-" + Pad(a.month, 2) + "-";
    assert DateKey(a) == ym + Pad(a.day, 2) && DateKey(b) == ym + Pad(b.day, 2);
    DayDecides(ym, Pad(a.day, 2), Pad(b.day, 2));
  }

  /** The hour key extends the date key, so it is never smaller. */
  lemma HourKeyExtendsDateKey(d: DateHour)
    requires ValidDateHour(d)
    ensures HourKey(d) == DateKey(d) + "-" + Pad(d.hour, 2)
    ensures DateKey(d) != HourKey(d)
    ensures LexLe(DateKey(d), HourKey(d))
  {
    assert HourKey(d) == DateKey(d) + ("-" + Pad(d.hour, 2));
    PrefixLexLe(DateKey(d), "-" + Pad(d.hour, 2));
  }

  /**
   * With the keys taken from the clock and the cutoff from a day no later
   * than today, the counters just bumped both survive the pruning.
   */
  lemma CurrentKeysSurvive(now: DateHour, cutoffDay: DateHour)
    requires ValidDateHour(now) && ValidDateHour(cutoffDay) && DayNotAfter(cutoffDay, now)
    ensures DateKey(now) != HourKey(now)
    ensures LexLe(DateKey(cutoffDay), DateKey(now)) && LexLe(DateKey(cutoffDay), HourKey(now))
  {
    DateKeyOrder(cutoffDay, now);
    HourKeyExtendsDateKey(now);
    LexLtLeTrans(DateKey(cutoffDay), DateKey(now), HourKey(now));
  }
}
