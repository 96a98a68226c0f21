/** Time stamps as text. Expiry and staleness are decided by comparing strings;
    these lemmas say what the comparisons mean in time. Instants are nanoseconds
    since the start of year 0; stamps cover the years 0 to 9999. */
module Clock {
  import opened Options

  // ---------------------------------------------------------------- calendar

  predicate Leap(y: nat) {
    y % 4 == 0 && (y % 100 != 0 || y % 400 == 0)
  }

  function YearLength(y: nat): nat {
    if Leap(y) then 366 else 365
  }

  function MonthLength(y: nat, m: nat): nat {
    if m == 2 then (if Leap(y) then 29 else 28) else if m == 4 || m == 6 || m == 9 || m == 11 then 30 else 31
  }

  /** Days from the start of year 0. */
  function DaysBefore(y: nat): nat {
    if y == 0 then 0 else DaysBefore(y - 1) + YearLength(y - 1)
  }

  function DaysBeforeMonth(y: nat, m: nat): nat {
    if m <= 1 then 0 else DaysBeforeMonth(y, m - 1) + MonthLength(y, m - 1)
  }

  datatype Civil = Civil(year: nat, month: nat, day: nat, hour: nat, minute: nat, second: nat)

  predicate Valid(c: Civil) {
    && c.year <= 9999 && 1 <= c.month <= 12 && 1 <= c.day <= MonthLength(c.year, c.month)
    && c.hour < 24 && c.minute < 60 && c.second < 60
  }

  function DayNumber(c: Civil): int {
    DaysBefore(c.year) + DaysBeforeMonth(c.year, c.month) + c.day - 1
  }

  function DaySecond(c: Civil): int {
    (c.hour * 60 + c.minute) * 60 + c.second
  }

  /** Seconds since the start of year 0. */
  function Second(c: Civil): int {
    DayNumber(c) * 86400 + DaySecond(c)
  }

  lemma {:induction false} DaysBeforeGrows(y: nat, z: nat)
    requires y < z
    ensures DaysBefore(y) + YearLength(y) <= DaysBefore(z)
  {
    if y + 1 < z {
      DaysBeforeGrows(y, z - 1);
    }
  }

  lemma {:induction false} MonthsGrow(y: nat, m: nat, n: nat)
    requires 1 <= m < n
    ensures DaysBeforeMonth(y, m) + MonthLength(y, m) <= DaysBeforeMonth(y, n)
  {
    if m + 1 < n {
      MonthsGrow(y, m, n - 1);
    }
  }

  lemma MonthsFill(y: nat)
    ensures DaysBeforeMonth(y, 12) + MonthLength(y, 12) == YearLength(y)
  {
    var feb := MonthLength(y, 2);
    assert DaysBeforeMonth(y, 2) == 31;
    assert DaysBeforeMonth(y, 3) == 31 + feb;
    assert DaysBeforeMonth(y, 5) == 31 + feb + 61;
    assert DaysBeforeMonth(y, 7) == 31 + feb + 122;
    assert DaysBeforeMonth(y, 9) == 31 + feb + 184;
    assert DaysBeforeMonth(y, 11) == 31 + feb + 245;
  }

  lemma DayInYear(c: Civil)
    requires Valid(c)
    ensures 0 <= DaysBeforeMonth(c.year, c.month) + c.day - 1 < YearLength(c.year)
  {
    MonthsFill(c.year);
    if c.month < 12 {
      MonthsGrow(c.year, c.month, 12);
    }
  }

  /** The calendar date of an instant. */
  function FindYear(days: nat, y: nat): (r: (nat, nat))
    ensures DaysBefore(r.0) + r.1 == DaysBefore(y) + days && r.1 < YearLength(r.0)
    decreases days
  {
    if days < YearLength(y) then (y, days) else FindYear(days - YearLength(y), y + 1)
  }

  function FindMonth(y: nat, days: nat, m: nat): (r: (nat, nat))
    requires 1 <= m <= 12 && DaysBeforeMonth(y, m) + days < YearLength(y)
    ensures 1 <= r.0 <= 12 && DaysBeforeMonth(y, r.0) + r.1 == DaysBeforeMonth(y, m) + days && r.1 < MonthLength(y, r.0)
    decreases 12 - m
  {
    if days < MonthLength(y, m) then (m, days)
    else
      MonthsFill(y);
      FindMonth(y, days - MonthLength(y, m), m + 1)
  }

  /** The first second of year 10000. */
  ghost function EndOfTime(): nat {
    DaysBefore(10000) * 86400
  }

  ghost predicate InRange(sec: int) {
    0 <= sec < EndOfTime()
  }

  function CivilOf(sec: nat): (c: Civil)
    ensures Second(c) == sec && (InRange(sec) ==> Valid(c))
  {
    var y := FindYear(sec / 86400, 0);
    var m := FindMonth(y.0, y.1, 1);
    var s := sec % 86400;
    DayClock(s);
    YearInRange(sec, y.0, y.1);
    Civil(y.0, m.0, m.1 + 1, s / 3600, s / 60 % 60, s % 60)
  }

  lemma DayClock(s: nat)
    requires s < 86400
    ensures s / 3600 < 24 && (s / 3600 * 60 + s / 60 % 60) * 60 + s % 60 == s
  {
    assert s / 3600 == s / 60 / 60;
  }

  lemma YearInRange(sec: nat, y: nat, d: nat)
    requires DaysBefore(y) + d == sec / 86400
    ensures InRange(sec) ==> y <= 9999
  {
    if 10000 < y {
      DaysBeforeGrows(10000, y);
    }
  }

  /** How many of the years before `y` are multiples of `k`. */
  function Multiples(y: nat, k: nat): nat
    requires k > 0
  {
    (y + k - 1) / k
  }

  lemma EveryFourth(y: nat)
    ensures Multiples(y + 1, 4) == Multiples(y, 4) + if y % 4 == 0 then 1 else 0
  {
    var q := y / 4;
    assert (y + 4) / 4 == q + 1;
    assert (y + 3) / 4 == if y % 4 == 0 then q else q + 1;
  }

  lemma EveryHundredth(y: nat)
    ensures Multiples(y + 1, 100) == Multiples(y, 100) + (if y % 100 == 0 then 1 else 0) && (y % 100 == 0 ==> y % 4 == 0)
  {
    var q := y / 100;
    assert (y + 100) / 100 == q + 1;
    assert (y + 99) / 100 == if y % 100 == 0 then q else q + 1;
    assert y % 100 == 0 ==> y == 4 * (25 * q);
  }

  lemma EveryFourHundredth(y: nat)
    ensures Multiples(y + 1, 400) == Multiples(y, 400) + (if y % 400 == 0 then 1 else 0) && (y % 400 == 0 ==> y % 100 == 0)
  {
    var q := y / 400;
    assert (y + 400) / 400 == q + 1;
    assert (y + 399) / 400 == if y % 400 == 0 then q else q + 1;
    assert y % 400 == 0 ==> y == 100 * (4 * q);
  }

  /** The Gregorian count of days in closed form. */
  lemma {:induction false} DaysClosed(y: nat)
    ensures DaysBefore(y) == 365 * y + Multiples(y, 4) - Multiples(y, 100) + Multiples(y, 400)
  {
    hide Multiples;
    if y > 0 {
      DaysClosed(y - 1);
      EveryFourth(y - 1);
      EveryHundredth(y - 1);
      EveryFourHundredth(y - 1);
    } else {
      NoYears();
    }
  }

  lemma NoYears()
    ensures Multiples(0, 4) == Multiples(0, 100) == Multiples(0, 400) == 0
  {
  }

  /** Two moments by their Unix time: the epoch, and noon of a leap day. */
  lemma CalendarAnchors()
    ensures Second(Civil(1970, 1, 1, 0, 0, 0)) == 62_167_219_200
    ensures Valid(Civil(2024, 2, 29, 12, 0, 0)) && Second(Civil(2024, 2, 29, 12, 0, 0)) == 62_167_219_200 + 1_709_208_000
    ensures !Valid(Civil(2023, 2, 29, 12, 0, 0)) && !Valid(Civil(1900, 2, 29, 12, 0, 0))
  {
    DaysClosed(1970);
    DaysClosed(2024);
    hide DaysBefore;
    assert DaysBeforeMonth(2024, 2) == 31;
  }

  // ------------------------------------------------------------ string order

  /** Bytewise order, as SQLite compares text. */
  predicate Less(s: string, t: string) {
    t != "" && (s == "" || s[0] < t[0] || (s[0] == t[0] && Less(s[1..], t[1..])))
  }

  lemma {:induction false} LessConcat(a: string, b: string, x: string, y: string)
    requires |a| == |b|
    ensures Less(a + x, b + y) <==> Less(a, b) || (a == b && Less(x, y))
  {
    if a == "" {
      assert a + x == x && b + y == y;
    } else {
      assert (a + x)[1..] == a[1..] + x && (b + y)[1..] == b[1..] + y;
      LessConcat(a[1..], b[1..], x, y);
      assert a == [a[0]] + a[1..] && b == [b[0]] + b[1..];
    }
  }

  function Pow10(w: nat): nat {
    if w == 0 then 1 else 10 * Pow10(w - 1)
  }

  /** Zero-padded decimal of fixed width. */
  function Pad(n: nat, w: nat): (s: string)
    ensures |s| == w
  {
    if w == 0 then "" else Pad(n / 10, w - 1) + [('0' as int + n % 10) as char]
  }

  lemma {:induction false} PadOrder(m: nat, n: nat, w: nat)
    requires m < Pow10(w) && n < Pow10(w)
    ensures Less(Pad(m, w), Pad(n, w)) <==> m < n
    ensures Pad(m, w) == Pad(n, w) <==> m == n
  {
    if w > 0 {
      var a, b := Pad(m / 10, w - 1), Pad(n / 10, w - 1);
      var x, y := [('0' as int + m % 10) as char], [('0' as int + n % 10) as char];
      PadOrder(m / 10, n / 10, w - 1);
      LessConcat(a, b, x, y);
      assert a == (a + x)[..w - 1] && b == (b + y)[..w - 1] && x[0] == (a + x)[w - 1] && y[0] == (b + y)[w - 1];
      assert Less(x, y) <==> x[0] < y[0];
    }
  }

  /** One padded number and a separator before the rest. */
  lemma FieldOrder(m: nat, n: nat, w: nat, x: string, y: string)
    requires m < Pow10(w) && n < Pow10(w)
    ensures Less(Pad(m, w) + x, Pad(n, w) + y) <==> m < n || (m == n && Less(x, y))
  {
    PadOrder(m, n, w);
    LessConcat(Pad(m, w), Pad(n, w), x, y);
  }

  lemma SameHead(c: char, x: string, y: string)
    ensures Less([c] + x, [c] + y) <==> Less(x, y)
  {
    assert ([c] + x)[1..] == x && ([c] + y)[1..] == y;
  }

  /** "YYYY-MM-DDTHH:MM:SS", followed by a tail. */
  function Stamp(c: Civil, tail: string): string {
    Pad(c.year, 4) + (['-'] + (Pad(c.month, 2) + (['-'] + (Pad(c.day, 2) + (['T'] + ClockText(c, tail))))))
  }

  function ClockText(c: Civil, tail: string): string {
    Pad(c.hour, 2) + ([':'] + (Pad(c.minute, 2) + ([':'] + (Pad(c.second, 2) + tail))))
  }

  predicate Earlier(c: Civil, d: Civil) {
    EarlierDay(c, d) || (SameDay(c, d) && EarlierClock(c, d))
  }

  predicate EarlierDay(c: Civil, d: Civil) {
    c.year < d.year || (c.year == d.year && (c.month < d.month || (c.month == d.month && c.day < d.day)))
  }

  predicate SameDay(c: Civil, d: Civil) {
    c.year == d.year && c.month == d.month && c.day == d.day
  }

  predicate EarlierClock(c: Civil, d: Civil) {
    c.hour < d.hour || (c.hour == d.hour && (c.minute < d.minute || (c.minute == d.minute && c.second < d.second)))
  }

  lemma ClockOrder(c: Civil, d: Civil, x: string, y: string)
    requires Valid(c) && Valid(d)
    ensures Less(ClockText(c, x), ClockText(d, y)) <==>
            EarlierClock(c, d) || (c.hour == d.hour && c.minute == d.minute && c.second == d.second && Less(x, y))
  {
    hide Less, Pad;
    assert Pow10(2) == 100;
    var cs, ds := Pad(c.second, 2) + x, Pad(d.second, 2) + y;
    var cm, dm := Pad(c.minute, 2) + ([':'] + cs), Pad(d.minute, 2) + ([':'] + ds);
    FieldOrder(c.second, d.second, 2, x, y);
    SameHead(':', cs, ds);
    FieldOrder(c.minute, d.minute, 2, [':'] + cs, [':'] + ds);
    SameHead(':', cm, dm);
    FieldOrder(c.hour, d.hour, 2, [':'] + cm, [':'] + dm);
  }

  /** Stamps compare as the dates they spell, then as their tails. */
  lemma StampOrder(c: Civil, d: Civil, x: string, y: string)
    requires Valid(c) && Valid(d)
    ensures Less(Stamp(c, x), Stamp(d, y)) <==> Earlier(c, d) || (c == d && Less(x, y))
  {
    hide Less, Pad, ClockText;
    assert Pow10(2) == 100 && Pow10(4) == 10000;
    var ct, dt := ClockText(c, x), ClockText(d, y);
    var cd, dd := Pad(c.day, 2) + (['T'] + ct), Pad(d.day, 2) + (['T'] + dt);
    var cm, dm := Pad(c.month, 2) + (['-'] + cd), Pad(d.month, 2) + (['-'] + dd);
    assert c.day <= 31 && d.day <= 31;
    ClockOrder(c, d, x, y);
    SameHead('T', ct, dt);
    FieldOrder(c.day, d.day, 2, ['T'] + ct, ['T'] + dt);
    SameHead('-', cd, dd);
    FieldOrder(c.month, d.month, 2, ['-'] + cd, ['-'] + dd);
    SameHead('-', cm, dm);
    FieldOrder(c.year, d.year, 4, ['-'] + cm, ['-'] + dm);
  }

  lemma DayOrder(c: Civil, d: Civil)
    requires Valid(c) && Valid(d) && EarlierDay(c, d)
    ensures DayNumber(c) < DayNumber(d)
  {
    if c.year < d.year {
      DaysBeforeGrows(c.year, d.year);
      DayInYear(c);
    } else if c.month < d.month {
      MonthsGrow(c.year, c.month, d.month);
    }
  }

  lemma EarlierIsLess(c: Civil, d: Civil)
    requires Valid(c) && Valid(d) && Earlier(c, d)
    ensures Second(c) < Second(d)
  {
    if EarlierDay(c, d) {
      DayOrder(c, d);
    }
  }

  /** Calendar order is time order. */
  lemma CivilOrder(c: Civil, d: Civil)
    requires Valid(c) && Valid(d)
    ensures Earlier(c, d) <==> Second(c) < Second(d)
    ensures c == d <==> Second(c) == Second(d)
  {
    if Earlier(c, d) {
      EarlierIsLess(c, d);
    } else if Earlier(d, c) {
      EarlierIsLess(d, c);
    } else {
      assert c == d;
    }
  }

  // ---------------------------------------------------------- the two formats

  const SECOND := 1_000_000_000
  const MILLI := 1_000_000

  /** RFC 3339 with whole seconds. */
  function Rfc3339(t: nat): string {
    Stamp(CivilOf(t / SECOND), "Z")
  }

  /** SQLite's %Y-%m-%dT%H:%M:%fZ, with milliseconds. */
  function SqlStamp(t: nat): string {
    Stamp(CivilOf(t / SECOND), ['.'] + (Pad(t / MILLI % 1000, 3) + "Z"))
  }

  ghost predicate Dated(t: int) {
    0 <= t && InRange(t / SECOND)
  }

  /** Whole-second stamps order as the seconds they fall into. */
  lemma Rfc3339Order(t: nat, u: nat)
    requires Dated(t) && Dated(u)
    ensures Less(Rfc3339(t), Rfc3339(u)) <==> t / SECOND < u / SECOND
  {
    hide CivilOf, Less, Stamp, Second, Earlier, InRange;
    StampOrder(CivilOf(t / SECOND), CivilOf(u / SECOND), "Z", "Z");
    CivilOrder(CivilOf(t / SECOND), CivilOf(u / SECOND));
    SameTail();
  }

  lemma SameTail()
    ensures !Less("Z", "Z")
  {
  }

  /** A millisecond stamp is before a whole-second one exactly when its second is
      not later: the point sorts before the Z. */
  lemma SqlStampOrder(t: nat, u: nat)
    requires Dated(t) && Dated(u)
    ensures Less(SqlStamp(t), Rfc3339(u)) <==> t / SECOND <= u / SECOND
  {
    var tail := ['.'] + (Pad(t / MILLI % 1000, 3) + "Z");
    assert Less(tail, "Z");
    hide CivilOf, Less, Stamp, Second, Earlier, InRange, Pad;
    StampOrder(CivilOf(t / SECOND), CivilOf(u / SECOND), tail, "Z");
    CivilOrder(CivilOf(t / SECOND), CivilOf(u / SECOND));
  }

  // ------------------------------------------------------------ reading back

  predicate Numeric(s: string) {
    forall i | 0 <= i < |s| :: '0' <= s[i] <= '9'
  }

  /** A numeral, most significant digit first. */
  function Number(s: string): nat
    requires Numeric(s)
  {
    if s == "" then 0 else 10 * Number(s[..|s| - 1]) + (s[|s| - 1] as int - '0' as int)
  }

  lemma {:induction false} PadBack(n: nat, w: nat)
    requires n < Pow10(w)
    ensures Numeric(Pad(n, w)) && Number(Pad(n, w)) == n
  {
    if w > 0 {
      PadBack(n / 10, w - 1);
      var s := Pad(n, w);
      assert s[..w - 1] == Pad(n / 10, w - 1);
    }
  }

  /** Reads YYYY-MM-DDTHH:MM:SS and hands on what follows. */
  function ParseStamp(s: string): Option<(Civil, string)> {
    if |s| >= 19 && s[4] == '-' && s[7] == '-' && s[10] == 'T' && s[13] == ':' && s[16] == ':'
       && Numeric(s[0..4]) && Numeric(s[5..7]) && Numeric(s[8..10]) && Numeric(s[11..13]) && Numeric(s[14..16]) && Numeric(s[17..19])
    then
      var c := Civil(Number(s[0..4]), Number(s[5..7]), Number(s[8..10]), Number(s[11..13]), Number(s[14..16]), Number(s[17..19]));
      Some((c, s[19..]))
    else None
  }

  /** Where the parts of a stamp stand. */
  lemma StampParts(c: Civil, tail: string)
    ensures
      var s := Stamp(c, tail);
      && |s| == 19 + |tail| && s[4] == '-' && s[7] == '-' && s[10] == 'T' && s[13] == ':' && s[16] == ':'
      && s[0..4] == Pad(c.year, 4) && s[5..7] == Pad(c.month, 2) && s[8..10] == Pad(c.day, 2)
      && s[11..13] == Pad(c.hour, 2) && s[14..16] == Pad(c.minute, 2) && s[17..19] == Pad(c.second, 2) && s[19..] == tail
  {
    hide Pad;
    var s, t := Stamp(c, tail), ClockText(c, tail);
    assert s[11..] == t;
    assert t[..2] == Pad(c.hour, 2) && t[3..5] == Pad(c.minute, 2) && t[6..8] == Pad(c.second, 2) && t[8..] == tail;
    assert t[2] == ':' && t[5] == ':';
    hide ClockText;
    assert s[0..4] == Pad(c.year, 4) && s[5..7] == Pad(c.month, 2) && s[8..10] == Pad(c.day, 2);
    assert s[11..13] == t[..2] && s[14..16] == t[3..5] && s[17..19] == t[6..8] && s[19..] == t[8..];
    assert s[13] == t[2] && s[16] == t[5];
  }

  /** A stamp reads back as the date it spells. */
  lemma StampBack(c: Civil, tail: string)
    requires Valid(c)
    ensures ParseStamp(Stamp(c, tail)) == Some((c, tail))
  {
    assert Pow10(2) == 100 && Pow10(4) == 10000;
    hide Pad, Stamp, Number, Numeric;
    StampParts(c, tail);
    assert c.day <= 31;
    PadBack(c.year, 4);
    PadBack(c.month, 2);
    PadBack(c.day, 2);
    PadBack(c.hour, 2);
    PadBack(c.minute, 2);
    PadBack(c.second, 2);
  }

  /** The text of an instant is the date and time of its second, by the calendar. */
  lemma Rfc3339Back(t: nat) returns (c: Civil)
    requires Dated(t)
    ensures ParseStamp(Rfc3339(t)) == Some((c, "Z")) && |Rfc3339(t)| == 20
    ensures Valid(c) && Second(c) == t / 1_000_000_000
  {
    hide Stamp, Second, Pad, ParseStamp, InRange, Valid;
    c := CivilOf(t / SECOND);
    assert Valid(c) by { assert InRange(t / SECOND); }
    StampBack(c, "Z");
    StampParts(c, "Z");
  }

  /** And so is the database's, with the millisecond after the point. */
  lemma SqlStampBack(t: nat) returns (c: Civil, millis: string)
    requires Dated(t)
    ensures ParseStamp(SqlStamp(t)) == Some((c, "." + millis + "Z")) && |millis| == 3
    ensures Valid(c) && Second(c) == t / 1_000_000_000
    ensures Numeric(millis) && Number(millis) == t / 1_000_000 % 1000
  {
    assert Pow10(3) == 1000;
    hide Stamp, Second, Pad, ParseStamp, InRange, Valid, Number, Numeric;
    c, millis := CivilOf(t / SECOND), Pad(t / MILLI % 1000, 3);
    assert Valid(c) by { assert InRange(t / SECOND); }
    PadBack(t / MILLI % 1000, 3);
    var tail := ['.'] + (millis + "Z");
    assert tail == "." + millis + "Z";
    StampBack(c, tail);
  }

  // ------------------------------------------------------- expiry and staleness

  /** The TTL policy: a default for requests without one, a cap on all. */
  method ExpiresAtFor(requested: int, defaultTTL: int, maxTTL: int, now: nat) returns (text: string)
    ensures requested <= 0 && defaultTTL <= 0 ==> text == ""
    ensures requested <= 0 < defaultTTL ==> text == Rfc3339(now + if 0 < maxTTL < defaultTTL then maxTTL else defaultTTL)
    ensures requested > 0 && (maxTTL <= 0 || requested <= maxTTL) ==> text == Rfc3339(now + requested)
    ensures requested > maxTTL > 0 ==> text == Rfc3339(now + maxTTL)
  {
    hide Rfc3339;
    var ttl := requested;
    if ttl <= 0 && defaultTTL > 0 {
      ttl := defaultTTL;
    }
    if maxTTL > 0 && ttl > maxTTL {
      ttl := maxTTL;
    }
    text := if ttl <= 0 then "" else Rfc3339(now + ttl);
  }

  /** The condition of the expiry listing. */
  predicate ListedExpired(expiresAt: string, now: nat) {
    expiresAt != "" && Less(expiresAt, Rfc3339(now))
  }

  /** Never listed before its expiry, always from one second after. */
  lemma ExpiryListing(expiry: nat, now: nat)
    requires Dated(expiry) && Dated(now)
    ensures ListedExpired(Rfc3339(expiry), now) <==> expiry / SECOND < now / SECOND
    ensures now <= expiry ==> !ListedExpired(Rfc3339(expiry), now)
    ensures now >= expiry + SECOND ==> ListedExpired(Rfc3339(expiry), now)
  {
    hide Less, InRange, CivilOf;
    Rfc3339Order(expiry, now);
    StampNotEmpty(CivilOf(expiry / SECOND), "Z");
  }

  lemma StampNotEmpty(c: Civil, tail: string)
    ensures Stamp(c, tail) != ""
  {
  }

  /** The condition of the stuck-row listing: the row's last update against now
      less the timeout. */
  predicate ListedStuck(updatedAt: string, now: nat, timeout: nat)
    requires timeout <= now
  {
    Less(updatedAt, Rfc3339(now - timeout))
  }

  /** Every row at least the timeout old is listed, and no row younger than the
      timeout less one second. */
  lemma StuckListing(updated: nat, now: nat, timeout: nat)
    requires timeout <= now && Dated(updated) && Dated(now - timeout)
    ensures ListedStuck(SqlStamp(updated), now, timeout) <==> updated / SECOND <= (now - timeout) / SECOND
    ensures now - updated >= timeout ==> ListedStuck(SqlStamp(updated), now, timeout)
    ensures now - updated <= timeout - SECOND ==> !ListedStuck(SqlStamp(updated), now, timeout)
  {
    hide Less, InRange, CivilOf;
    SqlStampOrder(updated, now - timeout);
  }

  /** A row may be listed although it is younger than the timeout. */
  lemma StuckEarly()
    ensures exists updated: nat, now: nat, timeout: nat ::
      timeout <= now && now - updated < timeout && Dated(updated) && Dated(now - timeout)
      && ListedStuck(SqlStamp(updated), now, timeout)
  {
    var updated, now, timeout := 1_900_000_000, 61_000_000_000, 60_000_000_000;
    assert DaysBefore(10000) > 0;
    assert EndOfTime() >= 86400;
    hide DaysBefore, Less, CivilOf;
    StuckListing(updated, now, timeout);
  }
}
