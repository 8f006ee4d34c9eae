/** The duration formatter: `format_to_hms` and `readable_duration`. */
module Duration {

  import opened Wrappers
  import opened Text
  import opened Locale

  const SecondsPerYear := 31536000
  const SecondsPerMonth := 2592000
  const SecondsPerDay := 86400
  const SecondsPerHour := 3600
  const SecondsPerMinute := 60

  /** The components of a duration after the cascade of divisions. */
  datatype Parts = Parts(years: nat, months: nat, days: nat, hours: nat, minutes: nat, seconds: nat)

  function TotalSeconds(p: Parts): nat {
    p.years * SecondsPerYear + p.months * SecondsPerMonth + p.days * SecondsPerDay
    + p.hours * SecondsPerHour + p.minutes * SecondsPerMinute + p.seconds
  }

  /** The cascade of `divmod`s: a 365-day year, a 30-day month, then days,
      hours and minutes, each taken from the remainder of the previous one.
      The components add back up to the input, and each lower one is bounded. */
  function Breakdown(n: nat): (p: Parts)
    ensures TotalSeconds(p) == n
    ensures p.months <= 12 && p.days < 30 && p.hours < 24 && p.minutes < 60 && p.seconds < 60
  {
    var years, inYear := n / SecondsPerYear, n % SecondsPerYear;
    var months, inMonth := inYear / SecondsPerMonth, inYear % SecondsPerMonth;
    var days, inDay := inMonth / SecondsPerDay, inMonth % SecondsPerDay;
    var hours, inHour := inDay / SecondsPerHour, inDay % SecondsPerHour;
    var minutes, seconds := inHour / SecondsPerMinute, inHour % SecondsPerMinute;
    Parts(years, months, days, hours, minutes, seconds)
  }

  /** `format_to_hms`: "HhMMmSSs" with seconds, "HhMM" without.  It opens
      with the hours' digits, and without seconds it ends on the minutes'
      digits: there is no trailing "m". */
  function FormatToHms(hours: nat, minutes: nat, seconds: nat, displaySeconds: bool): (r: string)
    ensures |r| > 0 && IsDigit(r[0])
    ensures displaySeconds ==> r[|r| - 1] == 's'
    ensures !displaySeconds ==> IsDigit(r[|r| - 1])
  {
    NatToStringDigits(hours);
    ZeroPad2Digits(minutes);
    var head := NatToString(hours) + "h" + ZeroPad2(minutes);
    assert head[0] == NatToString(hours)[0];
    assert head[|head| - 1] == ZeroPad2(minutes)[|ZeroPad2(minutes)| - 1];
    if displaySeconds then head + "m" + ZeroPad2(seconds) + "s" else head
  }

  /** One "<k> <unit>, " clause, dropped when k is zero. */
  function UnitClause(k: nat, word: string): string {
    if k > 0 then NatToString(k) + " " + word + ", " else ""
  }

  /** The three calendar unit words of one language. */
  datatype Units = Units(years: string, months: string, days: string)

  function UnitsOf(lang: Lang): (u: Units)
    ensures Distinguishable(u)
  {
    UnitWordsDistinct(lang);
    UnitWordsFree(lang);
    Units(Tr(Years, lang), Tr(Months, lang), Tr(Days, lang))
  }

  /** Non-empty unit words with pairwise different first letters. */
  predicate Distinguishable(u: Units) {
    && |u.years| > 0 && |u.months| > 0 && |u.days| > 0
    && u.years[0] != u.months[0] && u.years[0] != u.days[0] && u.months[0] != u.days[0]
    && Free(u.years, ' ') && Free(u.months, ' ') && Free(u.days, ' ')
  }

  /** The clauses of a broken-down duration: the non-zero year, month and day
      clauses in that order, then the hours/minutes(/seconds) clause. */
  function PartsText(p: Parts, u: Units, displaySeconds: bool): string {
    UnitClause(p.years, u.years)
    + (UnitClause(p.months, u.months)
       + (UnitClause(p.days, u.days) + FormatToHms(p.hours, p.minutes, p.seconds, displaySeconds)))
  }

  /** What `readable_duration` returns. */
  function DurationText(n: nat, lang: Lang, displaySeconds: bool): (r: string)
    ensures |r| > 0
  {
    PartsText(Breakdown(n), UnitsOf(lang), displaySeconds)
  }

  /** `readable_duration`: builds the list of clauses and joins its non-empty
      members. */
  method ReadableDuration(seconds: nat, lang: Lang, displaySeconds: bool) returns (s: string)
    ensures s == DurationText(seconds, lang, displaySeconds)
  {
    var years, remainingInYear := seconds / SecondsPerYear, seconds % SecondsPerYear;
    var months, remainingInMonth := remainingInYear / SecondsPerMonth, remainingInYear % SecondsPerMonth;
    var days, remainingInDay := remainingInMonth / SecondsPerDay, remainingInMonth % SecondsPerDay;
    var hours, remainingInHour := remainingInDay / SecondsPerHour, remainingInDay % SecondsPerHour;
    var minutes, remaining := remainingInHour / SecondsPerMinute, remainingInHour % SecondsPerMinute;

    var timeString: seq<string> := [];
    if years > 0 {
      var clause := NatToString(years) + " " + Tr(Years, lang);
      ConcatSnoc2(timeString, clause, ", ");
      timeString := timeString + [clause];
      timeString := timeString + [", "];
    }
    ghost var upToYears := Concat(timeString);
    assert upToYears == UnitClause(years, Tr(Years, lang));
    if months > 0 {
      var clause := NatToString(months) + " " + Tr(Months, lang);
      ConcatSnoc2(timeString, clause, ", ");
      timeString := timeString + [clause];
      timeString := timeString + [", "];
    }
    ghost var upToMonths := Concat(timeString);
    assert upToMonths == upToYears + UnitClause(months, Tr(Months, lang));
    if days > 0 {
      var clause := NatToString(days) + " " + Tr(Days, lang);
      ConcatSnoc2(timeString, clause, ", ");
      timeString := timeString + [clause];
      timeString := timeString + [", "];
    }
    assert Concat(timeString) == upToMonths + UnitClause(days, Tr(Days, lang));
    var hms := FormatToHms(hours, minutes, remaining, displaySeconds);
    ConcatSnoc(timeString, hms);
    timeString := timeString + [hms];
    Regroup(UnitClause(years, Tr(Years, lang)), UnitClause(months, Tr(Months, lang)),
            UnitClause(days, Tr(Days, lang)), hms);
    assert Breakdown(seconds) == Parts(years, months, days, hours, minutes, remaining);

    s := ConcatNonEmpty(timeString);
    ConcatNonEmptyIsConcat(timeString);
  }

  /** Concatenation regrouped from the left to the right. */
  lemma Regroup(a: string, b: string, c: string, d: string)
    ensures a + b + c + d == a + (b + (c + d))
  {
  }

  // ---------------------------------------------------------------------------
  // Reading a rendered duration back.

  /** The single-space separated words of a unit clause: the count, then the
      unit word with its comma; none when the count is zero. */
  function UnitTokens(k: nat, word: string): seq<string> {
    if k > 0 then [NatToString(k), word + ","] else []
  }

  /** The single-space separated words of a rendered breakdown; the
      hours/minutes(/seconds) clause is the last one. */
  function Tokens(p: Parts, u: Units, displaySeconds: bool): seq<string> {
    UnitTokens(p.years, u.years)
    + (UnitTokens(p.months, u.months)
       + (UnitTokens(p.days, u.days) + [FormatToHms(p.hours, p.minutes, p.seconds, displaySeconds)]))
  }

  /** A count: a word made of digits only. */
  function NumberToken(t: string): Option<nat> {
    match ReadNat(t)
    case Some(read) => if read.1 == [] then Some(read.0) else None
    case None => None
  }

  /** The length in seconds of the calendar unit a "<word>," names. */
  function UnitToken(t: string, u: Units): Option<nat> {
    if t == u.years + "," then Some(SecondsPerYear)
    else if t == u.months + "," then Some(SecondsPerMonth)
    else if t == u.days + "," then Some(SecondsPerDay)
    else None
  }

  function Scaled(k: nat, unit: nat, rest: Option<nat>): Option<nat> {
    match rest
    case None => None
    case Some(t) => Some(k * unit + t)
  }

  /** Reads "h<MM>" (and "m<SS>s" when seconds are shown) after the hour count. */
  function ParseHms(hours: nat, s: string, displaySeconds: bool): Option<nat> {
    if |s| == 0 || s[0] != 'h' then None
    else AfterMinutes(hours * SecondsPerHour, ReadNat(s[1..]), displaySeconds)
  }

  function AfterMinutes(base: nat, minutes: Option<(nat, string)>, displaySeconds: bool): Option<nat> {
    match minutes
    case None => None
    case Some(read) =>
      var total := base + read.0 * SecondsPerMinute;
      if !displaySeconds then (if read.1 == [] then Some(total) else None)
      else if |read.1| == 0 || read.1[0] != 'm' then None
      else AfterSeconds(total, ReadNat(read.1[1..]))
  }

  function AfterSeconds(base: nat, seconds: Option<(nat, string)>): Option<nat> {
    match seconds
    case None => None
    case Some(read) => if read.1 == "s" then Some(base + read.0) else None
  }

  /** Reads the hours/minutes(/seconds) word. */
  function HmsToken(t: string, displaySeconds: bool): Option<nat> {
    match ReadNat(t)
    case Some(read) => ParseHms(read.0, read.1, displaySeconds)
    case None => None
  }

  /** Reads a sequence of words: count/unit pairs, then the hours word. */
  function ParseTokens(ts: seq<string>, u: Units, displaySeconds: bool): Option<nat>
    decreases |ts|
  {
    if |ts| == 1 then HmsToken(ts[0], displaySeconds)
    else if |ts| < 3 then None
    else
      match NumberToken(ts[0])
      case None => None
      case Some(k) =>
        match UnitToken(ts[1], u)
        case None => None
        case Some(unit) => Scaled(k, unit, ParseTokens(ts[2..], u, displaySeconds))
  }

  /** Reads a rendered duration back into a number of seconds. */
  function ParseDuration(s: string, u: Units, displaySeconds: bool): Option<nat> {
    ParseTokens(Split(s, ' '), u, displaySeconds)
  }

  lemma ParseHmsOf(h: nat, m: nat, sec: nat, r: string, rest: string, displaySeconds: bool)
    requires r == if displaySeconds then "m" + (ZeroPad2(sec) + "s") else ""
    requires rest == "h" + (ZeroPad2(m) + r)
    ensures ParseHms(h, rest, displaySeconds)
         == Some(h * SecondsPerHour + m * SecondsPerMinute + (if displaySeconds then sec else 0))
  {
    assert rest[1..] == ZeroPad2(m) + r;
    ReadZeroPad2(m, r);
    assert ParseHms(h, rest, displaySeconds) == AfterMinutes(h * SecondsPerHour, Some((m, r)), displaySeconds);
    if displaySeconds {
      AfterMinutesSeconds(h * SecondsPerHour, m, sec, r);
    }
  }

  lemma AfterMinutesSeconds(base: nat, m: nat, sec: nat, r: string)
    requires r == "m" + (ZeroPad2(sec) + "s")
    ensures AfterMinutes(base, Some((m, r)), true) == Some(base + m * SecondsPerMinute + sec)
  {
    assert r[0] == 'm' && r[1..] == ZeroPad2(sec) + "s";
    ReadZeroPad2(sec, "s");
  }

  /** The seconds the hours/minutes(/seconds) clause of p shows. */
  function HmsSeconds(p: Parts, displaySeconds: bool): nat {
    p.hours * SecondsPerHour + p.minutes * SecondsPerMinute + (if displaySeconds then p.seconds else 0)
  }

  /** The hours/minutes(/seconds) clause reads back to the seconds it shows. */
  lemma HmsTokenOf(p: Parts, displaySeconds: bool)
    ensures HmsToken(FormatToHms(p.hours, p.minutes, p.seconds, displaySeconds), displaySeconds)
         == Some(HmsSeconds(p, displaySeconds))
  {
    var r := if displaySeconds then "m" + (ZeroPad2(p.seconds) + "s") else "";
    var rest := "h" + (ZeroPad2(p.minutes) + r);
    var t := FormatToHms(p.hours, p.minutes, p.seconds, displaySeconds);
    assert t == NatToString(p.hours) + rest by {
      FormatToHmsRegroup(p.hours, p.minutes, p.seconds, displaySeconds);
    }
    ParseHmsOf(p.hours, p.minutes, p.seconds, r, rest, displaySeconds);
    assert HmsSeconds(p, displaySeconds)
        == p.hours * SecondsPerHour + p.minutes * SecondsPerMinute + (if displaySeconds then p.seconds else 0);
    HmsTokenFirst(t, p.hours, rest, HmsSeconds(p, displaySeconds), displaySeconds);
  }

  lemma FormatToHmsRegroup(h: nat, m: nat, sec: nat, displaySeconds: bool)
    ensures FormatToHms(h, m, sec, displaySeconds)
         == NatToString(h) + ("h" + (ZeroPad2(m) + (if displaySeconds then "m" + (ZeroPad2(sec) + "s") else "")))
  {
    if displaySeconds {
      Regroup5(NatToString(h), "h", ZeroPad2(m), "m", ZeroPad2(sec), "s");
    } else {
      assert ZeroPad2(m) + "" == ZeroPad2(m);
    }
  }

  lemma Regroup5(a: string, b: string, c: string, d: string, e: string, f: string)
    ensures a + b + c + d + e + f == a + (b + (c + (d + (e + f))))
  {
  }

  lemma HmsTokenFirst(t: string, h: nat, rest: string, x: nat, displaySeconds: bool)
    requires t == NatToString(h) + rest
    requires |rest| > 0 && rest[0] == 'h'
    requires ParseHms(h, rest, displaySeconds) == Some(x)
    ensures HmsToken(t, displaySeconds) == Some(x)
  {
    ReadNatToString(h, rest);
  }

  lemma NumberTokenOf(k: nat)
    ensures NumberToken(NatToString(k)) == Some(k)
  {
    ReadNatToString(k, []);
    assert NatToString(k) + [] == NatToString(k);
  }

  /** Each unit word, with its comma, names its own unit. */
  lemma UnitTokenOf(word: string, unitSeconds: nat, u: Units)
    requires Distinguishable(u)
    requires (word == u.years && unitSeconds == SecondsPerYear)
          || (word == u.months && unitSeconds == SecondsPerMonth)
          || (word == u.days && unitSeconds == SecondsPerDay)
    ensures UnitToken(word + ",", u) == Some(unitSeconds)
  {
    assert (word + ",")[0] == word[0];
    assert (u.years + ",")[0] == u.years[0];
    assert (u.months + ",")[0] == u.months[0];
  }

  /** A unit clause in front of readable words adds its seconds. */
  lemma ParseUnitTokens(ts: seq<string>, k: nat, word: string, unitSeconds: nat, rest: seq<string>,
                        x: nat, y: nat, u: Units, displaySeconds: bool)
    requires Distinguishable(u)
    requires (word == u.years && unitSeconds == SecondsPerYear)
          || (word == u.months && unitSeconds == SecondsPerMonth)
          || (word == u.days && unitSeconds == SecondsPerDay)
    requires ParseTokens(rest, u, displaySeconds) == Some(x)
    requires |rest| > 0
    requires ts == UnitTokens(k, word) + rest
    requires y == k * unitSeconds + x
    ensures ParseTokens(ts, u, displaySeconds) == Some(y)
  {
    if k > 0 {
      NumberTokenOf(k);
      UnitTokenOf(word, unitSeconds, u);
      ParseClauseTokens(ts, NatToString(k), k, word, unitSeconds, rest, x, y, u, displaySeconds);
    } else {
      assert ts == rest;
    }
  }

  lemma ParseClauseTokens(ts: seq<string>, count: string, k: nat, word: string, unitSeconds: nat,
                          rest: seq<string>, x: nat, y: nat, u: Units, displaySeconds: bool)
    requires NumberToken(count) == Some(k)
    requires UnitToken(word + ",", u) == Some(unitSeconds)
    requires ParseTokens(rest, u, displaySeconds) == Some(x)
    requires |rest| > 0
    requires ts == [count, word + ","] + rest
    requires y == k * unitSeconds + x
    ensures ParseTokens(ts, u, displaySeconds) == Some(y)
  {
    ParseClause(count, k, word, unitSeconds, rest, x, u, displaySeconds);
  }

  lemma ParseClause(count: string, k: nat, word: string, unitSeconds: nat, rest: seq<string>, x: nat,
                    u: Units, displaySeconds: bool)
    requires NumberToken(count) == Some(k)
    requires UnitToken(word + ",", u) == Some(unitSeconds)
    requires ParseTokens(rest, u, displaySeconds) == Some(x)
    requires |rest| > 0
    ensures ParseTokens([count, word + ","] + rest, u, displaySeconds) == Some(k * unitSeconds + x)
  {
    var ts := [count, word + ","] + rest;
    assert ts[0] == count && ts[1] == word + "," && ts[2..] == rest;
  }

  /** The seconds the clauses from the day clause on show. */
  function FromDaysSeconds(p: Parts, displaySeconds: bool): nat {
    p.days * SecondsPerDay + HmsSeconds(p, displaySeconds)
  }

  /** The seconds the clauses from the month clause on show. */
  function FromMonthsSeconds(p: Parts, displaySeconds: bool): nat {
    p.months * SecondsPerMonth + FromDaysSeconds(p, displaySeconds)
  }

  /** The seconds the whole rendering of p shows. */
  function ShownSeconds(p: Parts, displaySeconds: bool): nat {
    p.years * SecondsPerYear + FromMonthsSeconds(p, displaySeconds)
  }

  /** What is shown is all of p, less its seconds when those are hidden. */
  lemma ShownSecondsTotal(p: Parts, displaySeconds: bool)
    ensures ShownSeconds(p, displaySeconds) == TotalSeconds(p) - (if displaySeconds then 0 else p.seconds)
  {
  }

  lemma ParseLastToken(t: string, x: nat, u: Units, displaySeconds: bool)
    requires HmsToken(t, displaySeconds) == Some(x)
    ensures ParseTokens([t], u, displaySeconds) == Some(x)
  {
  }

  /** The words of a rendered breakdown read back to the seconds it shows. */
  lemma ParseTokensOf(p: Parts, u: Units, displaySeconds: bool)
    requires Distinguishable(u)
    ensures ParseTokens(Tokens(p, u, displaySeconds), u, displaySeconds) == Some(ShownSeconds(p, displaySeconds))
  {
    var hms := [FormatToHms(p.hours, p.minutes, p.seconds, displaySeconds)];
    HmsTokenOf(p, displaySeconds);
    ParseLastToken(hms[0], HmsSeconds(p, displaySeconds), u, displaySeconds);
    var fromDays := UnitTokens(p.days, u.days) + hms;
    ParseUnitTokens(fromDays, p.days, u.days, SecondsPerDay, hms, HmsSeconds(p, displaySeconds),
                    FromDaysSeconds(p, displaySeconds), u, displaySeconds);
    var fromMonths := UnitTokens(p.months, u.months) + fromDays;
    ParseUnitTokens(fromMonths, p.months, u.months, SecondsPerMonth, fromDays, FromDaysSeconds(p, displaySeconds),
                    FromMonthsSeconds(p, displaySeconds), u, displaySeconds);
    ParseUnitTokens(Tokens(p, u, displaySeconds), p.years, u.years, SecondsPerYear, fromMonths,
                    FromMonthsSeconds(p, displaySeconds), ShownSeconds(p, displaySeconds), u, displaySeconds);
  }

  /** Joining a unit clause's words and the following words with single
      spaces gives the clause in front of the joined rest. */
  lemma JoinUnitTokens(k: nat, word: string, rest: seq<string>)
    requires |rest| > 0
    ensures Join(" ", UnitTokens(k, word) + rest) == UnitClause(k, word) + Join(" ", rest)
  {
    if k > 0 {
      JoinClause(NatToString(k), word, rest);
    } else {
      assert UnitTokens(k, word) + rest == rest;
    }
  }

  lemma JoinClause(count: string, word: string, rest: seq<string>)
    requires |rest| > 0
    ensures Join(" ", [count, word + ","] + rest) == (count + " " + word + ", ") + Join(" ", rest)
  {
    var tail := Join(" ", rest);
    assert [count, word + ","] + rest == [count] + ([word + ","] + rest);
    assert Join(" ", [word + ","] + rest) == (word + ",") + " " + tail by {
      JoinCons(" ", word + ",", rest);
    }
    assert Join(" ", [count] + ([word + ","] + rest)) == count + " " + Join(" ", [word + ","] + rest) by {
      JoinCons(" ", count, [word + ","] + rest);
    }
    ClauseRegroup(count, word, tail);
  }

  lemma ClauseRegroup(count: string, word: string, tail: string)
    ensures count + " " + ((word + ",") + " " + tail) == (count + " " + word + ", ") + tail
  {
  }

  /** A rendered breakdown is its words joined with single spaces. */
  lemma PartsTextJoin(p: Parts, u: Units, displaySeconds: bool)
    ensures PartsText(p, u, displaySeconds) == Join(" ", Tokens(p, u, displaySeconds))
  {
    var hms := [FormatToHms(p.hours, p.minutes, p.seconds, displaySeconds)];
    var fromDays := UnitTokens(p.days, u.days) + hms;
    var fromMonths := UnitTokens(p.months, u.months) + fromDays;
    JoinUnitTokens(p.days, u.days, hms);
    JoinUnitTokens(p.months, u.months, fromDays);
    JoinUnitTokens(p.years, u.years, fromMonths);
  }

  lemma FormatToHmsFree(h: nat, m: nat, sec: nat, displaySeconds: bool)
    ensures Free(FormatToHms(h, m, sec, displaySeconds), ' ')
  {
    NatToStringDigits(h);
    ZeroPad2Digits(m);
    ZeroPad2Digits(sec);
  }

  /** No word of a rendered breakdown holds a space. */
  lemma TokensFree(p: Parts, u: Units, displaySeconds: bool)
    requires Distinguishable(u)
    ensures forall i :: 0 <= i < |Tokens(p, u, displaySeconds)| ==> Free(Tokens(p, u, displaySeconds)[i], ' ')
  {
    NatToStringDigits(p.years);
    NatToStringDigits(p.months);
    NatToStringDigits(p.days);
    FormatToHmsFree(p.hours, p.minutes, p.seconds, displaySeconds);
  }

  /** The rendering of any breakdown reads back to the seconds it shows. */
  lemma ParsePartsText(p: Parts, u: Units, displaySeconds: bool)
    requires Distinguishable(u)
    ensures ParseDuration(PartsText(p, u, displaySeconds), u, displaySeconds) == Some(ShownSeconds(p, displaySeconds))
  {
    PartsTextJoin(p, u, displaySeconds);
    TokensFree(p, u, displaySeconds);
    SplitJoin(Tokens(p, u, displaySeconds), ' ');
    ParseTokensOf(p, u, displaySeconds);
  }

  /** Round trip: reading a rendered duration back with the same language's
      unit words gives the input, to the second when seconds are shown and to
      the whole minute when they are not. */
  lemma ParseDurationText(n: nat, lang: Lang, displaySeconds: bool)
    ensures ParseDuration(DurationText(n, lang, displaySeconds), UnitsOf(lang), displaySeconds)
         == Some(if displaySeconds then n else n - n % SecondsPerMinute)
  {
    SecondsAreRemainder(n);
    ParseBreakdownText(n, Breakdown(n), UnitsOf(lang), displaySeconds);
  }

  lemma ParseBreakdownText(n: nat, p: Parts, u: Units, displaySeconds: bool)
    requires Distinguishable(u)
    requires TotalSeconds(p) == n && p.seconds == n % SecondsPerMinute
    ensures ParseDuration(PartsText(p, u, displaySeconds), u, displaySeconds)
         == Some(if displaySeconds then n else n - n % SecondsPerMinute)
  {
    ParsePartsText(p, u, displaySeconds);
    ShownSecondsTotal(p, displaySeconds);
    var shown := ShownSeconds(p, displaySeconds);
    assert shown == if displaySeconds then n else n - n % SecondsPerMinute;
  }

  /** The seconds component is the remainder by 60. */
  lemma SecondsAreRemainder(n: nat)
    ensures Breakdown(n).seconds == n % SecondsPerMinute
  {
    var p := Breakdown(n);
    var q := p.years * 525600 + p.months * 43200 + p.days * 1440 + p.hours * 60 + p.minutes;
    assert n == q * 60 + p.seconds;
  }

  /** Two inputs that render alike are equal when seconds are shown. */
  lemma DurationTextInjective(n: nat, n': nat, lang: Lang)
    requires DurationText(n, lang, true) == DurationText(n', lang, true)
    ensures n == n'
  {
    ParseDurationText(n, lang, true);
    ParseDurationText(n', lang, true);
  }

  /** A zero duration renders as the bare hours/minutes clause. */
  lemma DurationZero(lang: Lang)
    ensures DurationText(0, lang, false) == "0h00"
    ensures DurationText(0, lang, true) == "0h00m00s"
  {
    assert Breakdown(0) == Parts(0, 0, 0, 0, 0, 0);
    assert FormatToHms(0, 0, 0, false) == "0h00";
    assert FormatToHms(0, 0, 0, true) == "0h00m00s";
  }

  /** Below a day no calendar clause appears: the text is the hours clause
      alone. */
  lemma DurationUnderADay(n: nat, lang: Lang, displaySeconds: bool)
    requires n < SecondsPerDay
    ensures DurationText(n, lang, displaySeconds)
            == FormatToHms(n / SecondsPerHour, n % SecondsPerHour / SecondsPerMinute, n % SecondsPerMinute, displaySeconds)
  {
    var p := Breakdown(n);
    assert p.years == 0 && p.months == 0 && p.days == 0;
    assert p.hours == n / SecondsPerHour && p.minutes == n % SecondsPerHour / SecondsPerMinute && p.seconds == n % SecondsPerMinute;
    var hms := FormatToHms(p.hours, p.minutes, p.seconds, displaySeconds);
    assert PartsText(p, UnitsOf(lang), displaySeconds) == "" + ("" + ("" + hms));
  }

  /** A duration under a day given by its hours, minutes and seconds. */
  lemma DurationOfHms(n: nat, lang: Lang, h: nat, m: nat, sec: nat)
    requires n == h * SecondsPerHour + m * SecondsPerMinute + sec
    requires h < 24 && m < 60 && sec < 60
    ensures DurationText(n, lang, false) == FormatToHms(h, m, sec, false)
  {
    var inHour := m * SecondsPerMinute + sec;
    assert n / SecondsPerHour == h && n % SecondsPerHour == inHour;
    assert inHour / SecondsPerMinute == m && n % SecondsPerMinute == sec;
    DurationUnderADay(n, lang, false);
  }

  lemma DurationExamples()
    ensures DurationText(3661, 0, true) == "1h01m01s"
    ensures DurationText(90061, 0, false) == "1 days, 1h01"
    ensures DurationText(5400, 0, false) == "1h30"
  {
    assert Breakdown(3661) == Parts(0, 0, 0, 1, 1, 1);
    assert FormatToHms(1, 1, 1, true) == "1h01m01s";
    assert Breakdown(90061) == Parts(0, 0, 1, 1, 1, 1);
    assert FormatToHms(1, 1, 1, false) == "1h01";
    assert UnitClause(1, Tr(Days, 0)) == "1 days, ";
    assert Breakdown(5400) == Parts(0, 0, 0, 1, 30, 0);
    assert NatToString(30) == "30";
    assert FormatToHms(1, 30, 0, false) == "1h30";
  }
}
