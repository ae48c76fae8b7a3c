/** The ISO-8601 duration parser `parse_iso8601_duration` (src/dategpt/dategpt.py:49-80).

    The source matches the whole string against the pattern

        P(?:(\d+)Y)?(?:(\d+)M)?(?:(\d+)D)?(?:T(?:(\d+)H)?(?:(\d+)M)?(?:(\d+)S)?(?:(\d+)D)?)?

    and converts the captured groups to a number of days plus hours, minutes and seconds.
    Here the pattern is given by `Render`, which spells out the text matched by a choice of
    groups, and the matching is done by a hand-written scanner, `Scan`.  The
    contract of `Scan` and the lemma `ScanComplete` prove that the scanner accepts exactly the
    texts that `Render` produces, and recovers the groups that produced them. */
module Duration {
  import opened Wrappers

  /** `\d`, restricted to ASCII digits. */
  predicate IsDigit(c: char) {
    '0' <= c <= '9'
  }

  predicate AllDigits(s: string) {
    forall i | 0 <= i < |s| :: IsDigit(s[i])
  }

  /** One optional capture group `(?:(\d+)X)?`: absent, or a non-empty run of digits. */
  predicate ValidGroup(g: Option<string>) {
    g.Some? ==> |g.value| > 0 && AllDigits(g.value)
  }

  /** The captures of one match.  `timePart` records whether the optional `T...` part took part. */
  datatype Groups = Groups(
    years: Option<string>, months: Option<string>, days: Option<string>,
    timePart: bool,
    hours: Option<string>, minutes: Option<string>, seconds: Option<string>, extraDays: Option<string>)

  /** The captures a match can have: digit runs, and no time captures without the `T`. */
  predicate ValidGroups(g: Groups) {
    && ValidGroup(g.years) && ValidGroup(g.months) && ValidGroup(g.days)
    && ValidGroup(g.hours) && ValidGroup(g.minutes) && ValidGroup(g.seconds) && ValidGroup(g.extraDays)
    && (!g.timePart ==> g.hours.None? && g.minutes.None? && g.seconds.None? && g.extraDays.None?)
  }

  /** The text of one group `(?:(\d+)X)?`: the digits followed by the designator X, or nothing. */
  function Token(g: Option<string>, designator: char): string {
    match g
    case None => ""
    case Some(digits) => digits + [designator]
  }

  /** The optional time part `(?:T(?:(\d+)H)?(?:(\d+)M)?(?:(\d+)S)?(?:(\d+)D)?)?`. */
  function TimeText(g: Groups): string {
    if g.timePart then
      "T" + (Token(g.hours, 'H') + (Token(g.minutes, 'M') + (Token(g.seconds, 'S') + Token(g.extraDays, 'D'))))
    else
      ""
  }

  /** The text the pattern matches with captures `g`: the grammar, written as a generator. */
  function Render(g: Groups): string {
    "P" + (Token(g.years, 'Y') + (Token(g.months, 'M') + (Token(g.days, 'D') + TimeText(g))))
  }

  /** The strings that fully match the pattern. */
  ghost predicate IsDurationText(s: string) {
    exists g :: ValidGroups(g) && Render(g) == s
  }

  // ---------------------------------------------------------------------------
  // The scanner

  /** Length of the longest run of digits at the start of `s`. */
  function DigitRunLength(s: string): (n: nat)
    ensures n <= |s|
    ensures AllDigits(s[..n])
    ensures n < |s| ==> !IsDigit(s[n])
  {
    if |s| > 0 && IsDigit(s[0]) then
      var n := 1 + DigitRunLength(s[1..]);
      assert s[..n] == [s[0]] + s[1..][..n - 1];
      n
    else
      0
  }

  /** `s` starts with k > 0 digits followed by the designator. */
  predicate GroupAt(s: string, k: int, designator: char) {
    0 < k < |s| && AllDigits(s[..k]) && s[k] == designator
  }

  /** The group `(?:(\d+)X)?` can match a non-empty prefix of `s`. */
  ghost predicate StartsWithGroup(s: string, designator: char) {
    exists k :: GroupAt(s, k, designator)
  }

  /** Matches the optional group `(?:(\d+)X)?` at the start of `s`: returns the captured digits
      (if any) and the rest of the text. */
  function Group(s: string, designator: char): (r: (Option<string>, string))
    ensures ValidGroup(r.0)
    ensures s == Token(r.0, designator) + r.1
  {
    var n := DigitRunLength(s);
    if 0 < n < |s| && s[n] == designator then (Some(s[..n]), s[n + 1..]) else (None, s)
  }

  /** The group is taken exactly when it can match, as the regular expression's optional
      group `(?:(\d+)X)?` is. */
  lemma GroupTakenWhenPossible(s: string, designator: char)
    requires !IsDigit(designator)
    ensures Group(s, designator).0.Some? <==> StartsWithGroup(s, designator)
  {
    var n := DigitRunLength(s);
    if 0 < n < |s| && s[n] == designator {
      assert GroupAt(s, n, designator);
    } else {
      forall k | 0 < k < |s| && AllDigits(s[..k])
        ensures k <= n && (k < n ==> IsDigit(s[k]))
      {
        if k < n {
          assert s[..n][k] == s[k];
        }
      }
    }
  }

  /** `re.fullmatch` of the pattern: the captures, or `None` when the whole string does not match.
      Whatever it accepts is a text of the grammar, and the captures it reports are the ones
      that spell it (the converse is `ScanComplete`). */
  function Scan(s: string): (r: Option<Groups>)
    ensures r.Some? ==> ValidGroups(r.value) && Render(r.value) == s
  {
    if |s| == 0 || s[0] != 'P' then None
    else
      var date := ScanDate(s[1..]);
      var rest := date.3;
      if rest == "" then
        var g := Groups(date.0, date.1, date.2, false, None, None, None, None);
        RenderOfParts(g, s, rest);
        Some(g)
      else if rest[0] != 'T' then
        None
      else
        var time := ScanTime(rest[1..]);
        if time.None? then None
        else
          var g := Groups(date.0, date.1, date.2, true, time.value.0, time.value.1, time.value.2, time.value.3);
          TimeTextOfScan(g, rest);
          RenderOfParts(g, s, rest);
          Some(g)
  }

  /** The text after the date groups is the time part, so the whole text is what `Render` spells. */
  lemma RenderOfParts(g: Groups, s: string, rest: string)
    requires |s| > 0 && s[0] == 'P'
    requires s[1..] == Token(g.years, 'Y') + (Token(g.months, 'M') + (Token(g.days, 'D') + rest))
    requires TimeText(g) == rest
    ensures Render(g) == s
  {
    assert s == "P" + s[1..];
  }

  /** The groups `nY`, `nM`, `nD` after the `P`, and the text that follows them. */
  function ScanDate(s: string): (r: (Option<string>, Option<string>, Option<string>, string))
    ensures ValidGroup(r.0) && ValidGroup(r.1) && ValidGroup(r.2)
    ensures s == Token(r.0, 'Y') + (Token(r.1, 'M') + (Token(r.2, 'D') + r.3))
  {
    var (years, r1) := Group(s, 'Y');
    var (months, r2) := Group(r1, 'M');
    var (days, r3) := Group(r2, 'D');
    (years, months, days, r3)
  }

  /** The groups `nH`, `nM`, `nS`, `nD` after the `T`, which must reach the end of the text. */
  function ScanTime(s: string): (r: Option<(Option<string>, Option<string>, Option<string>, Option<string>)>)
    ensures r.Some? ==> ValidGroup(r.value.0) && ValidGroup(r.value.1) && ValidGroup(r.value.2) && ValidGroup(r.value.3)
    ensures r.Some? ==> s == Token(r.value.0, 'H') + (Token(r.value.1, 'M') + (Token(r.value.2, 'S') + Token(r.value.3, 'D')))
  {
    var (hours, r4) := Group(s, 'H');
    var (minutes, r5) := Group(r4, 'M');
    var (seconds, r6) := Group(r5, 'S');
    var (extraDays, r7) := Group(r6, 'D');
    if r7 == "" then
      assert r6 == Token(extraDays, 'D');
      Some((hours, minutes, seconds, extraDays))
    else
      None
  }

  /** Time groups that spell the text after the `T` make the time part spell the whole of it. */
  lemma TimeTextOfScan(g: Groups, rest: string)
    requires rest != "" && rest[0] == 'T' && g.timePart
    requires rest[1..] == Token(g.hours, 'H') + (Token(g.minutes, 'M') + (Token(g.seconds, 'S') + Token(g.extraDays, 'D')))
    ensures TimeText(g) == rest
  {
    assert rest == "T" + rest[1..];
  }

  /** A group that is present is taken, with exactly its digits. */
  lemma GroupPresent(digits: string, designator: char, rest: string)
    requires |digits| > 0 && AllDigits(digits) && !IsDigit(designator)
    ensures Group(digits + [designator] + rest, designator) == (Some(digits), rest)
  {
    var s := digits + [designator] + rest;
    assert s[..|digits|] == digits;
    assert GroupAt(s, |digits|, designator);
    GroupTakenWhenPossible(s, designator);
    var r := Group(s, designator);
    var taken := r.0.value;
    assert s == taken + [designator] + r.1;
    assert taken == s[..|taken|];
    assert r.1 == s[|taken| + 1..];
  }

  /** A group that is absent is skipped, when the rest of the text cannot start that group. */
  lemma GroupAbsent(designator: char, rest: string)
    requires !IsDigit(designator) && !StartsWithGroup(rest, designator)
    ensures Group(rest, designator) == (None, rest)
  {
    GroupTakenWhenPossible(rest, designator);
  }

  /** No run of digits at the start of `s` reaches past a non-digit at position j. */
  lemma NoDigitRunAcross(s: string, j: nat)
    requires j < |s| && !IsDigit(s[j])
    ensures forall k | j < k <= |s| :: !AllDigits(s[..k])
  {
    forall k | j < k <= |s|
      ensures !AllDigits(s[..k])
    {
      assert s[..k][j] == s[j];
    }
  }

  /** Text that is empty or starts with a non-digit cannot start a group. */
  lemma NoGroupAtNonDigit(s: string, designator: char)
    requires |s| == 0 || !IsDigit(s[0])
    ensures !StartsWithGroup(s, designator)
  {
    if |s| > 0 {
      NoDigitRunAcross(s, 0);
    }
  }

  /** A group with another designator, followed by text that cannot start a `designator` group,
      cannot start one either. */
  lemma NoGroupBehindOther(g: Option<string>, other: char, rest: string, designator: char)
    requires ValidGroup(g) && !IsDigit(other) && !IsDigit(designator) && other != designator
    requires g.None? ==> !StartsWithGroup(rest, designator)
    ensures !StartsWithGroup(Token(g, other) + rest, designator)
  {
    var s := Token(g, other) + rest;
    if g.None? {
      assert s == rest;
    } else {
      var digits := g.value;
      assert s == digits + [other] + rest;
      NoDigitRunAcross(s, |digits|);
    }
  }

  /** The group at the start of `Token(g, designator) + rest` is recognised as `g`. */
  lemma GroupOfToken(g: Option<string>, designator: char, rest: string)
    requires ValidGroup(g) && !IsDigit(designator)
    requires g.None? ==> !StartsWithGroup(rest, designator)
    ensures Group(Token(g, designator) + rest, designator) == (g, rest)
  {
    if g.Some? {
      assert Token(g, designator) + rest == g.value + [designator] + rest;
      GroupPresent(g.value, designator, rest);
    } else {
      assert Token(g, designator) + rest == rest;
      GroupAbsent(designator, rest);
    }
  }

  /** The date groups of a text of the grammar are recognised, and the time part is left over. */
  lemma ScanDateComplete(g: Groups)
    requires ValidGroups(g)
    ensures ScanDate(Render(g)[1..]) == (g.years, g.months, g.days, TimeText(g))
  {
    var time := TimeText(g);
    NoGroupAtNonDigit(time, 'Y');
    NoGroupAtNonDigit(time, 'M');
    NoGroupAtNonDigit(time, 'D');
    var afterMonths := Token(g.days, 'D') + time;
    NoGroupBehindOther(g.days, 'D', time, 'Y');
    NoGroupBehindOther(g.days, 'D', time, 'M');
    var afterYears := Token(g.months, 'M') + afterMonths;
    NoGroupBehindOther(g.months, 'M', afterMonths, 'Y');
    assert Render(g)[1..] == Token(g.years, 'Y') + afterYears;
    GroupOfToken(g.years, 'Y', afterYears);
    GroupOfToken(g.months, 'M', afterMonths);
    GroupOfToken(g.days, 'D', time);
  }

  /** The time groups of a text of the grammar are recognised. */
  lemma ScanTimeComplete(g: Groups)
    requires ValidGroups(g) && g.timePart
    ensures ScanTime(TimeText(g)[1..]) == Some((g.hours, g.minutes, g.seconds, g.extraDays))
  {
    var afterSeconds := Token(g.extraDays, 'D');
    assert afterSeconds == Token(g.extraDays, 'D') + "";
    NoGroupAtNonDigit("", 'D');
    NoGroupAtNonDigit("", 'S');
    NoGroupAtNonDigit("", 'M');
    NoGroupAtNonDigit("", 'H');
    NoGroupBehindOther(g.extraDays, 'D', "", 'S');
    NoGroupBehindOther(g.extraDays, 'D', "", 'M');
    NoGroupBehindOther(g.extraDays, 'D', "", 'H');
    var afterMinutes := Token(g.seconds, 'S') + afterSeconds;
    NoGroupBehindOther(g.seconds, 'S', afterSeconds, 'M');
    NoGroupBehindOther(g.seconds, 'S', afterSeconds, 'H');
    var afterHours := Token(g.minutes, 'M') + afterMinutes;
    NoGroupBehindOther(g.minutes, 'M', afterMinutes, 'H');
    assert TimeText(g)[1..] == Token(g.hours, 'H') + afterHours;
    GroupOfToken(g.hours, 'H', afterHours);
    GroupOfToken(g.minutes, 'M', afterMinutes);
    GroupOfToken(g.seconds, 'S', afterSeconds);
    GroupOfToken(g.extraDays, 'D', "");
  }

  /** A text of the grammar without a time part is accepted with its captures. */
  lemma ScanCompleteDateOnly(g: Groups)
    requires ValidGroups(g) && !g.timePart
    ensures Scan(Render(g)) == Some(g)
  {
    var s := Render(g);
    assert s[0] == 'P';
    ScanDateComplete(g);
    assert ScanDate(s[1..]).3 == "";
  }

  /** A text of the grammar with a time part is accepted with its captures. */
  lemma ScanCompleteWithTime(g: Groups)
    requires ValidGroups(g) && g.timePart
    ensures Scan(Render(g)) == Some(g)
  {
    var s := Render(g);
    assert s[0] == 'P';
    ScanDateComplete(g);
    var rest := ScanDate(s[1..]).3;
    assert rest == TimeText(g);
    assert rest[0] == 'T';
    ScanTimeComplete(g);
    assert ScanTime(rest[1..]) == Some((g.hours, g.minutes, g.seconds, g.extraDays));
  }

  /** Every text of the grammar is accepted, and the scanner recovers the captures that spell it. */
  lemma ScanComplete(g: Groups)
    requires ValidGroups(g)
    ensures Scan(Render(g)) == Some(g)
  {
    if g.timePart {
      ScanCompleteWithTime(g);
    } else {
      ScanCompleteDateOnly(g);
    }
  }

  // ---------------------------------------------------------------------------
  // From captures to a duration

  /** `int(digits)` for a run of ASCII digits (leading zeros allowed). */
  function DecimalValue(digits: string): nat
    requires AllDigits(digits)
  {
    if |digits| == 0 then 0
    else 10 * DecimalValue(digits[..|digits| - 1]) + (digits[|digits| - 1] as int - '0' as int)
  }

  /** Leading zeros do not change the value, as with Python's `int`. */
  lemma {:induction false} DecimalValueLeadingZero(digits: string)
    requires AllDigits(digits)
    ensures AllDigits("0" + digits) && DecimalValue("0" + digits) == DecimalValue(digits)
  {
    if |digits| > 0 {
      var init := digits[..|digits| - 1];
      assert ("0" + digits)[..|digits|] == "0" + init;
      DecimalValueLeadingZero(init);
    }
  }

  /** `int(match.group(name) or 0)`: an absent group counts as zero. */
  function GroupValue(g: Option<string>): nat
    requires ValidGroup(g)
  {
    match g
    case None => 0
    case Some(digits) => DecimalValue(digits)
  }

  /** `days + extra_days + years * 365 + months * 30`: years of 365 days and months of 30 days. */
  function TotalDays(g: Groups): nat
    requires ValidGroups(g)
  {
    GroupValue(g.days) + GroupValue(g.extraDays) + GroupValue(g.years) * 365 + GroupValue(g.months) * 30
  }

  /** The error raised for a text that does not match (Python's `ValueError`, carrying the text). */
  datatype DurationError = InvalidFormat(text: string)

  /** A duration, as its whole number of seconds. */
  type Seconds = int

  /** `parse_iso8601_duration`: the duration the text denotes, or `InvalidFormat` with the text. */
  function Parse(text: string): (r: Result<Seconds, DurationError>)
    ensures r.Failure? ==> r.error == InvalidFormat(text)
    ensures r.Success? ==> r.value >= 0
  {
    match Scan(text)
    case None => Failure(InvalidFormat(text))
    case Some(g) =>
      Success(TotalDays(g) * 86400 + GroupValue(g.hours) * 3600 + GroupValue(g.minutes) * 60 + GroupValue(g.seconds))
  }

  // ---------------------------------------------------------------------------
  // What the parser promises

  /** A text is accepted exactly when the whole of it matches the pattern. */
  lemma ParseAcceptsExactlyThePattern(text: string)
    ensures Parse(text).Success? <==> IsDurationText(text)
  {
    if IsDurationText(text) {
      var g :| ValidGroups(g) && Render(g) == text;
      ScanComplete(g);
    }
  }

  /** The value of an accepted text, group by group: absent groups count as zero, a year as
      365 days, a month as 30 days, and days after the `T` add to the days before it. */
  lemma ParseValue(g: Groups)
    requires ValidGroups(g)
    ensures Parse(Render(g)) == Success(
      86400 * (GroupValue(g.days) + GroupValue(g.extraDays) + 365 * GroupValue(g.years) + 30 * GroupValue(g.months))
      + 3600 * GroupValue(g.hours) + 60 * GroupValue(g.minutes) + GroupValue(g.seconds))
  {
    var text := Render(g);
    ScanComplete(g);
    ParseOfCaptures(text, g);
  }

  /** The value `Parse` gives a text, in terms of the captures the scanner reports for it. */
  lemma ParseOfCaptures(text: string, g: Groups)
    requires Scan(text) == Some(g)
    ensures ValidGroups(g)
    ensures Parse(text) == Success(
      86400 * (GroupValue(g.days) + GroupValue(g.extraDays) + 365 * GroupValue(g.years) + 30 * GroupValue(g.months))
      + 3600 * GroupValue(g.hours) + 60 * GroupValue(g.minutes) + GroupValue(g.seconds))
  {
  }

  /** An `M` before the `T` is read as the months group. */
  lemma MonthsBeforeT(digits: string)
    requires |digits| > 0 && AllDigits(digits)
    ensures Scan("P" + digits + "M") == Some(Groups(None, Some(digits), None, false, None, None, None, None))
  {
    var g := Groups(None, Some(digits), None, false, None, None, None, None);
    assert Render(g) == "P" + digits + "M";
    ScanComplete(g);
  }

  /** An `M` after the `T` is read as the minutes group. */
  lemma MinutesAfterT(digits: string)
    requires |digits| > 0 && AllDigits(digits)
    ensures Scan("PT" + digits + "M") == Some(Groups(None, None, None, true, None, Some(digits), None, None))
  {
    var g := Groups(None, None, None, true, None, Some(digits), None, None);
    assert Render(g) == "PT" + digits + "M";
    ScanComplete(g);
  }

  /** A day count after the `T` is read as the extra-days group. */
  lemma DaysAfterT(digits: string)
    requires |digits| > 0 && AllDigits(digits)
    ensures Scan("PT" + digits + "D") == Some(Groups(None, None, None, true, None, None, None, Some(digits)))
  {
    var g := Groups(None, None, None, true, None, None, None, Some(digits));
    assert Render(g) == "PT" + digits + "D";
    ScanComplete(g);
  }

  /** The bare form `P` is accepted and denotes a zero duration. */
  lemma BarePIsZero()
    ensures Parse("P") == Success(0)
  {
    var g := Groups(None, None, None, false, None, None, None, None);
    assert Render(g) == "P";
    ParseValue(g);
  }

  /** The bare form `PT` is accepted and denotes a zero duration. */
  lemma BarePTIsZero()
    ensures Parse("PT") == Success(0)
  {
    var g := Groups(None, None, None, true, None, None, None, None);
    assert TimeText(g) == "T";
    assert Render(g) == "PT";
    ScanComplete(g);
  }

  /** The characters a text of the pattern is made of. */
  predicate InAlphabet(s: string) {
    forall i | 0 <= i < |s| :: IsDigit(s[i]) || s[i] in "PYMDTHS"
  }

  lemma TokenInAlphabet(g: Option<string>, designator: char, rest: string)
    requires ValidGroup(g) && designator in "YMDHS" && InAlphabet(rest)
    ensures InAlphabet(Token(g, designator) + rest)
  {
  }

  lemma TimeTextInAlphabet(g: Groups)
    requires ValidGroups(g)
    ensures InAlphabet(TimeText(g))
  {
    if g.timePart {
      var extra := Token(g.extraDays, 'D');
      TokenInAlphabet(g.extraDays, 'D', "");
      assert extra == Token(g.extraDays, 'D') + "";
      TokenInAlphabet(g.seconds, 'S', extra);
      TokenInAlphabet(g.minutes, 'M', Token(g.seconds, 'S') + extra);
      TokenInAlphabet(g.hours, 'H', Token(g.minutes, 'M') + (Token(g.seconds, 'S') + extra));
    }
  }

  /** Every text of the grammar starts with `P` and is made of digits and designators. */
  lemma RenderInAlphabet(g: Groups)
    requires ValidGroups(g)
    ensures |Render(g)| > 0 && Render(g)[0] == 'P' && InAlphabet(Render(g))
  {
    var t := TimeText(g);
    TimeTextInAlphabet(g);
    TokenInAlphabet(g.days, 'D', t);
    TokenInAlphabet(g.months, 'M', Token(g.days, 'D') + t);
    TokenInAlphabet(g.years, 'Y', Token(g.months, 'M') + (Token(g.days, 'D') + t));
  }

  /** An accepted text starts with `P` and holds nothing but ASCII digits and the designators
      `P Y M D T H S`. */
  lemma AcceptedShape(text: string)
    requires Parse(text).Success?
    ensures |text| > 0 && text[0] == 'P' && InAlphabet(text)
  {
    RenderInAlphabet(Scan(text).value);
  }

  /** So a text holding any other character is rejected: a sign, a decimal point, a week
      designator `W`, a space, a lower-case designator. */
  lemma ForeignCharacterRejected(text: string, i: int)
    requires 0 <= i < |text| && !IsDigit(text[i]) && text[i] !in "PYMDTHS"
    ensures Parse(text) == Failure(InvalidFormat(text))
  {
    if Parse(text).Success? {
      AcceptedShape(text);
    }
  }

  /** The empty string is not a duration. */
  lemma EmptyRejected()
    ensures Parse("") == Failure(InvalidFormat(""))
  {
  }

  /** Designators out of order are rejected: a years group may not follow a days group,
      whatever the digits of the two groups. */
  lemma OutOfOrderRejected(days: string, years: string)
    requires |days| > 0 && AllDigits(days) && |years| > 0 && AllDigits(years)
    ensures Parse("P" + days + "D" + years + "Y") == Failure(InvalidFormat("P" + days + "D" + years + "Y"))
  {
    var s := "P" + days + "D" + years + "Y";
    var rest := years + "Y";
    assert s[1..] == Token(Some(days), 'D') + rest;
    NoGroupBehindOther(Some(days), 'D', rest, 'Y');
    NoGroupBehindOther(Some(days), 'D', rest, 'M');
    GroupPresent(days, 'D', rest);
    assert days + ['D'] + rest == s[1..];
    assert rest[0] == years[0];
  }
}
