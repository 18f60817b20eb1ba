/** The `HH:00-HH:00` text the scripts publish for their selected hours and
    the parse of it in `start_discharging` (smart_day_discharging.py). */
module RangeText {
  import opened Prices
  import opened HourRuns

  function Digit(d: nat): char
    requires d < 10
  {
    "0123456789"[d]
  }

  predicate IsDigit(c: char)
  {
    '0' <= c <= '9'
  }

  predicate AllDigits(s: string)
  {
    forall i :: 0 <= i < |s| ==> IsDigit(s[i])
  }

  /** `str(n)` for a non-negative integer. */
  function Decimal(n: nat): (s: string)
    ensures |s| > 0 && AllDigits(s)
  {
    if n < 10 then [Digit(n)] else Decimal(n / 10) + [Digit(n % 10)]
  }

  /** `f"{n:02}"`: at least two digits, zero-padded. */
  function Pad2(n: nat): (s: string)
    ensures |s| >= 2 && AllDigits(s)
  {
    if n < 10 then ['0', Digit(n)] else Decimal(n)
  }

  /** `sep.join(ps)`. */
  function Join(ps: seq<string>, sep: string): string
  {
    if |ps| == 0 then "" else if |ps| == 1 then ps[0] else ps[0] + sep + Join(ps[1..], sep)
  }

  /** One run as `split_into_ranges` writes it: `HH:00-HH:00`, the end being the last hour plus one. */
  function DayRun(r: seq<nat>): string
  {
    if r == [] then "" else Pad2(r[0]) + ":00-" + Pad2(Last(r) + 1) + ":00"
  }

  /** One run as `format_selected_hours` writes it: a lone hour as `HH:00`, a longer run as in `DayRun`. */
  function NightRun(r: seq<nat>): string
  {
    if r == [] then "" else if |r| == 1 then Pad2(r[0]) + ":00" else DayRun(r)
  }

  function DayTexts(rs: seq<seq<nat>>): (ts: seq<string>)
    ensures |ts| == |rs|
  {
    seq(|rs|, i requires 0 <= i < |rs| => DayRun(rs[i]))
  }

  function NightTexts(rs: seq<seq<nat>>): (ts: seq<string>)
    ensures |ts| == |rs|
  {
    seq(|rs|, i requires 0 <= i < |rs| => NightRun(rs[i]))
  }

  /** A comma with the given text before and after it: `split_into_ranges`
      joins runs with `Separator("", " ")` (", "), `format_selected_hours`
      with `Separator(" ", " ")` (" , "). */
  function Separator(before: string, after: string): string
  {
    before + [','] + after
  }

  /** The result of `split_into_ranges` (smart_day_discharging.py). */
  function DayRangeText(hours: seq<nat>): string
  {
    Join(DayTexts(Runs(hours)), Separator("", " "))
  }

  /** The result of `format_selected_hours` (smart_night_charging.py and
      smart_night_charging_sensors.py). */
  function NightRangeText(hours: seq<nat>): string
  {
    if hours == [] then "No valid charging hours" else Join(NightTexts(Runs(hours)), Separator(" ", " "))
  }

  /** The hour list of smart_cheap_night_charging.py: every hour as `HH:00`, joined with ", ". */
  function CheapHoursText(hours: seq<nat>): string
  {
    Join(HourTexts(hours), Separator("", " "))
  }

  /** `[f"{hour:02d}:00" for hour in hours]`. */
  function HourTexts(hours: seq<nat>): (ts: seq<string>)
    ensures |ts| == |hours|
  {
    seq(|hours|, i requires 0 <= i < |hours| => Pad2(hours[i]) + ":00")
  }

  /** The state `f"{time_range_str} | Mean: {mean:.2f}"`, `meanText` standing for the rendered mean. */
  function StateText(rangeText: string, meanText: string): string
  {
    rangeText + (" | Mean: " + meanText)
  }

  // ----- Reading the text back -----

  /** `s.split(c)`. */
  function Split(s: string, c: char): seq<string>
  {
    if s == [] then [""]
    else
      var rest := Split(s[1..], c);
      if s[0] == c then [""] + rest
      else if rest == [] then [[s[0]]]
      else [[s[0]] + rest[0]] + rest[1..]
  }

  /** `s.split(c)[0]`: the text before the first `c`. */
  function Before(s: string, c: char): string
  {
    if s == [] || s[0] == c then "" else [s[0]] + Before(s[1..], c)
  }

  predicate IsSpace(c: char)
  {
    c == ' ' || c == '\t' || c == '\n' || c == '\r'
  }

  function DropLeadingSpace(s: string): string
  {
    if s != [] && IsSpace(s[0]) then DropLeadingSpace(s[1..]) else s
  }

  function DropTrailingSpace(s: string): string
  {
    if s != [] && IsSpace(s[|s| - 1]) then DropTrailingSpace(s[..|s| - 1]) else s
  }

  /** The value of a non-empty string of decimal digits. */
  function DigitsValue(s: string): nat
    requires AllDigits(s)
  {
    if s == [] then 0 else DigitsValue(s[..|s| - 1]) * 10 + ((s[|s| - 1] as int) - ('0' as int))
  }

  /** `int(s)`: surrounding white space, an optional sign and at least one digit. */
  function ParseInt(s: string): Option<int>
  {
    var t := DropTrailingSpace(DropLeadingSpace(s));
    if t != [] && (t[0] == '-' || t[0] == '+') then
      var d := t[1..];
      if d != [] && AllDigits(d) then
        var v: int := DigitsValue(d);
        Some(if t[0] == '-' then -v else v)
      else None
    else if t != [] && AllDigits(t) then Some(DigitsValue(t))
    else None
  }

  function ParseEach(pieces: seq<string>): Option<seq<int>>
  {
    if pieces == [] then Some([])
    else
      match (ParseInt(Before(pieces[0], ':')), ParseEach(pieces[1..]))
      case (Some(h), Some(hs)) => Some([h] + hs)
      case _ => None
  }

  /** `[int(h.split(':')[0]) for h in state.split(',')]`; None where `int()` would raise. */
  function ParseStartHours(state: string): Option<seq<int>>
  {
    ParseEach(Split(state, ','))
  }

  // ----- Lemmas -----

  /** `split` always yields at least one piece. */
  lemma {:induction false} SplitNonEmpty(s: string, c: char)
    ensures |Split(s, c)| > 0
  {
    if s != [] {
      SplitNonEmpty(s[1..], c);
    }
  }

  lemma {:induction false} TrailingKeepsFirst(s: string)
    requires s != [] && !IsSpace(s[0])
    ensures DropTrailingSpace(s) != [] && DropTrailingSpace(s)[0] == s[0]
  {
    if IsSpace(s[|s| - 1]) {
      TrailingKeepsFirst(s[..|s| - 1]);
    }
  }

  /** A state without a comma that starts with a letter does not parse:
      `int()` raises on its only piece. */
  lemma WordDoesNotParse(s: string)
    requires s != [] && ',' !in s && (('a' <= s[0] <= 'z') || ('A' <= s[0] <= 'Z'))
    ensures ParseStartHours(s) == None
  {
    SplitWithout(s, ',');
    var b := Before(s, ':');
    assert b != [] && b[0] == s[0];
    TrailingKeepsFirst(b);
    assert DropLeadingSpace(b) == b;
  }

  lemma {:induction false} BeforeAt(a: string, b: string, c: char)
    requires c !in a
    ensures Before(a + [c] + b, c) == a
  {
    if a != [] {
      var s := a + [c] + b;
      assert s[0] == a[0] && s[1..] == a[1..] + [c] + b;
      BeforeAt(a[1..], b, c);
      assert a == [a[0]] + a[1..];
    }
  }

  lemma {:induction false} SplitWithout(a: string, c: char)
    requires c !in a
    ensures Split(a, c) == [a]
  {
    if a != [] {
      SplitWithout(a[1..], c);
      assert a[0] != c;
      assert a == [a[0]] + a[1..];
    }
  }

  lemma {:induction false} SplitAt(a: string, b: string, c: char)
    requires c !in a
    ensures Split(a + [c] + b, c) == [a] + Split(b, c)
  {
    if a == [] {
      assert a + [c] + b == [c] + b;
    } else {
      var s := a + [c] + b;
      assert s[0] == a[0] && a[0] != c;
      assert s[1..] == a[1..] + [c] + b;
      SplitAt(a[1..], b, c);
      SplitNonEmpty(b, c);
      assert a == [a[0]] + a[1..];
    }
  }

  lemma {:induction false} DecimalValue(n: nat)
    ensures DigitsValue(Decimal(n)) == n
  {
    if n >= 10 {
      DecimalValue(n / 10);
      var s := Decimal(n / 10) + [Digit(n % 10)];
      assert s[..|s| - 1] == Decimal(n / 10);
    }
  }

  lemma Pad2Value(n: nat)
    ensures DigitsValue(Pad2(n)) == n
  {
    if n < 10 {
      var s := Pad2(n);
      assert s[..1] == ['0'];
      assert ['0'][..0] == [];
    } else {
      DecimalValue(n);
    }
  }

  lemma {:induction false} StripDigits(w: string, d: string)
    requires forall i :: 0 <= i < |w| ==> w[i] == ' '
    requires |d| > 0 && AllDigits(d)
    ensures DropTrailingSpace(DropLeadingSpace(w + d)) == d
  {
    if w == [] {
      assert w + d == d;
    } else {
      assert (w + d)[1..] == w[1..] + d;
      StripDigits(w[1..], d);
    }
  }

  /** `int()` reads back an hour written with `Pad2`, also after leading spaces. */
  lemma ParsePadded(w: string, n: nat)
    requires forall i :: 0 <= i < |w| ==> w[i] == ' '
    ensures ParseInt(w + Pad2(n)) == Some(n)
  {
    StripDigits(w, Pad2(n));
    Pad2Value(n);
  }

  /** A formatted run starts with its first hour and a colon. */
  predicate Opens(p: string, h: nat)
  {
    var d := Pad2(h);
    |p| > |d| && p[..|d|] == d && p[|d|] == ':'
  }

  /** The hour before the first colon of a piece that opens with `Pad2(h) + ":"`. */
  lemma PieceHour(w: string, p: string, x: string, h: nat)
    requires forall i :: 0 <= i < |w| ==> w[i] == ' '
    requires Opens(p, h)
    ensures ParseInt(Before(w + p + x, ':')) == Some(h)
  {
    var d := Pad2(h);
    var rest := p[|d| + 1..] + x;
    assert p == d + [':'] + p[|d| + 1..];
    assert w + p + x == (w + d) + [':'] + rest;
    assert ':' !in w + d by {
      assert forall i :: 0 <= i < |w + d| ==> (w + d)[i] == ' ' || IsDigit((w + d)[i]);
    }
    BeforeAt(w + d, rest, ':');
    ParsePadded(w, h);
  }

  /** `split(',')` of a joined list, the separator being `a + "," + b`. */
  lemma {:induction false} SplitJoin(pre: string, ps: seq<string>, a: string, b: string, suffix: string)
    decreases |ps|
    requires |ps| > 0
    requires ',' !in pre && ',' !in a && ',' !in b && ',' !in suffix
    requires forall i :: 0 <= i < |ps| ==> ',' !in ps[i]
    ensures |Split(pre + Join(ps, Separator(a, b)) + suffix, ',')| == |ps|
    ensures forall i :: 0 <= i < |ps| ==>
      Split(pre + Join(ps, Separator(a, b)) + suffix, ',')[i]
        == (if i == 0 then pre else b) + ps[i] + (if i == |ps| - 1 then suffix else a)
  {
    var sep := Separator(a, b);
    if |ps| == 1 {
      SplitWithout(pre + ps[0] + suffix, ',');
    } else {
      var rest := Join(ps[1..], sep);
      assert pre + Join(ps, sep) + suffix == (pre + ps[0] + a) + [','] + (b + rest + suffix);
      SplitAt(pre + ps[0] + a, b + rest + suffix, ',');
      SplitJoin(b, ps[1..], a, b, suffix);
    }
  }

  /** Reading the first hour of every field, the fields being the pieces of a split join. */
  lemma {:induction false} ParseFields(fields: seq<string>, pre: string, ps: seq<string>, a: string, b: string, suffix: string, hs: seq<nat>)
    requires |fields| == |ps| == |hs|
    requires forall i :: 0 <= i < |fields| ==>
      fields[i] == (if i == 0 then pre else b) + ps[i] + (if i == |fields| - 1 then suffix else a)
    requires forall k :: 0 <= k < |pre| ==> pre[k] == ' '
    requires forall k :: 0 <= k < |b| ==> b[k] == ' '
    requires forall i :: 0 <= i < |ps| ==> Opens(ps[i], hs[i])
    ensures ParseEach(fields) == Some(hs)
  {
    if fields != [] {
      var x := if |fields| == 1 then suffix else a;
      assert fields[0] == pre + ps[0] + x;
      PieceHour(pre, ps[0], x, hs[0]);
      var rest := fields[1..];
      forall i | 0 <= i < |rest| ensures rest[i] == b + ps[1..][i] + (if i == |rest| - 1 then suffix else a) {
        assert rest[i] == fields[i + 1];
      }
      ParseFields(rest, b, ps[1..], a, b, suffix, hs[1..]);
      assert hs == [hs[0]] + hs[1..];
    }
  }

  lemma DigitsNoComma(s: string)
    requires AllDigits(s)
    ensures ',' !in s && ':' !in s
  {
    assert forall i :: 0 <= i < |s| ==> s[i] != ',' && s[i] != ':';
  }

  lemma DayRunShape(r: seq<nat>)
    requires |r| > 0
    ensures Opens(DayRun(r), r[0]) && ',' !in DayRun(r)
  {
    var d := Pad2(r[0]);
    var e := Pad2(Last(r) + 1);
    DigitsNoComma(d);
    DigitsNoComma(e);
    assert DayRun(r) == d + ":00-" + e + ":00";
    assert DayRun(r)[..|d|] == d;
  }

  lemma NightRunShape(r: seq<nat>)
    requires |r| > 0
    ensures Opens(NightRun(r), r[0]) && ',' !in NightRun(r)
  {
    if |r| == 1 {
      var d := Pad2(r[0]);
      DigitsNoComma(d);
      assert NightRun(r) == d + ":00";
      assert NightRun(r)[..|d|] == d;
    } else {
      DayRunShape(r);
    }
  }

  /** The two formatters agree except on a lone hour, which the night
      formatter writes as `HH:00` and the day formatter as `HH:00-HH+1:00`. */
  lemma FormattersDiffer(r: seq<nat>)
    requires |r| > 0
    ensures NightRun(r) == DayRun(r) <==> |r| > 1
  {
    if |r| == 1 {
      assert |NightRun(r)| == |Pad2(r[0])| + 3;
      assert |DayRun(r)| == |Pad2(r[0])| + 4 + |Pad2(r[0] + 1)| + 3;
    }
  }

  /** Reading back a joined list of formatted runs followed by a comma-free suffix. */
  lemma ParseJoined(ps: seq<string>, hs: seq<nat>, a: string, b: string, suffix: string)
    requires |ps| > 0 && |ps| == |hs|
    requires ',' !in a && ',' !in b && ',' !in suffix
    requires forall k :: 0 <= k < |b| ==> b[k] == ' '
    requires forall i :: 0 <= i < |ps| ==> ',' !in ps[i] && Opens(ps[i], hs[i])
    ensures ParseEach(Split(Join(ps, Separator(a, b)) + suffix, ',')) == Some(hs)
  {
    var text := Join(ps, Separator(a, b)) + suffix;
    SplitJoin("", ps, a, b, suffix);
    assert "" + Join(ps, Separator(a, b)) + suffix == text;
    ParseFields(Split(text, ','), "", ps, a, b, suffix, hs);
  }

  lemma DayTextsShape(rs: seq<seq<nat>>)
    requires forall i :: 0 <= i < |rs| ==> |rs[i]| > 0
    ensures forall i :: 0 <= i < |rs| ==> ',' !in DayTexts(rs)[i] && Opens(DayTexts(rs)[i], Starts(rs)[i])
  {
    forall i | 0 <= i < |rs| ensures ',' !in DayTexts(rs)[i] && Opens(DayTexts(rs)[i], Starts(rs)[i]) {
      DayRunShape(rs[i]);
    }
  }

  lemma NightTextsShape(rs: seq<seq<nat>>)
    requires forall i :: 0 <= i < |rs| ==> |rs[i]| > 0
    ensures forall i :: 0 <= i < |rs| ==> ',' !in NightTexts(rs)[i] && Opens(NightTexts(rs)[i], Starts(rs)[i])
  {
    forall i | 0 <= i < |rs| ensures ',' !in NightTexts(rs)[i] && Opens(NightTexts(rs)[i], Starts(rs)[i]) {
      NightRunShape(rs[i]);
    }
  }

  lemma MeanSuffixNoComma(meanText: string)
    requires ',' !in meanText
    ensures ',' !in " | Mean: " + meanText
  {
  }

  /** Reading back the joined day texts of a list of runs. */
  lemma DayTextsRoundTrip(rs: seq<seq<nat>>, a: string, b: string, suffix: string)
    requires |rs| > 0 && forall i :: 0 <= i < |rs| ==> |rs[i]| > 0
    requires ',' !in a && ',' !in b && ',' !in suffix
    requires forall k :: 0 <= k < |b| ==> b[k] == ' '
    ensures ParseEach(Split(Join(DayTexts(rs), Separator(a, b)) + suffix, ',')) == Some(Starts(rs))
  {
    DayTextsShape(rs);
    ParseJoined(DayTexts(rs), Starts(rs), a, b, suffix);
  }

  /** Reading back the joined night texts of a list of runs. */
  lemma NightTextsRoundTrip(rs: seq<seq<nat>>, a: string, b: string, suffix: string)
    requires |rs| > 0 && forall i :: 0 <= i < |rs| ==> |rs[i]| > 0
    requires ',' !in a && ',' !in b && ',' !in suffix
    requires forall k :: 0 <= k < |b| ==> b[k] == ' '
    ensures ParseEach(Split(Join(NightTexts(rs), Separator(a, b)) + suffix, ',')) == Some(Starts(rs))
  {
    NightTextsShape(rs);
    ParseJoined(NightTexts(rs), Starts(rs), a, b, suffix);
  }

  /** Splitting the day text, followed by any comma-free tail, at ',' and
      then at ':' gives back the first hour of every run. */
  lemma DayTextRoundTrip(hours: seq<nat>, tail: string)
    requires |hours| > 0
    requires ',' !in tail
    ensures ParseStartHours(DayRangeText(hours) + tail) == Some(Starts(Runs(hours)))
  {
    var rs := Runs(hours);
    DayTextsRoundTrip(rs, "", " ", tail);
  }

  lemma NightTextRoundTrip(hours: seq<nat>, tail: string)
    requires |hours| > 0
    requires ',' !in tail
    ensures ParseStartHours(NightRangeText(hours) + tail) == Some(Starts(Runs(hours)))
  {
    var rs := Runs(hours);
    var b := " ";
    assert forall k :: 0 <= k < |b| ==> b[k] == ' ';
    assert NightRangeText(hours) == Join(NightTexts(rs), Separator(" ", b));
    NightTextsRoundTrip(rs, " ", b, tail);
  }

  /** Round trip: splitting the published state at ',' and then at ':' gives
      back exactly the first hour of every run, for any rendering of the mean
      that has no comma in it. */
  lemma DayStateRoundTrip(hours: seq<nat>, meanText: string)
    requires |hours| > 0
    requires ',' !in meanText
    ensures ParseStartHours(StateText(DayRangeText(hours), meanText)) == Some(Starts(Runs(hours)))
  {
    MeanSuffixNoComma(meanText);
    DayTextRoundTrip(hours, " | Mean: " + meanText);
  }

  /** The night text reads back the same way: `start_discharging` would
      recover the first hour of every run from it too. */
  lemma NightStateRoundTrip(hours: seq<nat>, meanText: string)
    requires |hours| > 0
    requires ',' !in meanText
    ensures ParseStartHours(StateText(NightRangeText(hours), meanText)) == Some(Starts(Runs(hours)))
  {
    MeanSuffixNoComma(meanText);
    NightTextRoundTrip(hours, " | Mean: " + meanText);
  }

  // ----- The formatting loops -----

  lemma HourTextsShape(hours: seq<nat>)
    ensures forall i :: 0 <= i < |hours| ==> ',' !in HourTexts(hours)[i] && Opens(HourTexts(hours)[i], hours[i])
  {
    forall i | 0 <= i < |hours| ensures ',' !in HourTexts(hours)[i] && Opens(HourTexts(hours)[i], hours[i]) {
      var d := Pad2(hours[i]);
      DigitsNoComma(d);
      assert HourTexts(hours)[i] == d + ":00";
      assert HourTexts(hours)[i][..|d|] == d;
    }
  }

  /** Round trip for the hour list of smart_cheap_night_charging.py: reading
      the state back at ',' and ':' gives every selected hour, in order. */
  lemma CheapStateRoundTrip(hours: seq<nat>, meanText: string)
    requires |hours| > 0
    requires ',' !in meanText
    ensures ParseStartHours(StateText(CheapHoursText(hours), meanText)) == Some(hours)
  {
    MeanSuffixNoComma(meanText);
    HourTextsShape(hours);
    ParseJoined(HourTexts(hours), hours, "", " ", " | Mean: " + meanText);
  }

  lemma DayTextsSnoc(rs: seq<seq<nat>>, i: nat)
    requires i < |rs|
    ensures DayTexts(rs[..i + 1]) == DayTexts(rs[..i]) + [DayRun(rs[i])]
  {
  }

  lemma NightTextsSnoc(rs: seq<seq<nat>>, i: nat)
    requires i < |rs|
    ensures NightTexts(rs[..i + 1]) == NightTexts(rs[..i]) + [NightRun(rs[i])]
  {
  }

  /** `split_into_ranges`: group the hours, then format every run. */
  method SplitIntoRanges(hours: seq<nat>) returns (text: string)
    requires |hours| > 0
    ensures text == DayRangeText(hours)
  {
    var ranges := GroupSequentialHours(hours);
    var formatted: seq<string> := [];
    var i := 0;
    while i < |ranges|
      invariant 0 <= i <= |ranges|
      invariant formatted == DayTexts(ranges[..i])
    {
      DayTextsSnoc(ranges, i);
      formatted := formatted + [DayRun(ranges[i])];
      i := i + 1;
    }
    assert ranges[..|ranges|] == ranges;
    text := Join(formatted, Separator("", " "));
  }

  /** One range of the second loop of `format_selected_hours`. */
  method FormatRange(r: seq<nat>) returns (piece: string)
    requires |r| > 0
    ensures piece == NightRun(r)
  {
    if |r| == 1 {
      piece := Pad2(r[0]) + ":00";
    } else {
      assert r[|r| - 1] == Last(r);
      piece := Pad2(r[0]) + ":00-" + Pad2(r[|r| - 1] + 1) + ":00";
    }
  }

  /** `format_selected_hours`. Its first loop is the loop of
      `group_sequential_hours` written out again; the model calls that method. */
  method FormatSelectedHours(hours: seq<nat>) returns (text: string)
    ensures text == NightRangeText(hours)
  {
    if |hours| == 0 {
      return "No valid charging hours";
    }
    var ranges := GroupSequentialHours(hours);
    var formatted: seq<string> := [];
    var k := 0;
    while k < |ranges|
      invariant 0 <= k <= |ranges|
      invariant formatted == NightTexts(ranges[..k])
    {
      assert |ranges[k]| > 0;
      var piece := FormatRange(ranges[k]);
      NightTextsSnoc(ranges, k);
      formatted := formatted + [piece];
      k := k + 1;
    }
    assert ranges[..|ranges|] == ranges;
    assert formatted == NightTexts(Runs(hours));
    text := Join(formatted, Separator(" ", " "));
  }
}
