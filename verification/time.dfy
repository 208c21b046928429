/** Timestamp assembly. The `Intl.DateTimeFormat` formatters are outside the
    model: their outputs (the list of parts and the short-offset label such as
    "GMT+8") are the inputs here. */
module Time {
  import opened Wrappers
  import opened Strings

  // ---------------------------------------------------------------------------
  // parseOffset: /([+-])(\d{1,2})(?::?(\d{2}))?/ on the offset label
  // ---------------------------------------------------------------------------

  /** A sign immediately followed by a digit starts at index `j`. */
  predicate SignDigitAt(s: string, j: int) {
    0 <= j && j + 1 < |s| && (s[j] == '+' || s[j] == '-') && IsDigit(s[j + 1])
  }

  /** The leftmost index at or after `from` where the pattern can start. */
  function FirstSignDigit(s: string, from: nat): (r: Option<nat>)
    decreases |s| - from
    ensures r.Some? ==> from <= r.value && SignDigitAt(s, r.value)
    ensures r.Some? ==> forall k :: from <= k < r.value ==> !SignDigitAt(s, k)
    ensures r.None? ==> forall k :: from <= k < |s| ==> !SignDigitAt(s, k)
  {
    if from >= |s| then None
    else if SignDigitAt(s, from) then Some(from)
    else FirstSignDigit(s, from + 1)
  }

  /** The three capture groups of a match: sign, hours, optional minutes. */
  datatype OffsetMatch = OffsetMatch(sign: char, hours: string, minutes: Option<string>)

  /** The match that starts at `j`: the hour group is greedy; the minute group
      is tried (with its optional colon taken first) and dropped when it does
      not fit, which never fails the match as a whole. */
  function MatchAt(s: string, j: nat): (m: OffsetMatch)
    requires SignDigitAt(s, j)
    ensures m.sign == s[j] && (m.sign == '+' || m.sign == '-')
    ensures 1 <= |m.hours| <= 2 && AllDigits(m.hours)
    ensures m.minutes.Some? ==> |m.minutes.value| == 2 && AllDigits(m.minutes.value)
  {
    var hh := if j + 2 < |s| && IsDigit(s[j + 2]) then s[j + 1..j + 3] else s[j + 1..j + 2];
    var k := j + 1 + |hh|;
    var mm :=
      if k < |s| && s[k] == ':' then
        (if k + 2 < |s| && IsDigit(s[k + 1]) && IsDigit(s[k + 2]) then Some(s[k + 1..k + 3]) else None)
      else if k + 1 < |s| && IsDigit(s[k]) && IsDigit(s[k + 1]) then Some(s[k..k + 2])
      else None;
    OffsetMatch(s[j], hh, mm)
  }

  /** The leftmost match of the offset pattern, if any. */
  function MatchOffset(s: string): (r: Option<OffsetMatch>)
    ensures r.None? <==> forall k :: 0 <= k < |s| ==> !SignDigitAt(s, k)
    ensures r.Some? ==> (r.value.sign == '+' || r.value.sign == '-')
    ensures r.Some? ==> 1 <= |r.value.hours| <= 2 && AllDigits(r.value.hours)
    ensures r.Some? && r.value.minutes.Some? ==> |r.value.minutes.value| == 2 && AllDigits(r.value.minutes.value)
  {
    match FirstSignDigit(s, 0)
    case None => None
    case Some(j) => Some(MatchAt(s, j))
  }

  /** Padding one or two digits to width two gives two digits. */
  lemma PadTwoDigits(s: string)
    requires 1 <= |s| <= 2 && AllDigits(s)
    ensures var p := PadStart(s, 2, '0'); |p| == 2 && IsDigit(p[0]) && IsDigit(p[1])
  {
    var p := PadStart(s, 2, '0');
    assert p[1] == s[|s| - 1];
    if |s| == 2 {
      assert p == s;
    }
  }

  /** The text `±HH:MM` from its three fields. */
  function OffsetText(sign: char, hh: string, mm: string): (r: string)
    requires |hh| == 2 && |mm| == 2
    ensures |r| == 6 && r[0] == sign && r[1..3] == hh && r[3] == ':' && r[4..] == mm
  {
    [sign, hh[0], hh[1], ':', mm[0], mm[1]]
  }

  /** `parseOffset(tag)`: a fixed numeric offset `±HH:MM`. */
  function ParseOffset(tag: string): (r: string)
    ensures |r| == 6 && (r[0] == '+' || r[0] == '-') && r[3] == ':'
    ensures IsDigit(r[1]) && IsDigit(r[2]) && IsDigit(r[4]) && IsDigit(r[5])
    ensures MatchOffset(tag).None? ==> r == "+00:00"
    ensures MatchOffset(tag).Some? ==> r[0] == MatchOffset(tag).value.sign
    ensures MatchOffset(tag).Some? ==> r[1..3] == PadStart(MatchOffset(tag).value.hours, 2, '0')
    ensures MatchOffset(tag).Some? ==> r[4..] == MatchOffset(tag).value.minutes.GetOr("00")
  {
    match MatchOffset(tag)
    case None => "+00:00"
    case Some(m) =>
      var mm := m.minutes.GetOr("00");
      PadTwoDigits(m.hours);
      PadStartNoop(mm, 2, '0');
      var r := OffsetText(m.sign, PadStart(m.hours, 2, '0'), PadStart(mm, 2, '0'));
      assert IsDigit(r[1]) && IsDigit(r[2]) by {
        assert r[1..3] == PadStart(m.hours, 2, '0');
      }
      assert IsDigit(r[4]) && IsDigit(r[5]) by {
        assert r[4..] == mm;
      }
      r
  }

  /** One digit is padded with a leading zero. */
  lemma PadOneDigit(d: char)
    ensures PadStart([d], 2, '0') == ['0', d]
  {
    var p := PadStart([d], 2, '0');
    assert p[1] == d;
  }

  /** The offset text is fixed by the sign, the padded hours and the minutes. */
  lemma ParseOffsetOf(tag: string, m: OffsetMatch)
    requires MatchOffset(tag) == Some(m)
    ensures |PadStart(m.hours, 2, '0')| == 2 && |m.minutes.GetOr("00")| == 2
    ensures ParseOffset(tag) == OffsetText(m.sign, PadStart(m.hours, 2, '0'), m.minutes.GetOr("00"))
  {
    var r := ParseOffset(tag);
    var t := OffsetText(m.sign, PadStart(m.hours, 2, '0'), m.minutes.GetOr("00"));
    assert r[1..3][0] == r[1] && r[1..3][1] == r[2] && r[4..][0] == r[4] && r[4..][1] == r[5];
    assert t[1..3][0] == t[1] && t[1..3][1] == t[2] && t[4..][0] == t[4] && t[4..][1] == t[5];
    assert r == t;
  }

  /** "GMT+8" becomes "+08:00": hours zero-padded, minutes defaulted. */
  lemma ParseOffsetPadsHours()
    ensures ParseOffset("GMT+8") == "+08:00"
  {
    var s := "GMT+8";
    assert !SignDigitAt(s, 0) && !SignDigitAt(s, 1) && !SignDigitAt(s, 2) && SignDigitAt(s, 3);
    assert FirstSignDigit(s, 0) == Some(3);
    assert s[4..5] == "8";
    assert MatchAt(s, 3) == OffsetMatch('+', "8", None);
    ParseOffsetOf(s, OffsetMatch('+', "8", None));
    PadOneDigit('8');
  }

  /** "GMT-05:30" keeps its minutes. */
  lemma ParseOffsetKeepsMinutes()
    ensures ParseOffset("GMT-05:30") == "-05:30"
  {
    var s := "GMT-05:30";
    assert !SignDigitAt(s, 0) && !SignDigitAt(s, 1) && !SignDigitAt(s, 2) && SignDigitAt(s, 3);
    assert FirstSignDigit(s, 0) == Some(3);
    assert IsDigit(s[5]) && s[4..6] == "05" && s[6] == ':' && IsDigit(s[7]) && IsDigit(s[8]) && s[7..9] == "30";
    assert MatchAt(s, 3) == OffsetMatch('-', "05", Some("30"));
    ParseOffsetOf(s, OffsetMatch('-', "05", Some("30")));
    PadStartNoop("05", 2, '0');
  }

  /** "GMT+530" matches greedily as hours "53" with no minute group. */
  lemma ParseOffsetGreedyHours()
    ensures ParseOffset("GMT+530") == "+53:00"
  {
    var s := "GMT+530";
    assert !SignDigitAt(s, 0) && !SignDigitAt(s, 1) && !SignDigitAt(s, 2) && SignDigitAt(s, 3);
    assert FirstSignDigit(s, 0) == Some(3);
    assert IsDigit(s[5]) && s[4..6] == "53" && s[6] == '0';
    assert MatchAt(s, 3) == OffsetMatch('+', "53", None);
    ParseOffsetOf(s, OffsetMatch('+', "53", None));
    PadStartNoop("53", 2, '0');
  }

  // ---------------------------------------------------------------------------
  // The `byType` dictionary of formatToParts
  // ---------------------------------------------------------------------------

  /** One element of `Intl.DateTimeFormat.prototype.formatToParts`. */
  datatype Part = Part(kind: string, value: string)

  /** The dictionary the loop builds: literal parts skipped, and a later part of
      a type overwriting an earlier one. */
  function ByType(parts: seq<Part>): map<string, string> {
    if parts == [] then map[]
    else
      var m := ByType(parts[..|parts| - 1]);
      var p := parts[|parts| - 1];
      if p.kind == "literal" then m else m[p.kind := p.value]
  }

  /** The loop of formatTimestamp/formatConsoleTimestamp filling `byType`. */
  method CollectParts(parts: seq<Part>) returns (byType: map<string, string>)
    ensures byType == ByType(parts)
  {
    byType := map[];
    for i := 0 to |parts|
      invariant byType == ByType(parts[..i])
    {
      assert parts[..i + 1][..i] == parts[..i];
      if parts[i].kind != "literal" {
        byType := byType[parts[i].kind := parts[i].value];
      }
    }
    assert parts[..|parts|] == parts;
  }

  /** A type is a key of `byType` exactly when some non-literal part has it. */
  lemma {:induction false} ByTypeKeys(parts: seq<Part>, k: string)
    ensures k in ByType(parts) <==> k != "literal" && exists i :: 0 <= i < |parts| && parts[i].kind == k
  {
    if parts != [] {
      var init := parts[..|parts| - 1];
      ByTypeKeys(init, k);
      if k in ByType(parts) && parts[|parts| - 1].kind != k {
        var i :| 0 <= i < |init| && init[i].kind == k;
        assert parts[i].kind == k;
      }
      if (exists i :: 0 <= i < |parts| && parts[i].kind == k) && parts[|parts| - 1].kind != k {
        var i :| 0 <= i < |parts| && parts[i].kind == k;
        assert init[i].kind == k;
      }
    }
  }

  /** The value recorded for a type is that of the last part of that type. */
  lemma {:induction false} ByTypeLastWins(parts: seq<Part>, i: nat)
    requires i < |parts| && parts[i].kind != "literal"
    requires forall j :: i < j < |parts| ==> parts[j].kind != parts[i].kind
    ensures parts[i].kind in ByType(parts) && ByType(parts)[parts[i].kind] == parts[i].value
  {
    if i < |parts| - 1 {
      var init := parts[..|parts| - 1];
      assert init[i] == parts[i];
      ByTypeLastWins(init, i);
    }
  }

  /** `byType.k ?? default`. */
  function Field(m: map<string, string>, k: string, default: string): string {
    if k in m then m[k] else default
  }

  /** The `{ ts, dateKey }` pair formatTimestamp returns. */
  datatype Stamp = Stamp(ts: string, dateKey: string)

  /** Assembly of formatTimestamp's result from the parts and the offset. */
  function AssembleStamp(m: map<string, string>, offset: string): Stamp {
    var dateKey := Field(m, "year", "0000") + "-" + Field(m, "month", "00") + "-" + Field(m, "day", "00");
    var clock := Field(m, "hour", "00") + ":" + Field(m, "minute", "00") + ":"
                 + Field(m, "second", "00") + "." + Field(m, "fractionalSecond", "000");
    Stamp(dateKey + "T" + clock + offset, dateKey)
  }

  /** The date key is a prefix of the timestamp, followed by "T", and the
      timestamp ends in the offset; missing date parts read as zeros. */
  lemma StampShape(m: map<string, string>, offset: string)
    ensures var st := AssembleStamp(m, offset);
      StartsWith(st.ts, st.dateKey + "T") && EndsWith(st.ts, offset)
    ensures "year" !in m && "month" !in m && "day" !in m ==> AssembleStamp(m, offset).dateKey == "0000-00-00"
  {
    var st := AssembleStamp(m, offset);
    var clock := Field(m, "hour", "00") + ":" + Field(m, "minute", "00") + ":"
                 + Field(m, "second", "00") + "." + Field(m, "fractionalSecond", "000");
    PrefixAndSuffix(st.dateKey + "T", clock, offset);
  }

  /** `a + b + c` starts with `a` and ends with `c`. */
  lemma PrefixAndSuffix(a: string, b: string, c: string)
    ensures StartsWith(a + b + c, a) && EndsWith(a + b + c, c)
  {
    assert (a + b + c)[..|a|] == a;
    assert (a + b + c)[|a + b|..] == c;
  }

  /** formatTimestamp, from the formatter's parts and offset tag. */
  method FormatTimestamp(parts: seq<Part>, offsetLabel: string) returns (st: Stamp)
    ensures st == AssembleStamp(ByType(parts), ParseOffset(offsetLabel))
    ensures StartsWith(st.ts, st.dateKey + "T") && EndsWith(st.ts, ParseOffset(offsetLabel))
  {
    var byType := CollectParts(parts);
    st := AssembleStamp(byType, ParseOffset(offsetLabel));
    StampShape(byType, ParseOffset(offsetLabel));
  }

  /** formatConsoleTimestamp's `MM-DD HH:mm:ss`. */
  function AssembleConsoleStamp(m: map<string, string>): string {
    Field(m, "month", "00") + "-" + Field(m, "day", "00") + " " + Field(m, "hour", "00") + ":"
    + Field(m, "minute", "00") + ":" + Field(m, "second", "00")
  }

  method FormatConsoleTimestamp(parts: seq<Part>) returns (s: string)
    ensures s == AssembleConsoleStamp(ByType(parts))
  {
    var byType := CollectParts(parts);
    s := AssembleConsoleStamp(byType);
  }

  /** With all five parts two characters long the console stamp is 14
      characters, separated as `MM-DD HH:mm:ss`. */
  lemma ConsoleStampShape(m: map<string, string>)
    requires forall k :: k in ["month", "day", "hour", "minute", "second"] ==> k in m && |m[k]| == 2
    ensures var s := AssembleConsoleStamp(m);
      |s| == 14 && s[2] == '-' && s[5] == ' ' && s[8] == ':' && s[11] == ':'
  {
    assert "month" in ["month", "day", "hour", "minute", "second"];
    assert "day" in ["month", "day", "hour", "minute", "second"];
    assert "hour" in ["month", "day", "hour", "minute", "second"];
    assert "minute" in ["month", "day", "hour", "minute", "second"];
    assert "second" in ["month", "day", "hour", "minute", "second"];
    ConsoleLayout(m["month"], m["day"], m["hour"], m["minute"], m["second"]);
  }

  /** Five two-character fields joined by `-`, ` `, `:` and `:`. */
  lemma ConsoleLayout(mo: string, d: string, h: string, mi: string, se: string)
    requires |mo| == 2 && |d| == 2 && |h| == 2 && |mi| == 2 && |se| == 2
    ensures var s := mo + "-" + d + " " + h + ":" + mi + ":" + se;
      |s| == 14 && s[2] == '-' && s[5] == ' ' && s[8] == ':' && s[11] == ':'
  {
  }

  // ---------------------------------------------------------------------------
  // toMs
  // ---------------------------------------------------------------------------

  const MsPerDay: int := 24 * 60 * 60 * 1000

  /** `toMs(days)`: a whole number of days in milliseconds. */
  function ToMs(days: int): (ms: int)
    ensures ms % 86400000 == 0 && ms / 86400000 == days
    ensures days >= 0 ==> ms >= 0
  {
    days * MsPerDay
  }
}
