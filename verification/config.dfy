/** Option resolution: timezone normalisation and the three-way merge of
    defaults, the working-directory config file and the caller's options.
    Reading the config file is outside the model; its parsed content (or no
    fields at all when it is missing or unparseable) is an input. */
module Config {
  import opened Wrappers
  import opened Strings
  import opened Types

  // ---------------------------------------------------------------------------
  // normalizeTimeZone: /^UTC([+-])(\d{1,2})(?::?(\d{2}))?$/i on the trimmed input
  // ---------------------------------------------------------------------------

  datatype UtcMatch = UtcMatch(sign: char, hours: string, minutes: Option<string>)

  /** The anchored, case-insensitive match. After "UTC" and the sign, the rest
      is one of: H, HH, HMM (the greedy hour group gives back a digit so that
      the minutes fit), HHMM, H:MM, HH:MM. */
  function MatchUtc(t: string): (r: Option<UtcMatch>)
    ensures r.Some? ==> UtcPrefix(t) && r.value.sign == t[3]
    ensures r.Some? ==> 1 <= |r.value.hours| <= 2 && AllDigits(r.value.hours)
    ensures r.Some? && r.value.minutes.Some? ==> |r.value.minutes.value| == 2 && AllDigits(r.value.minutes.value)
  {
    if !UtcPrefix(t) then None else MatchUtcRest(t[3], t[4..])
  }

  /** "UTC" in any letter case, then a sign, then at least one more character. */
  predicate UtcPrefix(t: string) {
    5 <= |t| && (t[0] == 'U' || t[0] == 'u') && (t[1] == 'T' || t[1] == 't')
    && (t[2] == 'C' || t[2] == 'c') && (t[3] == '+' || t[3] == '-')
  }

  function MatchUtcRest(sign: char, r: string): (m: Option<UtcMatch>)
    ensures m.Some? ==> m.value.sign == sign
    ensures m.Some? ==> 1 <= |m.value.hours| <= 2 && AllDigits(m.value.hours)
    ensures m.Some? && m.value.minutes.Some? ==> |m.value.minutes.value| == 2 && AllDigits(m.value.minutes.value)
  {
    if 1 <= |r| <= 2 && AllDigits(r) then Some(UtcMatch(sign, r, None))
    else if |r| == 3 && AllDigits(r) then Some(UtcMatch(sign, r[..1], Some(r[1..])))
    else if |r| == 4 && AllDigits(r) then Some(UtcMatch(sign, r[..2], Some(r[2..])))
    else if |r| == 4 && IsDigit(r[0]) && r[1] == ':' && AllDigits(r[2..]) then Some(UtcMatch(sign, r[..1], Some(r[2..])))
    else if |r| == 5 && AllDigits(r[..2]) && r[2] == ':' && AllDigits(r[3..]) then Some(UtcMatch(sign, r[..2], Some(r[3..])))
    else None
  }

  /** The Etc/GMT zone for a whole-hour UTC offset; Etc/GMT inverts the sign. */
  function EtcZone(sign: char, hours: string): string
    requires AllDigits(hours)
  {
    "Etc/GMT" + [if sign == '+' then '-' else '+'] + NatToString(DigitsValue(hours))
  }

  /** `normalizeTimeZone(tz)`. */
  function NormalizeTimeZone(tz: string): (r: string)
    ensures MatchUtc(Trim(tz)).None? ==> r == Trim(tz)
  {
    NormalizeTrimmedZone(Trim(tz))
  }

  /** The body of `normalizeTimeZone` once the input is trimmed. */
  function NormalizeTrimmedZone(trimmed: string): string {
    match MatchUtc(trimmed)
    case None => trimmed
    case Some(m) =>
      var hh := PadStart(m.hours, 2, '0');
      var mm := match m.minutes case Some(x) => PadStart(x, 2, '0') case None => "00";
      if mm != "00" then trimmed else EtcZone(m.sign, hh)
  }

  /** A matched offset with no minutes, or ":00", becomes Etc/GMT with the sign
      inverted and the hour without leading zeros; any other minutes leave the
      trimmed input as it is. */
  lemma NormalizeMatched(tz: string)
    requires MatchUtc(Trim(tz)).Some?
    ensures var m := MatchUtc(Trim(tz)).value;
      var r := NormalizeTimeZone(tz);
      if m.minutes.None? || m.minutes == Some("00") then
        StartsWith(r, "Etc/GMT") && r[7] == (if m.sign == '+' then '-' else '+')
        && AllDigits(r[8..]) && DigitsValue(r[8..]) == DigitsValue(m.hours)
        && (|r[8..]| > 1 ==> r[8] != '0')
      else r == Trim(tz)
  {
    var m := MatchUtc(Trim(tz)).value;
    NormalizeCases(tz);
    if m.minutes.None? || m.minutes == Some("00") {
      EtcZoneOfPadded(m.sign, m.hours);
    }
  }

  /** Which branch `normalizeTimeZone` takes on a matched offset. */
  lemma NormalizeCases(tz: string)
    requires MatchUtc(Trim(tz)).Some?
    ensures var m := MatchUtc(Trim(tz)).value;
      NormalizeTimeZone(tz) ==
        if m.minutes.None? || m.minutes == Some("00") then EtcZone(m.sign, PadStart(m.hours, 2, '0'))
        else Trim(tz)
  {
    var m := MatchUtc(Trim(tz)).value;
    PaddingKeepsValue(m.hours);
    if m.minutes.Some? {
      PadStartNoop(m.minutes.value, 2, '0');
    }
  }

  /** The Etc/GMT zone built from padded hours shows their value, unpadded. */
  lemma EtcZoneOfPadded(sign: char, hours: string)
    requires 1 <= |hours| <= 2 && AllDigits(hours)
    ensures AllDigits(PadStart(hours, 2, '0'))
    ensures var r := EtcZone(sign, PadStart(hours, 2, '0'));
      StartsWith(r, "Etc/GMT") && r[7] == (if sign == '+' then '-' else '+')
      && AllDigits(r[8..]) && DigitsValue(r[8..]) == DigitsValue(hours)
      && (|r[8..]| > 1 ==> r[8] != '0')
  {
    var hh := PadStart(hours, 2, '0');
    PaddingKeepsValue(hours);
    EtcZoneParts(sign, hh);
    NatToStringRoundTrip(DigitsValue(hh));
  }

  /** The pieces of an Etc/GMT zone: the prefix, the inverted sign, the hour. */
  lemma EtcZoneParts(sign: char, hours: string)
    requires AllDigits(hours)
    ensures var z := EtcZone(sign, hours);
      StartsWith(z, "Etc/GMT") && |z| > 8 && z[7] == (if sign == '+' then '-' else '+')
      && z[8..] == NatToString(DigitsValue(hours))
  {
    var head := "Etc/GMT" + [if sign == '+' then '-' else '+'];
    var z := EtcZone(sign, hours);
    assert z == head + NatToString(DigitsValue(hours));
    assert z[..7] == "Etc/GMT";
  }

  /** Zero-padding a digit string does not change its value. */
  lemma PaddingKeepsValue(s: string)
    requires 1 <= |s| <= 2 && AllDigits(s)
    ensures AllDigits(PadStart(s, 2, '0')) && DigitsValue(PadStart(s, 2, '0')) == DigitsValue(s)
  {
    var p := PadStart(s, 2, '0');
    if |s| == 1 {
      assert p == "0" + s;
      assert p[..1] == "0";
      assert s[..0] == "";
    } else {
      assert p == s;
    }
  }

  /** An Etc/GMT zone is left as it is. */
  lemma EtcZoneIsFixed(sign: char, hours: string)
    requires AllDigits(hours)
    ensures NormalizeTimeZone(EtcZone(sign, hours)) == EtcZone(sign, hours)
  {
    var z := EtcZone(sign, hours);
    EtcZoneEdges(sign, hours);
    TrimNoEdgeWhitespace(z);
    NotUtc(z);
  }

  /** An Etc/GMT zone starts with 'E' and ends with a digit. */
  lemma EtcZoneEdges(sign: char, hours: string)
    requires AllDigits(hours)
    ensures var z := EtcZone(sign, hours); |z| > 8 && z[0] == 'E' && IsDigit(z[|z| - 1])
  {
    var digits := NatToString(DigitsValue(hours));
    var head := "Etc/GMT" + [if sign == '+' then '-' else '+'];
    var z := EtcZone(sign, hours);
    assert z == head + digits;
    assert z[|z| - 1] == digits[|digits| - 1];
  }

  /** Text not starting with a 'U' is no UTC offset. */
  lemma NotUtc(t: string)
    requires |t| > 0 && t[0] != 'U' && t[0] != 'u'
    ensures MatchUtc(t).None?
  {
  }

  /** Normalisation only sees the trimmed input. */
  lemma NormalizeTrimmed(tz: string)
    ensures NormalizeTimeZone(Trim(tz)) == NormalizeTimeZone(tz)
  {
    TrimIdempotent(tz);
  }

  /** Normalising twice gives the same zone as normalising once. */
  lemma NormalizeIdempotent(tz: string)
    ensures NormalizeTimeZone(NormalizeTimeZone(tz)) == NormalizeTimeZone(tz)
  {
    var t := Trim(tz);
    var r := NormalizeTimeZone(tz);
    if r == t {
      NormalizeTrimmed(tz);
    } else {
      var m := MatchUtc(t).value;
      var hh := PadStart(m.hours, 2, '0');
      PaddingKeepsValue(m.hours);
      assert r == EtcZone(m.sign, hh);
      EtcZoneIsFixed(m.sign, hh);
    }
  }

  /** "UTC+8" becomes "Etc/GMT-8". */
  lemma NormalizeUtcPlusEight()
    ensures NormalizeTimeZone("UTC+8") == "Etc/GMT-8"
  {
    var t := "UTC+8";
    TrimNoEdgeWhitespace(t);
    UtcPlusEightMatches();
    var hh := PadStart("8", 2, '0');
    assert hh == "08";
    assert EtcZone('+', "08") == "Etc/GMT-8" by {
      assert DigitsValue("08") == 8 by {
        assert "08"[..1] == "0";
      }
      assert NatToString(8) == "8";
    }
  }

  lemma UtcPlusEightMatches()
    ensures MatchUtc("UTC+8") == Some(UtcMatch('+', "8", None))
  {
    var t := "UTC+8";
    assert UtcPrefix(t);
    assert t[4..] == "8";
  }

  /** A named zone is only trimmed. */
  lemma NormalizeNamedZone()
    ensures NormalizeTimeZone(" Asia/Tokyo") == "Asia/Tokyo"
  {
    var a := "Asia/Tokyo";
    LeadingSpaceTrimmed(a);
    NotUtc(a);
  }

  /** One leading space is trimmed from a name without edge whitespace. */
  lemma LeadingSpaceTrimmed(a: string)
    requires a != "" && !IsWhitespace(a[0]) && !IsWhitespace(a[|a| - 1])
    ensures Trim(" " + a) == a
  {
    var s := " " + a;
    assert s[1..] == a;
    TrimStartSkips(s);
    TrimNoEdgeWhitespace(a);
  }

  // ---------------------------------------------------------------------------
  // resolveOptions: { ...DEFAULTS, ...cwdConfig, ...user } and `??` fallbacks
  // ---------------------------------------------------------------------------

  /** One option key of a JavaScript object: not present, present but
      `undefined`, present and `null`, or present with a value. */
  datatype Field<T> = Absent | Undefined | Null | Given(value: T)

  /** Object spread: a later object's key, when present (even as `undefined`),
      replaces the earlier one's. */
  function Spread<T>(earlier: Field<T>, later: Field<T>): Field<T> {
    if later.Absent? then earlier else later
  }

  /** `f ?? default`. */
  function Coalesce<T>(f: Field<T>, default: T): T {
    if f.Given? then f.value else default
  }

  /** The merge order: the first source that has the key decides, user first,
      then the config file, then the defaults; if the deciding key holds
      `undefined` or `null` the default applies, whatever the other sources say. */
  lemma {:induction false} FieldPrecedence<T>(d: Field<T>, c: Field<T>, u: Field<T>, default: T)
    ensures Coalesce(Spread(Spread(d, c), u), default) ==
      if !u.Absent? then Coalesce(u, default)
      else if !c.Absent? then Coalesce(c, default)
      else Coalesce(d, default)
  {
  }

  datatype PidMode = Independent | IpcMaster

  /** The optional options (BaseLoggerOptions without app and version). */
  datatype BaseOptions = BaseOptions(
    logDir: Field<string>,
    level: Field<string>,
    timezone: Field<string>,
    pidMode: Field<PidMode>,
    maxFileSizeBytes: Field<int>,
    maxTotalSizeBytes: Field<int>,
    maxFiles: Field<int>,
    maxFileAgeDays: Field<int>,
    flushIntervalMs: Field<int>,
    batchSizeBytes: Field<int>,
    highWaterMark: Field<int>)

  /** What the caller passes: app and version are required. */
  datatype UserOptions = UserOptions(app: string, version: string, rest: BaseOptions)

  /** The config file's contribution when it is missing or does not parse. */
  const NoConfig: BaseOptions := BaseOptions(Absent, Absent, Absent, Absent, Absent, Absent, Absent, Absent, Absent, Absent, Absent)

  const DefaultLogDir: string := "./logs"
  const DefaultMaxFileSizeBytes: int := 3 * 1024 * 1024
  const DefaultTimezone: string := "UTC+8"
  const DefaultMaxTotalSizeBytes: int := 800 * 1024 * 1024
  const DefaultMaxFileAgeDays: int := 7
  const DefaultFlushIntervalMs: int := 1000
  const DefaultBatchSizeBytes: int := 4096
  const DefaultHighWaterMark: int := 64 * 1024
  const DefaultLevel: string := "INFO"

  /** `DEFAULTS`; maxFiles is present and `null`. */
  const Defaults: BaseOptions := BaseOptions(
    Given(DefaultLogDir), Given(DefaultLevel), Given(DefaultTimezone), Given(Independent),
    Given(DefaultMaxFileSizeBytes), Given(DefaultMaxTotalSizeBytes), Null, Given(DefaultMaxFileAgeDays),
    Given(DefaultFlushIntervalMs), Given(DefaultBatchSizeBytes), Given(DefaultHighWaterMark))

  /** `{ ...earlier, ...later }`, key by key. */
  function SpreadOptions(earlier: BaseOptions, later: BaseOptions): BaseOptions {
    BaseOptions(
      Spread(earlier.logDir, later.logDir),
      Spread(earlier.level, later.level),
      Spread(earlier.timezone, later.timezone),
      Spread(earlier.pidMode, later.pidMode),
      Spread(earlier.maxFileSizeBytes, later.maxFileSizeBytes),
      Spread(earlier.maxTotalSizeBytes, later.maxTotalSizeBytes),
      Spread(earlier.maxFiles, later.maxFiles),
      Spread(earlier.maxFileAgeDays, later.maxFileAgeDays),
      Spread(earlier.flushIntervalMs, later.flushIntervalMs),
      Spread(earlier.batchSizeBytes, later.batchSizeBytes),
      Spread(earlier.highWaterMark, later.highWaterMark))
  }

  datatype ResolvedOptions = ResolvedOptions(
    app: string,
    version: string,
    logDir: string,
    level: Level,
    timezone: string,
    pidMode: PidMode,
    maxFileSizeBytes: int,
    maxTotalSizeBytes: int,
    maxFiles: Option<int>,
    maxFileAgeDays: int,
    flushIntervalMs: int,
    batchSizeBytes: int,
    highWaterMark: int)

  /** The level step: upper-case the candidate and keep it only if it is a key
      of the priority table (SYSTEM is not); otherwise INFO. */
  function ResolveLevel(candidate: string): (l: Level)
    ensures Priority(l).Some?
    ensures PriorityOfName(ToUpper(candidate)).Some? ==> LevelName(l) == ToUpper(candidate)
    ensures PriorityOfName(ToUpper(candidate)).None? ==> l == INFO
  {
    var upper := ToUpper(candidate);
    match LevelFromName(upper)
    case Some(l) => if Priority(l).Some? then l else INFO
    case None => INFO
  }

  /** `resolveOptions(user)` with the config file's parsed content as an input. */
  function ResolveOptions(user: UserOptions, fileConfig: BaseOptions): (r: ResolvedOptions)
    ensures Priority(r.level).Some? && r.level != SYSTEM
    ensures r.app == user.app && r.version == user.version
  {
    var merged := SpreadOptions(SpreadOptions(Defaults, fileConfig), user.rest);
    ResolvedOptions(
      user.app,
      user.version,
      Coalesce(merged.logDir, DefaultLogDir),
      ResolveLevel(Coalesce(merged.level, DefaultLevel)),
      NormalizeTimeZone(Coalesce(merged.timezone, DefaultTimezone)),
      Coalesce(merged.pidMode, Independent),
      Coalesce(merged.maxFileSizeBytes, DefaultMaxFileSizeBytes),
      Coalesce(merged.maxTotalSizeBytes, DefaultMaxTotalSizeBytes),
      if merged.maxFiles.Given? then Some(merged.maxFiles.value) else None,
      Coalesce(merged.maxFileAgeDays, DefaultMaxFileAgeDays),
      Coalesce(merged.flushIntervalMs, DefaultFlushIntervalMs),
      Coalesce(merged.batchSizeBytes, DefaultBatchSizeBytes),
      Coalesce(merged.highWaterMark, DefaultHighWaterMark))
  }

  /** The caller's values win over the config file's, the config file's over
      the defaults; an explicit `undefined` or `null` from the caller restores
      the default even when the config file sets the key. Shown for the level
      and the segment size; every other key is merged by the same `Spread`. */
  lemma ResolvePrecedence(user: UserOptions, fileConfig: BaseOptions)
    ensures user.rest.maxFileSizeBytes.Given? ==>
      ResolveOptions(user, fileConfig).maxFileSizeBytes == user.rest.maxFileSizeBytes.value
    ensures user.rest.maxFileSizeBytes.Absent? && fileConfig.maxFileSizeBytes.Given? ==>
      ResolveOptions(user, fileConfig).maxFileSizeBytes == fileConfig.maxFileSizeBytes.value
    ensures (user.rest.maxFileSizeBytes.Undefined? || user.rest.maxFileSizeBytes.Null?) ==>
      ResolveOptions(user, fileConfig).maxFileSizeBytes == DefaultMaxFileSizeBytes
    ensures user.rest.level.Absent? && fileConfig.level.Absent? ==>
      ResolveOptions(user, fileConfig).level == INFO
    ensures fileConfig == NoConfig && user.rest.maxFiles.Absent? ==>
      ResolveOptions(user, fileConfig).maxFiles == None
  {
    FieldPrecedence(Defaults.maxFileSizeBytes, fileConfig.maxFileSizeBytes, user.rest.maxFileSizeBytes, DefaultMaxFileSizeBytes);
    assert ToUpper("INFO") == "INFO";
  }

  /** With no caller or config-file timezone, the default "UTC+8" resolves to
      the Etc/GMT-8 zone. */
  lemma DefaultTimezoneResolves(user: UserOptions)
    requires user.rest.timezone.Absent?
    ensures ResolveOptions(user, NoConfig).timezone == "Etc/GMT-8"
  {
    NormalizeUtcPlusEight();
  }
}
