/** Reading a log file back: the lines of a segment are parsed one by one and
    the records that pass a filter are yielded in file order, up to a cap.
    The file itself is the sequence of its lines; `JSON.parse` of each line is
    part of the input (what the line parses to, or that parsing threw). */
module Reader {
  import opened Wrappers
  import opened Strings
  import opened Types

  /** What `JSON.parse` returned for a line. `Null` is the literal `null`, on
      which reading a property throws. Any other value is seen through the
      fields the reader inspects (a field that is missing or not a string is
      `None`) and through its `JSON.stringify` text. */
  datatype Parsed =
    | Null
    | Value(kind: Option<string>, lvl: Option<string>, traceId: Option<string>, json: string)

  /** One line of the file: its text, and its parse (`None` when parsing threw). */
  datatype Line = Line(text: string, parsed: Option<Parsed>)

  /** The reader's filter options; every one may be absent. */
  datatype Filter = Filter(
    minLevel: Option<Level>,
    maxLines: Option<int>,
    traceId: Option<string>,
    contains: Option<string>)

  const NoFilter: Filter := Filter(None, None, None, None)

  /** A string option used as a JavaScript condition: absent and "" are falsy. */
  predicate Truthy(s: Option<string>) {
    s.Some? && s.value != ""
  }

  /** The priority a record must reach. SYSTEM as the minimum switches level
      filtering off; every priority is at least 10, so a present minimum is
      always truthy. */
  function MinScore(f: Filter): (r: Option<nat>)
    ensures r.Some? <==> f.minLevel.Some? && f.minLevel.value != SYSTEM
    ensures r.Some? ==> r.value >= 10
  {
    if f.minLevel.Some? && f.minLevel.value != SYSTEM then Priority(f.minLevel.value) else None
  }

  /** A record's level score: SYSTEM ranks above every level, a name outside the
      priority table has no score (`undefined`, which compares false). */
  datatype Score = Infinite | Finite(n: nat) | Undefined

  function LevelScore(lvl: Option<string>): Score {
    if lvl == Some("SYSTEM") then Infinite
    else if lvl.Some? && PriorityOfName(lvl.value).Some? then Finite(PriorityOfName(lvl.value).value)
    else Undefined
  }

  /** `minScore && lvlScore < minScore`. */
  predicate BelowMin(minScore: Option<nat>, s: Score) {
    minScore.Some? && s.Finite? && s.n < minScore.value
  }

  /** A line the reader skips as empty: `line.trim()` is falsy exactly then. */
  predicate Blank(text: string) {
    forall i :: 0 <= i < |text| ==> IsWhitespace(text[i])
  }

  /** The per-line test: the line is not blank, parses to a value other than
      `null` that is not an EOF sentinel, and passes the level, trace id and substring filters. */
  predicate Passes(f: Filter, l: Line) {
    !Blank(l.text) && l.parsed.Some? && l.parsed.value.Value? &&
    var v := l.parsed.value;
    v.kind != Some("EOF") &&
    !BelowMin(MinScore(f), LevelScore(v.lvl)) &&
    !(Truthy(f.traceId) && v.traceId != f.traceId) &&
    !(Truthy(f.contains) && !Contains(v.json, f.contains.value))
  }

  /** The records of every passing line, in file order, ignoring the cap. */
  function Selected(f: Filter, lines: seq<Line>): (r: seq<Parsed>)
    ensures |r| <= |lines|
  {
    if lines == [] then []
    else
      var last := lines[|lines| - 1];
      Selected(f, lines[..|lines| - 1]) + (if Passes(f, last) then [last.parsed.value] else [])
  }

  /** The cap on yielded records: `maxLines` when truthy (non-zero); a negative
      cap is already reached before the first line. */
  function Bound(f: Filter): (r: Option<nat>)
    ensures r.Some? <==> f.maxLines.Some? && f.maxLines.value != 0
    ensures r.Some? && f.maxLines.value > 0 ==> r.value == f.maxLines.value
    ensures r.Some? && f.maxLines.value < 0 ==> r.value == 0
  {
    if f.maxLines.Some? && f.maxLines.value != 0 then
      Some(if f.maxLines.value < 0 then 0 else f.maxLines.value)
    else None
  }

  /** What the reader yields: the selected records, cut at the cap. */
  function Limited(f: Filter, lines: seq<Line>): seq<Parsed> {
    var s := Selected(f, lines);
    match Bound(f)
    case None => s
    case Some(b) => if |s| <= b then s else s[..b]
  }

  /** `createLogStream`: walks the lines, stopping as soon as the cap is reached,
      skipping blank lines, unparsable lines and the EOF sentinel, and applying
      the filters; yields exactly `Limited(f, lines)`. */
  method ReadLog(f: Filter, lines: seq<Line>) returns (out: seq<Parsed>)
    ensures out == Limited(f, lines)
  {
    out := [];
    var count := 0;
    var minScore := MinScore(f);
    var i := 0;
    while i < |lines|
      invariant 0 <= i <= |lines|
      invariant count == |out|
      invariant out == Selected(f, lines[..i])
      invariant Bound(f).Some? ==> count <= Bound(f).value
    {
      if f.maxLines.Some? && f.maxLines.value != 0 && count >= f.maxLines.value {
        CapReached(f, lines, i);
        return;
      }
      SelectedStep(f, lines, i);
      var keep := KeepLine(f, minScore, lines[i]);
      if keep {
        count := count + 1;
        out := out + [lines[i].parsed.value];
      }
      i := i + 1;
    }
    assert lines[..i] == lines;
  }

  /** The loop body's verdict on one line: blank lines, lines that did not
      parse, `null` (whose property read throws) and EOF sentinels are
      skipped, then the filters. */
  method KeepLine(f: Filter, minScore: Option<nat>, line: Line) returns (keep: bool)
    requires minScore == MinScore(f)
    ensures keep == Passes(f, line)
  {
    TrimEmptyIffBlank(line.text);
    if Trim(line.text) == "" {
      return false;
    }
    keep := false;
    match line.parsed {
      case None =>
      case Some(obj) =>
        if obj.Value? && obj.kind != Some("EOF") {
          var skip := SkipRecord(f, minScore, obj);
          PassesOfRecord(f, line);
          keep := !skip;
        }
    }
  }

  /** The three skip conditions of the loop body, in their order. */
  method SkipRecord(f: Filter, minScore: Option<nat>, obj: Parsed) returns (skip: bool)
    requires minScore == MinScore(f) && obj.Value?
    ensures skip <==> BelowMin(MinScore(f), LevelScore(obj.lvl)) ||
                      (Truthy(f.traceId) && obj.traceId != f.traceId) ||
                      (Truthy(f.contains) && !Contains(obj.json, f.contains.value))
  {
    var score := LevelScore(obj.lvl);
    skip := minScore.Some? && score.Finite? && score.n < minScore.value;
    skip := skip || (f.traceId.Some? && f.traceId.value != "" && obj.traceId != f.traceId);
    skip := skip || (f.contains.Some? && f.contains.value != "" && !Contains(obj.json, f.contains.value));
  }

  /** A non-blank line holding a non-`null` value that is not the EOF sentinel passes
      exactly when none of the three filters skips it. */
  lemma PassesOfRecord(f: Filter, l: Line)
    requires !Blank(l.text) && l.parsed.Some? && l.parsed.value.Value? && l.parsed.value.kind != Some("EOF")
    ensures var v := l.parsed.value;
      Passes(f, l) <==> !(BelowMin(MinScore(f), LevelScore(v.lvl)) ||
                          (Truthy(f.traceId) && v.traceId != f.traceId) ||
                          (Truthy(f.contains) && !Contains(v.json, f.contains.value)))
  {
  }

  /** Once the first `i` lines have filled the cap, the rest of the file adds
      nothing to what is yielded. */
  lemma CapReached(f: Filter, lines: seq<Line>, i: nat)
    requires i <= |lines| && Bound(f).Some? && |Selected(f, lines[..i])| == Bound(f).value
    ensures Limited(f, lines) == Selected(f, lines[..i])
  {
    SelectedPrefix(f, lines, i);
  }

  // ---------------------------------------------------------------------------
  // Properties
  // ---------------------------------------------------------------------------

  /** Selection works line by line: the records of two stretches of the file
      are those of the first followed by those of the second (file order). */
  lemma {:induction false} SelectedAppend(f: Filter, a: seq<Line>, b: seq<Line>)
    ensures Selected(f, a + b) == Selected(f, a) + Selected(f, b)
    decreases |b|
  {
    if b == [] {
      assert a + b == a;
    } else {
      var b' := b[..|b| - 1];
      assert (a + b)[..|a + b| - 1] == a + b';
      assert (a + b)[|a + b| - 1] == b[|b| - 1];
      SelectedAppend(f, a, b');
    }
  }

  /** Reading one more line adds that line's record when it passes. */
  lemma SelectedStep(f: Filter, lines: seq<Line>, i: nat)
    requires i < |lines|
    ensures Selected(f, lines[..i + 1]) ==
              Selected(f, lines[..i]) + (if Passes(f, lines[i]) then [lines[i].parsed.value] else [])
  {
    assert lines[..i + 1][..i] == lines[..i];
  }

  /** What the first `i` lines yield is a prefix of what the whole file yields. */
  lemma SelectedPrefix(f: Filter, lines: seq<Line>, i: nat)
    requires i <= |lines|
    ensures |Selected(f, lines[..i])| <= |Selected(f, lines)|
    ensures Selected(f, lines)[..|Selected(f, lines[..i])|] == Selected(f, lines[..i])
  {
    assert lines == lines[..i] + lines[i..];
    SelectedAppend(f, lines[..i], lines[i..]);
  }

  /** Every selected record comes from a passing line of the file. */
  lemma {:induction false} SelectedSound(f: Filter, lines: seq<Line>, r: Parsed)
    requires r in Selected(f, lines)
    ensures exists i :: 0 <= i < |lines| && Passes(f, lines[i]) && lines[i].parsed == Some(r)
    decreases |lines|
  {
    var n := |lines| - 1;
    var init := lines[..n];
    if r in Selected(f, init) {
      SelectedSound(f, init, r);
      var i :| 0 <= i < |init| && Passes(f, init[i]) && init[i].parsed == Some(r);
      assert lines[i] == init[i];
    } else {
      assert Passes(f, lines[n]) && lines[n].parsed == Some(r);
    }
  }

  /** Every passing line's record is selected. */
  lemma {:induction false} SelectedComplete(f: Filter, lines: seq<Line>, i: nat)
    requires i < |lines| && Passes(f, lines[i])
    ensures lines[i].parsed.value in Selected(f, lines)
    decreases |lines|
  {
    var n := |lines| - 1;
    var init := lines[..n];
    var tail := if Passes(f, lines[n]) then [lines[n].parsed.value] else [];
    assert Selected(f, lines) == Selected(f, init) + tail;
    if i < n {
      assert init[i] == lines[i];
      SelectedComplete(f, init, i);
    } else {
      assert tail == [lines[i].parsed.value];
    }
  }

  /** The cap: the reader yields a prefix of the selected records, exactly
      `min(selected, cap)` of them, and all of them when there is no cap. */
  lemma LimitedIsCappedPrefix(f: Filter, lines: seq<Line>)
    ensures |Limited(f, lines)| <= |Selected(f, lines)|
    ensures Limited(f, lines) == Selected(f, lines)[..|Limited(f, lines)|]
    ensures Bound(f).None? ==> Limited(f, lines) == Selected(f, lines)
    ensures Bound(f).Some? ==> |Limited(f, lines)| == Min(|Selected(f, lines)|, Bound(f).value)
  {
  }

  function Min(a: nat, b: nat): nat {
    if a <= b then a else b
  }

  /** What every yielded record satisfies: it is a value other than `null`, not an EOF
      sentinel, it carries the requested trace id and substring, and a level in
      the priority table is at least the requested minimum. */
  lemma YieldedSatisfiesFilter(f: Filter, lines: seq<Line>, r: Parsed)
    requires r in Limited(f, lines)
    ensures r.Value? && r.kind != Some("EOF")
    ensures Truthy(f.traceId) ==> r.traceId == f.traceId
    ensures Truthy(f.contains) ==> Contains(r.json, f.contains.value)
    ensures MinScore(f).Some? && r.lvl.Some? && PriorityOfName(r.lvl.value).Some? ==>
              PriorityOfName(r.lvl.value).value >= MinScore(f).value
  {
    LimitedIsCappedPrefix(f, lines);
    assert r in Selected(f, lines);
    SelectedSound(f, lines, r);
    var i :| 0 <= i < |lines| && Passes(f, lines[i]) && lines[i].parsed == Some(r);
    if MinScore(f).Some? && r.lvl.Some? && PriorityOfName(r.lvl.value).Some? {
      assert r.lvl != Some("SYSTEM");
      assert LevelScore(r.lvl) == Finite(PriorityOfName(r.lvl.value).value);
    }
  }

  /** Without a cap, a line is yielded exactly when it passes the filter. */
  lemma UncappedYieldsEveryPassingLine(f: Filter, lines: seq<Line>, i: nat)
    requires Bound(f).None? && i < |lines| && Passes(f, lines[i])
    ensures lines[i].parsed.value in Limited(f, lines)
  {
    SelectedComplete(f, lines, i);
  }

  /** SYSTEM records and records whose level is not in the priority table pass
      any level filter: for them the minimum level makes no difference. */
  lemma LevelFilterSparesSystemAndUnknown(f: Filter, l: Line)
    requires l.parsed.Some? && l.parsed.value.Value?
    requires l.parsed.value.lvl.None? || l.parsed.value.lvl == Some("SYSTEM")
             || PriorityOfName(l.parsed.value.lvl.value).None?
    ensures Passes(f, l) <==> Passes(f.(minLevel := None), l)
  {
  }

  /** A SYSTEM minimum switches level filtering off for the whole file. */
  lemma {:induction false} SystemMinimumFiltersNothing(f: Filter, lines: seq<Line>)
    requires f.minLevel == Some(SYSTEM)
    ensures Selected(f, lines) == Selected(f.(minLevel := None), lines)
    decreases |lines|
  {
    if lines != [] {
      SystemMinimumFiltersNothing(f, lines[..|lines| - 1]);
    }
  }

  /** Falsy options filter nothing: an empty trace id, an empty substring and a
      zero cap behave as if absent. */
  lemma {:induction false} FalsyOptionsAreIgnored(f: Filter, lines: seq<Line>)
    requires f.traceId == Some("") && f.contains == Some("") && f.maxLines == Some(0)
    ensures Limited(f, lines) == Limited(f.(traceId := None, contains := None, maxLines := None), lines)
    decreases |lines|
  {
    if lines != [] {
      FalsyOptionsAreIgnored(f, lines[..|lines| - 1]);
    }
  }

  /** With no options, the reader yields every non-blank line that parses to a
      value other than `null` and is not an EOF sentinel. */
  lemma NoFilterPassesEveryRecord(l: Line)
    ensures Passes(NoFilter, l) <==>
              !Blank(l.text) && l.parsed.Some? && l.parsed.value.Value? && l.parsed.value.kind != Some("EOF")
  {
  }

  /** A higher minimum never yields more: every record that passes a minimum
      also passes any lower one. */
  lemma RaisingMinimumNarrows(f: Filter, low: Level, high: Level, l: Line)
    requires Priority(low).Some? && Priority(high).Some? && Priority(low).value <= Priority(high).value
    requires Passes(f.(minLevel := Some(high)), l)
    ensures Passes(f.(minLevel := Some(low)), l)
  {
  }

  // ---------------------------------------------------------------------------
  // The reader scenario: INFO, WARN t1, ERROR t2 and an EOF sentinel, read with
  // minimum level WARN and trace id t2, yield the ERROR record alone.
  // ---------------------------------------------------------------------------

  const InfoJson: string := "{\"lvl\":\"INFO\",\"msg\":\"ok\"}"
  const WarnJson: string := "{\"lvl\":\"WARN\",\"msg\":\"warn\",\"traceId\":\"t1\"}"
  const ErrorJson: string := "{\"lvl\":\"ERROR\",\"msg\":\"err\",\"traceId\":\"t2\"}"
  const EofJson: string := "{\"level\":\"SYSTEM\",\"type\":\"EOF\"}"

  const ErrorValue: Parsed := Value(None, Some("ERROR"), Some("t2"), ErrorJson)

  function ScenarioLines(): seq<Line> {
    [ Line(InfoJson, Some(Value(None, Some("INFO"), None, InfoJson))),
      Line(WarnJson, Some(Value(None, Some("WARN"), Some("t1"), WarnJson))),
      Line(ErrorJson, Some(ErrorValue)),
      Line(EofJson, Some(Value(Some("EOF"), None, None, EofJson))) ]
  }

  const ScenarioFilter: Filter := Filter(Some(WARN), None, Some("t2"), None)

  /** The INFO line is below the minimum, the WARN line has another trace id,
      the EOF sentinel is skipped; only the ERROR line passes. */
  lemma ScenarioLineVerdicts()
    ensures !Passes(ScenarioFilter, ScenarioLines()[0])
    ensures !Passes(ScenarioFilter, ScenarioLines()[1])
    ensures Passes(ScenarioFilter, ScenarioLines()[2])
    ensures !Passes(ScenarioFilter, ScenarioLines()[3])
  {
    assert ErrorJson[0] == '{' && !IsWhitespace(ErrorJson[0]);
    assert LevelScore(Some("INFO")) == Finite(30);
    assert LevelScore(Some("ERROR")) == Finite(50);
  }

  lemma ScenarioYieldsErrorOnly()
    ensures Limited(ScenarioFilter, ScenarioLines()) == [ErrorValue]
  {
    var ls := ScenarioLines();
    ScenarioLineVerdicts();
    assert ls[..0] == [];
    SelectedStep(ScenarioFilter, ls, 0);
    SelectedStep(ScenarioFilter, ls, 1);
    SelectedStep(ScenarioFilter, ls, 2);
    SelectedStep(ScenarioFilter, ls, 3);
    assert ls[..4] == ls;
  }
}
