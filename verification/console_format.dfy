/** The coloured one-line rendering of a record for the terminal. The console
    timestamp text (the output of `formatConsoleTimestamp`, which depends on
    `Intl`) is an input. */
module ConsoleFormat {
  import opened Wrappers
  import opened Strings
  import opened Types

  const Esc: char := '\U{1B}'

  const Reset: string := "\U{1B}[0m"
  const Dim: string := "\U{1B}[2m"
  const Gray: string := "\U{1B}[90m"
  const White: string := "\U{1B}[37m"
  const Cyan: string := "\U{1B}[36m"
  const Blue: string := "\U{1B}[34m"
  const Yellow: string := "\U{1B}[33m"
  const Red: string := "\U{1B}[31m"
  const Magenta: string := "\U{1B}[35m"
  const BgRed: string := "\U{1B}[41m"
  const BgYellow: string := "\U{1B}[43m"
  const BgBlue: string := "\U{1B}[44m"
  const BgMagenta: string := "\U{1B}[45m"
  const BgGreen: string := "\U{1B}[42m"

  /** `color(text, code)`: the text between the code and the reset sequence,
      recoverable from the result by position. */
  function Color(text: string, code: string): (r: string)
    ensures StartsWith(r, code) && EndsWith(r, Reset)
    ensures |r| == |code| + |text| + |Reset|
    ensures r[|code|..|code| + |text|] == text
  {
    code + text + Reset
  }

  /** The background of a level label; any name not listed, SYSTEM among
      them, falls to the magenta default. */
  function Background(lvl: string): string {
    if lvl == "ERROR" || lvl == "ASSERT" then BgRed
    else if lvl == "WARN" then BgYellow
    else if lvl == "INFO" then BgBlue
    else if lvl == "DEBUG" then BgGreen
    else if lvl == "VERBOSE" then BgMagenta
    else if lvl == "SECURITY" then BgRed
    else if lvl == "PERFORMANCE" then BgBlue
    else BgMagenta
  }

  /** `levelStyle(lvl)`: the name right-padded with spaces to at least nine
      characters, never cut, in white on the level's background. */
  function LevelStyle(lvl: string): (r: string)
    ensures StartsWith(r, Background(lvl) + White) && EndsWith(r, Reset)
    ensures |r| == |Background(lvl) + White| + (if |lvl| < 9 then 9 else |lvl|) + |Reset|
    ensures var shown := r[|Background(lvl) + White|..|r| - |Reset|];
      StartsWith(shown, lvl)
      && (forall i :: |lvl| <= i < |shown| ==> shown[i] == ' ')
  {
    Color(PadEnd(lvl, 9, ' '), Background(lvl) + White)
  }

  /** Which levels get which background: red exactly for the three direct
      levels, and the magenta default for SYSTEM. */
  lemma LevelBackgrounds(l: Level)
    ensures Background(LevelName(l)) == BgRed <==> l in {ERROR, ASSERT, SECURITY}
    ensures Background(LevelName(l)) == BgYellow <==> l == WARN
    ensures Background(LevelName(l)) == BgBlue <==> l in {INFO, PERFORMANCE}
    ensures Background(LevelName(l)) == BgGreen <==> l == DEBUG
    ensures Background(LevelName(l)) == BgMagenta <==> l in {VERBOSE, SYSTEM}
  {
  }

  /** The module part: nothing when the module is absent or empty (both falsy),
      otherwise a space and the module in blue. */
  function ModPart(mod: Option<string>): (r: string)
    ensures r == "" <==> mod.None? || mod.value == ""
    ensures r != "" ==> r[0] == ' ' && r[1..] == Color(mod.value, Blue)
  {
    if mod.Some? && mod.value != "" then " " + Color(mod.value, Blue) else ""
  }

  /** Whether the context is shown: asked for, present, with at least one key. */
  predicate ShowsContext(ctx: Option<Context>, includeContext: bool) {
    includeContext && ctx.Some? && |ctx.value.keys| > 0
  }

  /** The text shown for a context: its JSON, or `[ctx_error]` when
      stringifying throws. */
  function ContextText(c: Context): string {
    c.json.GetOr("[ctx_error]")
  }

  /** The context part: empty unless the context is shown; then a space and
      the context text in gray. */
  function CtxPart(ctx: Option<Context>, includeContext: bool): (r: string)
    ensures r == "" <==> !ShowsContext(ctx, includeContext)
    ensures r != "" ==> r[0] == ' ' && r[1..] == Color(ContextText(ctx.value), Gray)
  {
    if ShowsContext(ctx, includeContext) then " " + Color(ContextText(ctx.value), Gray) else ""
  }

  /** `formatConsoleLine(record, timeZone, includeContext)`, with the console
      timestamp for `record.ts` already formatted. */
  function FormatConsoleLine(record: LogRecord, consoleTs: string, includeContext: bool): (line: string)
    ensures PlainRecord(record, consoleTs) ==>
      Visible(line) == consoleTs + " " + PadEnd(LevelName(record.lvl), 9, ' ') + " " + record.app
                       + ModText(record.mod) + " > " + record.msg + CtxText(record.ctx, includeContext)
  {
    var tsPart := Color(consoleTs, Gray + Dim);
    var lvlPart := LevelStyle(LevelName(record.lvl));
    var appPart := Color(record.app, Cyan);
    var modPart := ModPart(record.mod);
    var msgPart := Color(record.msg, White);
    var ctxPart := CtxPart(record.ctx, includeContext);
    AssembledLineVisible(record, consoleTs, includeContext);
    tsPart + " " + lvlPart + " " + appPart + modPart + " > " + msgPart + ctxPart
  }

  /** Without context the line is the one for the same record with no context
      at all. */
  lemma ContextSwitchedOff(record: LogRecord, consoleTs: string)
    ensures FormatConsoleLine(record, consoleTs, false) == FormatConsoleLine(record.(ctx := None), consoleTs, true)
  {
  }

  /** An empty module name renders exactly like an absent one. */
  lemma EmptyModuleIsAbsent(record: LogRecord, consoleTs: string, includeContext: bool)
    ensures FormatConsoleLine(record.(mod := Some("")), consoleTs, includeContext)
         == FormatConsoleLine(record.(mod := None), consoleTs, includeContext)
  {
  }

  // ---------------------------------------------------------------------------
  // What the terminal shows: the line with every SGR sequence removed
  // ---------------------------------------------------------------------------

  predicate NoEsc(s: string) {
    forall i :: 0 <= i < |s| ==> s[i] != Esc
  }

  /** A select-graphic-rendition sequence: ESC, then anything but 'm', then 'm'. */
  predicate IsSgr(c: string) {
    |c| >= 2 && c[0] == Esc && c[|c| - 1] == 'm' && forall i :: 1 <= i < |c| - 1 ==> c[i] != 'm'
  }

  /** What follows the first 'm'. */
  function AfterSgr(s: string): (r: string)
    ensures |r| <= |s|
  {
    if s == [] then [] else if s[0] == 'm' then s[1..] else AfterSgr(s[1..])
  }

  /** The visible text of a line: each ESC starts a sequence that runs through
      the next 'm' and is not shown. */
  function Visible(s: string): (r: string)
    ensures |r| <= |s| && NoEsc(r)
    decreases |s|
  {
    if s == [] then []
    else if s[0] == Esc then Visible(AfterSgr(s[1..]))
    else [s[0]] + Visible(s[1..])
  }

  lemma {:induction false} VisiblePlainPrefix(a: string, b: string)
    requires NoEsc(a)
    ensures Visible(a + b) == a + Visible(b)
  {
    if a != [] {
      var ab := a + b;
      assert ab[0] == a[0] && a[0] != Esc;
      assert ab[1..] == a[1..] + b;
      assert Visible(ab) == [a[0]] + Visible(a[1..] + b);
      VisiblePlainPrefix(a[1..], b);
      assert a == [a[0]] + a[1..];
    } else {
      assert a + b == b;
    }
  }

  lemma {:induction false} AfterSgrSkips(x: string, rest: string)
    requires forall i :: 0 <= i < |x| ==> x[i] != 'm'
    ensures AfterSgr(x + "m" + rest) == rest
  {
    if x == [] {
      assert ("m" + rest)[1..] == rest;
    } else {
      assert (x + "m" + rest)[1..] == x[1..] + "m" + rest;
      AfterSgrSkips(x[1..], rest);
    }
  }

  lemma VisibleSgr(c: string, rest: string)
    requires IsSgr(c)
    ensures Visible(c + rest) == Visible(rest)
  {
    var x := c[1..|c| - 1];
    assert c == c[..1] + x + c[|c| - 1..];
    assert c[..1] == [Esc] && c[|c| - 1..] == "m";
    assert (c + rest)[1..] == x + "m" + rest;
    forall i | 0 <= i < |x| ensures x[i] != 'm' {
      assert x[i] == c[i + 1];
    }
    AfterSgrSkips(x, rest);
  }

  lemma CodesAreSgr()
    ensures IsSgr(Reset) && IsSgr(Dim) && IsSgr(Gray) && IsSgr(White) && IsSgr(Cyan) && IsSgr(Blue)
    ensures IsSgr(BgRed) && IsSgr(BgYellow) && IsSgr(BgBlue) && IsSgr(BgMagenta) && IsSgr(BgGreen)
  {
  }

  /** A coloured plain text shows as the text. */
  lemma VisibleColor(text: string, code: string, rest: string)
    requires IsSgr(code) && NoEsc(text)
    ensures Visible(Color(text, code) + rest) == text + Visible(rest)
  {
    CodesAreSgr();
    assert Color(text, code) + rest == code + (text + (Reset + rest));
    VisibleSgr(code, text + (Reset + rest));
    VisiblePlainPrefix(text, Reset + rest);
    VisibleSgr(Reset, rest);
  }

  /** The same for a code made of two sequences. */
  lemma VisibleColor2(text: string, c1: string, c2: string, rest: string)
    requires IsSgr(c1) && IsSgr(c2) && NoEsc(text)
    ensures Visible(Color(text, c1 + c2) + rest) == text + Visible(rest)
  {
    assert Color(text, c1 + c2) + rest == c1 + (Color(text, c2) + rest);
    VisibleSgr(c1, Color(text, c2) + rest);
    VisibleColor(text, c2, rest);
  }

  lemma PaddedNameIsPlain(l: Level)
    ensures NoEsc(PadEnd(LevelName(l), 9, ' '))
  {
    var n := LevelName(l);
    var p := PadEnd(n, 9, ' ');
    assert NoEsc(n);
    forall i | 0 <= i < |p| ensures p[i] != Esc {
      if i < |n| {
        assert p[i] == n[i];
      }
    }
  }

  /** The visible module and context parts. */
  function ModText(mod: Option<string>): string {
    if mod.Some? && mod.value != "" then " " + mod.value else ""
  }

  function CtxText(ctx: Option<Context>, includeContext: bool): string
    requires ShowsContext(ctx, includeContext) ==> ctx.Some?
  {
    if ShowsContext(ctx, includeContext) then " " + ContextText(ctx.value) else ""
  }

  predicate PlainRecord(record: LogRecord, consoleTs: string) {
    NoEsc(consoleTs) && NoEsc(record.app) && NoEsc(record.msg)
    && (record.mod.Some? ==> NoEsc(record.mod.value))
    && (record.ctx.Some? ==> NoEsc(ContextText(record.ctx.value)))
  }

  lemma VisibleModPart(mod: Option<string>, rest: string)
    requires mod.Some? ==> NoEsc(mod.value)
    ensures Visible(ModPart(mod) + rest) == ModText(mod) + Visible(rest)
  {
    CodesAreSgr();
    if !(mod.Some? && mod.value != "") {
      assert ModPart(mod) + rest == rest;
    } else {
      var c := Color(mod.value, Blue);
      assert ModPart(mod) == " " + c;
      Assoc(" ", c, rest);
      VisiblePlainPrefix(" ", c + rest);
      VisibleColor(mod.value, Blue, rest);
      Assoc(" ", mod.value, Visible(rest));
    }
  }

  lemma VisibleCtxPart(ctx: Option<Context>, includeContext: bool)
    requires ctx.Some? ==> NoEsc(ContextText(ctx.value))
    ensures Visible(CtxPart(ctx, includeContext)) == CtxText(ctx, includeContext)
  {
    CodesAreSgr();
    if ShowsContext(ctx, includeContext) {
      var t := ContextText(ctx.value);
      assert CtxPart(ctx, includeContext) == " " + (Color(t, Gray) + "");
      VisiblePlainPrefix(" ", Color(t, Gray) + "");
      VisibleColor(t, Gray, "");
    }
  }

  /** The part of the line after the application name. */
  lemma VisibleTail(record: LogRecord, consoleTs: string, includeContext: bool)
    requires PlainRecord(record, consoleTs)
    ensures Visible(ModPart(record.mod) + (" > " + (Color(record.msg, White) + CtxPart(record.ctx, includeContext))))
         == ModText(record.mod) + " > " + record.msg + CtxText(record.ctx, includeContext)
  {
    CodesAreSgr();
    var ctxPart := CtxPart(record.ctx, includeContext);
    var r5 := Color(record.msg, White) + ctxPart;
    var r4 := " > " + r5;
    var v5 := record.msg + CtxText(record.ctx, includeContext);
    VisibleCtxPart(record.ctx, includeContext);
    VisibleColor(record.msg, White, ctxPart);
    assert Visible(r5) == v5;
    VisiblePlainPrefix(" > ", r5);
    assert Visible(r4) == " > " + v5;
    VisibleModPart(record.mod, r4);
    Regroup3(ModText(record.mod), " > ", record.msg, CtxText(record.ctx, includeContext));
  }

  lemma Assoc(a: string, b: string, c: string)
    ensures (a + b) + c == a + (b + c)
  {
  }

  lemma Regroup3(a: string, b: string, c: string, d: string)
    ensures a + (b + (c + d)) == a + b + c + d
  {
  }

  lemma Regroup7(p0: string, p1: string, p2: string, p3: string, p4: string, p5: string)
    ensures p0 + " " + p1 + " " + p2 + p3 + " > " + p4 + p5
         == p0 + (" " + (p1 + (" " + (p2 + (p3 + (" > " + (p4 + p5)))))))
  {
    var t5 := p4 + p5;
    var t4 := " > " + t5;
    var t3 := p3 + t4;
    var t2 := p2 + t3;
    var t1 := " " + t2;
    var t0 := p1 + t1;
    assert p0 + " " + p1 + " " + p2 + p3 + " > " + p4 + p5 == (p0 + " " + p1 + " " + p2 + p3 + " > ") + t5;
    assert (p0 + " " + p1 + " " + p2 + p3 + " > ") + t5 == (p0 + " " + p1 + " " + p2 + p3) + t4;
    assert (p0 + " " + p1 + " " + p2 + p3) + t4 == (p0 + " " + p1 + " " + p2) + t3;
    assert (p0 + " " + p1 + " " + p2) + t3 == (p0 + " " + p1 + " ") + t2;
    assert (p0 + " " + p1 + " ") + t2 == (p0 + " " + p1) + t1;
    assert (p0 + " " + p1) + t1 == (p0 + " ") + t0;
  }

  /** The visible text of the right-grouped line. */
  lemma VisibleGrouped(record: LogRecord, consoleTs: string, includeContext: bool)
    requires PlainRecord(record, consoleTs)
    ensures Visible(Color(consoleTs, Gray + Dim) + (" " + (LevelStyle(LevelName(record.lvl)) + (" " + (Color(record.app, Cyan)
            + (ModPart(record.mod) + (" > " + (Color(record.msg, White) + CtxPart(record.ctx, includeContext)))))))))
         == consoleTs + (" " + (PadEnd(LevelName(record.lvl), 9, ' ') + (" " + (record.app
            + (ModText(record.mod) + " > " + record.msg + CtxText(record.ctx, includeContext))))))
  {
    CodesAreSgr();
    var name := LevelName(record.lvl);
    var padded := PadEnd(name, 9, ' ');
    PaddedNameIsPlain(record.lvl);
    var r3 := ModPart(record.mod) + (" > " + (Color(record.msg, White) + CtxPart(record.ctx, includeContext)));
    VisibleTail(record, consoleTs, includeContext);
    var r2 := Color(record.app, Cyan) + r3;
    var r1 := " " + r2;
    var r0 := Color(padded, Background(name) + White) + r1;
    VisibleColor(record.app, Cyan, r3);
    VisiblePlainPrefix(" ", r2);
    assert IsSgr(Background(name));
    VisibleColor2(padded, Background(name), White, r1);
    VisiblePlainPrefix(" ", r0);
    VisibleColor2(consoleTs, Gray, Dim, " " + r0);
  }

  /** For fields free of escape characters, the terminal shows the pieces of
      the line as `ts lvl app[ mod] > msg[ ctx]`, the level padded to nine
      columns. */
  lemma AssembledLineVisible(record: LogRecord, consoleTs: string, includeContext: bool)
    ensures PlainRecord(record, consoleTs) ==>
      Visible(Color(consoleTs, Gray + Dim) + " " + LevelStyle(LevelName(record.lvl)) + " " + Color(record.app, Cyan)
              + ModPart(record.mod) + " > " + Color(record.msg, White) + CtxPart(record.ctx, includeContext))
      == consoleTs + " " + PadEnd(LevelName(record.lvl), 9, ' ') + " " + record.app
         + ModText(record.mod) + " > " + record.msg + CtxText(record.ctx, includeContext)
  {
    if PlainRecord(record, consoleTs) {
      Regroup7(Color(consoleTs, Gray + Dim), LevelStyle(LevelName(record.lvl)), Color(record.app, Cyan),
        ModPart(record.mod), Color(record.msg, White), CtxPart(record.ctx, includeContext));
      VisibleGrouped(record, consoleTs, includeContext);
      var padded := PadEnd(LevelName(record.lvl), 9, ' ');
      var v3 := ModText(record.mod) + " > " + record.msg + CtxText(record.ctx, includeContext);
      Regroup(consoleTs, padded, record.app, v3);
      AppendJoined(consoleTs + " " + padded + " " + record.app, ModText(record.mod), " > ", record.msg,
        CtxText(record.ctx, includeContext));
    }
  }

  lemma AppendJoined(x: string, a: string, b: string, c: string, d: string)
    ensures x + (a + b + c + d) == x + a + b + c + d
  {
  }

  lemma Regroup(a: string, b: string, c: string, d: string)
    ensures a + (" " + (b + (" " + (c + d)))) == a + " " + b + " " + c + d
  {
  }
}
