/** The shared vocabulary of the logger: the level ladder with its priority
    table, the log record, and the end-of-segment (EOF) record. */
module Types {
  import opened Wrappers

  /** A log level. SYSTEM is a level but not a rung of the priority ladder. */
  datatype Level = VERBOSE | DEBUG | INFO | WARN | ERROR | ASSERT | SECURITY | PERFORMANCE | SYSTEM

  /** The level's name as it is serialised in the `lvl` field. */
  function LevelName(l: Level): string {
    match l
    case VERBOSE => "VERBOSE"
    case DEBUG => "DEBUG"
    case INFO => "INFO"
    case WARN => "WARN"
    case ERROR => "ERROR"
    case ASSERT => "ASSERT"
    case SECURITY => "SECURITY"
    case PERFORMANCE => "PERFORMANCE"
    case SYSTEM => "SYSTEM"
  }

  /** The level a name denotes, if any (names are case-sensitive). */
  function LevelFromName(s: string): (r: Option<Level>)
    ensures r.Some? ==> LevelName(r.value) == s
  {
    if s == "VERBOSE" then Some(VERBOSE)
    else if s == "DEBUG" then Some(DEBUG)
    else if s == "INFO" then Some(INFO)
    else if s == "WARN" then Some(WARN)
    else if s == "ERROR" then Some(ERROR)
    else if s == "ASSERT" then Some(ASSERT)
    else if s == "SECURITY" then Some(SECURITY)
    else if s == "PERFORMANCE" then Some(PERFORMANCE)
    else if s == "SYSTEM" then Some(SYSTEM)
    else None
  }

  lemma LevelNameRoundTrip(l: Level)
    ensures LevelFromName(LevelName(l)) == Some(l)
  {
  }

  /** The `levelPriority` table; SYSTEM has no entry. */
  function Priority(l: Level): (r: Option<nat>)
    ensures r.None? <==> l == SYSTEM
    ensures r.Some? ==> 10 <= r.value <= 80 && r.value % 10 == 0
  {
    match l
    case VERBOSE => Some(10)
    case DEBUG => Some(20)
    case INFO => Some(30)
    case WARN => Some(40)
    case ERROR => Some(50)
    case ASSERT => Some(60)
    case SECURITY => Some(70)
    case PERFORMANCE => Some(80)
    case SYSTEM => None
  }

  /** `levelPriority[name]`: the priority of the key `name`, absent when `name`
      is not one of the table's eight keys (SYSTEM included). */
  function PriorityOfName(name: string): Option<nat> {
    match LevelFromName(name)
    case Some(l) => Priority(l)
    case None => None
  }

  /** The ladder, lowest first. */
  const Ladder: seq<Level> := [VERBOSE, DEBUG, INFO, WARN, ERROR, ASSERT, SECURITY, PERFORMANCE]

  /** The ladder lists exactly the levels that have a priority, and their
      priorities strictly increase along it. */
  lemma LadderIsStrictlyIncreasing()
    ensures forall l: Level :: l in Ladder <==> Priority(l).Some?
    ensures forall i, j :: 0 <= i < j < |Ladder| ==> Priority(Ladder[i]).value < Priority(Ladder[j]).value
  {
  }

  /** Priorities are injective: the table never gives two levels one score. */
  lemma PriorityInjective(a: Level, b: Level)
    requires Priority(a).Some? && Priority(a) == Priority(b)
    ensures a == b
  {
  }

  /** A record's context map, kept abstract: its own keys (`Object.keys`) and its
      `JSON.stringify` text, `None` when stringifying throws (a cycle, a BigInt). */
  datatype Context = Context(keys: seq<string>, json: Option<string>)

  /** One logged event. */
  datatype LogRecord = LogRecord(
    ts: string,
    lvl: Level,
    app: string,
    mod: Option<string>,
    msg: string,
    pid: int,
    traceId: Option<string>,
    ctx: Option<Context>)

  /** Why a segment was closed. The writer only produces the first two. */
  datatype Reason = RotateSize | RotateDate | Manual

  function ReasonName(r: Reason): string {
    match r
    case RotateSize => "rotate_size"
    case RotateDate => "rotate_date"
    case Manual => "manual"
  }

  /** The sentinel written as the last line of a rotated segment. */
  datatype EofRecord = EofRecord(
    level: Level,
    kind: string,
    reason: Reason,
    nextFile: string,
    checksum: string,
    ts: int)

  /** The fixed markers of an EOF record: level SYSTEM, type "EOF". */
  predicate IsEofShaped(e: EofRecord) {
    e.level == SYSTEM && e.kind == "EOF"
  }

  /** Builds the sentinel; its level and type are always the fixed markers. */
  function MakeEof(reason: Reason, nextFile: string, checksum: string, ts: int): (e: EofRecord)
    ensures IsEofShaped(e)
    ensures e.reason == reason && e.nextFile == nextFile && e.checksum == checksum && e.ts == ts
  {
    EofRecord(SYSTEM, "EOF", reason, nextFile, checksum, ts)
  }
}
