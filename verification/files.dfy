/** Segment file names and the retention sweep over the log directory.
    The directory is a map from path to size and modification time; listing
    it, statting and unlinking are reads and updates of that map, and the
    paths whose unlink fails are an input. */
module Files {
  import opened Wrappers
  import opened Strings
  import opened Time

  // ---------------------------------------------------------------------------
  // generateLogFileName
  // ---------------------------------------------------------------------------

  /** `{app}_v{version}_{dateKey}_{timestamp}_{pid}_{sequence}.log`. */
  function GenerateLogFileName(app: string, version: string, dateKey: string, timestamp: int, pid: int, sequence: nat): (name: string)
    ensures EndsWith(name, ".log")
    ensures StartsWith(name, app + "_v" + version + "_" + dateKey + "_")
  {
    var head := app + "_v" + version + "_" + dateKey + "_";
    var name := head + IntToString(timestamp) + "_" + IntToString(pid) + "_" + NatToString(sequence) + ".log";
    NameParts(head, IntToString(timestamp), IntToString(pid), NatToString(sequence));
    name
  }

  /** How a name splits: the fixed head, the timestamp up to the first `_`
      after it, then the rest. */
  lemma NameParts(head: string, t: string, p: string, n: string)
    ensures var name := head + t + "_" + p + "_" + n + ".log";
      name == head + (t + ['_'] + (p + "_" + n + ".log"))
      && StartsWith(name, head) && EndsWith(name, ".log")
      && name[|head|..] == t + ['_'] + (p + "_" + n + ".log")
  {
    var name := head + t + "_" + p + "_" + n + ".log";
    assert name == head + (t + ['_'] + (p + "_" + n + ".log"));
    assert name == (head + t + "_" + p + "_" + n) + ".log";
  }

  /** Equal joins with a common prefix and suffix have equal middles. */
  lemma MiddleOf(p: string, m1: string, m2: string, s: string)
    requires p + m1 + s == p + m2 + s
    ensures m1 == m2
  {
    assert |m1| == |m2|;
    assert (p + m1 + s)[|p|..|p| + |m1|] == m1;
    assert (p + m2 + s)[|p|..|p| + |m2|] == m2;
  }

  /** Everything but the sequence number fixed, the name determines the
      sequence number: distinct sequence numbers give distinct names. */
  lemma SequenceDistinguishesNames(app: string, version: string, dateKey: string, timestamp: int, pid: int, a: nat, b: nat)
    requires GenerateLogFileName(app, version, dateKey, timestamp, pid, a) == GenerateLogFileName(app, version, dateKey, timestamp, pid, b)
    ensures a == b
  {
    var p := app + "_v" + version + "_" + dateKey + "_" + IntToString(timestamp) + "_" + IntToString(pid) + "_";
    MiddleOf(p, NatToString(a), NatToString(b), ".log");
    NatToStringInjective(a, b);
  }

  /** For one application, version, date and process, a name determines both
      the (non-negative) creation timestamp and the sequence number. */
  lemma NameDeterminesStampAndSequence(app: string, version: string, dateKey: string, pid: int,
                                       t1: int, s1: nat, t2: int, s2: nat)
    requires t1 >= 0 && t2 >= 0
    requires GenerateLogFileName(app, version, dateKey, t1, pid, s1) == GenerateLogFileName(app, version, dateKey, t2, pid, s2)
    ensures t1 == t2 && s1 == s2
  {
    var head := app + "_v" + version + "_" + dateKey + "_";
    var a, b := IntToString(t1), IntToString(t2);
    var q := IntToString(pid);
    var n1, n2 := NatToString(s1), NatToString(s2);
    NameParts(head, a, q, n1);
    NameParts(head, b, q, n2);
    DigitsThenSeparator(a, b, '_', q + "_" + n1 + ".log", q + "_" + n2 + ".log");
    IntToStringInjective(t1, t2);
    MiddleOf(q + "_", n1, n2, ".log");
    NatToStringInjective(s1, s2);
  }

  /** Segments of one process and day with different sequence numbers never
      share a name, whatever their timestamps. */
  lemma DistinctSequencesDistinctNames(app: string, version: string, dateKey: string, pid: int,
                                       t1: int, s1: nat, t2: int, s2: nat)
    requires t1 >= 0 && t2 >= 0
    ensures GenerateLogFileName(app, version, dateKey, t1, pid, s1) == GenerateLogFileName(app, version, dateKey, t2, pid, s2)
            ==> s1 == s2
  {
    if GenerateLogFileName(app, version, dateKey, t1, pid, s1) == GenerateLogFileName(app, version, dateKey, t2, pid, s2) {
      NameDeterminesStampAndSequence(app, version, dateKey, pid, t1, s1, t2, s2);
    }
  }

  // ---------------------------------------------------------------------------
  // cleanupLogs: the directory and its entries
  // ---------------------------------------------------------------------------

  /** One `readdir` entry. */
  datatype DirEntry = DirEntry(name: string, isFile: bool)

  /** What `stat` reports. */
  datatype FileStat = FileStat(size: nat, mtimeMs: int)

  /** One element of the `stats` and `remaining` arrays. */
  datatype StatEntry = StatEntry(path: string, size: nat, mtimeMs: int)

  /** `path.join(dir, name)` for a plain file name. */
  function Join(dir: string, name: string): string {
    dir + "/" + name
  }

  /** Joining to one directory keeps distinct names apart. */
  lemma JoinDistinct(dir: string, a: string, b: string)
    requires a != b
    ensures Join(dir, a) != Join(dir, b)
  {
    assert Join(dir, a)[|dir| + 1..] == a;
    assert Join(dir, b)[|dir| + 1..] == b;
  }

  predicate IsLogFile(e: DirEntry) {
    e.isFile && EndsWith(e.name, ".log")
  }

  /** The files the sweep considers: regular files named `*.log`, joined to
      the directory, in listing order. */
  function LogPaths(dir: string, entries: seq<DirEntry>): (paths: seq<string>)
    ensures |paths| <= |entries|
  {
    if entries == [] then []
    else
      var rest := LogPaths(dir, entries[1..]);
      if IsLogFile(entries[0]) then [Join(dir, entries[0].name)] + rest else rest
  }

  /** A path is considered exactly when it is a `.log` file of the listing. */
  lemma {:induction false} LogPathsMembers(dir: string, entries: seq<DirEntry>)
    ensures forall p :: p in LogPaths(dir, entries) <==> exists e :: e in entries && IsLogFile(e) && p == Join(dir, e.name)
  {
    if entries != [] {
      LogPathsMembers(dir, entries[1..]);
      assert forall e :: e in entries <==> e == entries[0] || e in entries[1..];
    }
  }

  /** Distinct names give distinct paths. */
  lemma {:induction false} LogPathsDistinct(dir: string, entries: seq<DirEntry>)
    requires forall i, j :: 0 <= i < j < |entries| ==> entries[i].name != entries[j].name
    ensures forall i, j :: 0 <= i < j < |LogPaths(dir, entries)| ==> LogPaths(dir, entries)[i] != LogPaths(dir, entries)[j]
  {
    if entries != [] {
      LogPathsDistinct(dir, entries[1..]);
      LogPathsMembers(dir, entries[1..]);
      var rest := LogPaths(dir, entries[1..]);
      if IsLogFile(entries[0]) {
        var p := Join(dir, entries[0].name);
        forall k | 0 <= k < |rest| ensures rest[k] != p {
          assert rest[k] in rest;
          var e :| e in entries[1..] && IsLogFile(e) && rest[k] == Join(dir, e.name);
          var j :| 0 <= j < |entries[1..]| && entries[1..][j] == e;
          assert entries[j + 1] == e;
          JoinDistinct(dir, e.name, entries[0].name);
        }
      }
    }
  }

  predicate DistinctPaths(s: seq<StatEntry>) {
    forall i, j :: 0 <= i < j < |s| ==> s[i].path != s[j].path
  }

  function PathsOf(s: seq<StatEntry>): (r: seq<string>)
    ensures |r| == |s| && forall i :: 0 <= i < |s| ==> r[i] == s[i].path
  {
    if s == [] then [] else [s[0].path] + PathsOf(s[1..])
  }

  /** The entries a stat loop collects: the paths that exist, in order, with
      their stat. */
  function StatsOf(paths: seq<string>, files: map<string, FileStat>): (r: seq<StatEntry>)
    ensures |r| <= |paths|
  {
    if paths == [] then []
    else
      var init := StatsOf(paths[..|paths| - 1], files);
      var p := paths[|paths| - 1];
      if p in files then init + [StatEntry(p, files[p].size, files[p].mtimeMs)] else init
  }

  /** Each entry carries its file's stat, and the entries' paths are exactly
      the given paths that exist. */
  lemma {:induction false} StatsOfFacts(paths: seq<string>, files: map<string, FileStat>)
    ensures var r := StatsOf(paths, files);
      (forall i :: 0 <= i < |r| ==> r[i].path in files && files[r[i].path] == FileStat(r[i].size, r[i].mtimeMs))
      && (forall p :: p in PathsOf(r) <==> p in paths && p in files)
  {
    if paths != [] {
      var init := paths[..|paths| - 1];
      var p := paths[|paths| - 1];
      StatsOfFacts(init, files);
      assert forall q :: q in paths <==> q in init || q == p;
      if p in files {
        var s := StatsOf(init, files);
        assert PathsOf(s + [StatEntry(p, files[p].size, files[p].mtimeMs)]) == PathsOf(s) + [p];
      }
    }
  }

  /** Statting keeps the order of the paths and drops none twice: distinct
      paths give distinct entries. */
  lemma {:induction false} StatsOfDistinct(paths: seq<string>, files: map<string, FileStat>)
    requires forall i, j :: 0 <= i < j < |paths| ==> paths[i] != paths[j]
    ensures DistinctPaths(StatsOf(paths, files))
  {
    if paths != [] {
      var init := paths[..|paths| - 1];
      StatsOfDistinct(init, files);
      StatsOfFacts(init, files);
      var p := paths[|paths| - 1];
      if p in files {
        var s := StatsOf(init, files);
        forall k | 0 <= k < |s| ensures s[k].path != p {
          assert PathsOf(s)[k] == s[k].path;
          assert s[k].path in init;
        }
      }
    }
  }

  /** The stat loops (the collection of `stats` and of `remaining`): a path
      that no longer exists, or whose stat fails, is skipped. */
  method CollectStats(paths: seq<string>, files: map<string, FileStat>) returns (stats: seq<StatEntry>)
    ensures stats == StatsOf(paths, files)
  {
    stats := [];
    for i := 0 to |paths|
      invariant stats == StatsOf(paths[..i], files)
    {
      assert paths[..i + 1][..i] == paths[..i];
      if paths[i] in files {
        var st := files[paths[i]];
        stats := stats + [StatEntry(paths[i], st.size, st.mtimeMs)];
      }
    }
    assert paths[..|paths|] == paths;
  }

  // ---------------------------------------------------------------------------
  // Unlink and the age pass
  // ---------------------------------------------------------------------------

  /** `unlink(p)` succeeds when the file exists and is not one whose removal
      fails. */
  predicate Unlinks(files: map<string, FileStat>, fails: set<string>, p: string) {
    p in files && p !in fails
  }

  /** The directory after `unlink(p)`; a failed unlink changes nothing. */
  function Unlink(files: map<string, FileStat>, fails: set<string>, p: string): (r: map<string, FileStat>)
    ensures forall q :: q in r <==> q in files && (q != p || !Unlinks(files, fails, p))
    ensures forall q :: q in r ==> r[q] == files[q]
  {
    if Unlinks(files, fails, p) then files - {p} else files
  }

  /** The age test `now - mtimeMs > maxAgeMs`, strict. */
  predicate Expired(s: StatEntry, now: int, maxAgeMs: int) {
    now - s.mtimeMs > maxAgeMs
  }

  predicate ExpiredPath(stats: seq<StatEntry>, p: string, now: int, maxAgeMs: int) {
    exists i | 0 <= i < |stats| :: stats[i].path == p && Expired(stats[i], now, maxAgeMs)
  }

  /** The directory after the age pass: exactly the expired entries whose
      unlink succeeds are gone, and nothing else changes. */
  function AgePurge(stats: seq<StatEntry>, files: map<string, FileStat>, fails: set<string>, now: int, maxAgeMs: int)
    : map<string, FileStat>
  {
    if stats == [] then files
    else
      var s := stats[|stats| - 1];
      var before := AgePurge(stats[..|stats| - 1], files, fails, now, maxAgeMs);
      if Expired(s, now, maxAgeMs) then Unlink(before, fails, s.path) else before
  }

  lemma ExpiredPathSnoc(stats: seq<StatEntry>, now: int, maxAgeMs: int)
    requires stats != []
    ensures var init, s := stats[..|stats| - 1], stats[|stats| - 1];
      forall p :: ExpiredPath(stats, p, now, maxAgeMs) <==>
        ExpiredPath(init, p, now, maxAgeMs) || (p == s.path && Expired(s, now, maxAgeMs))
  {
    var init, s := stats[..|stats| - 1], stats[|stats| - 1];
    forall p ensures ExpiredPath(stats, p, now, maxAgeMs) ==>
      ExpiredPath(init, p, now, maxAgeMs) || (p == s.path && Expired(s, now, maxAgeMs)) {
      if ExpiredPath(stats, p, now, maxAgeMs) {
        var i :| 0 <= i < |stats| && stats[i].path == p && Expired(stats[i], now, maxAgeMs);
        if i < |init| {
          assert init[i] == stats[i];
        }
      }
    }
    forall p ensures ExpiredPath(init, p, now, maxAgeMs) ==> ExpiredPath(stats, p, now, maxAgeMs) {
      if ExpiredPath(init, p, now, maxAgeMs) {
        var i :| 0 <= i < |init| && init[i].path == p && Expired(init[i], now, maxAgeMs);
        assert stats[i] == init[i];
      }
    }
  }

  /** The directory after the age pass: exactly the expired entries whose
      unlink succeeds are gone, and nothing else changes. */
  lemma {:induction false} AgePurgeFacts(stats: seq<StatEntry>, files: map<string, FileStat>, fails: set<string>, now: int, maxAgeMs: int)
    ensures var r := AgePurge(stats, files, fails, now, maxAgeMs);
      (forall p :: p in r <==> p in files && (p in fails || !ExpiredPath(stats, p, now, maxAgeMs)))
      && (forall p :: p in r ==> r[p] == files[p])
  {
    if stats != [] {
      AgePurgeFacts(stats[..|stats| - 1], files, fails, now, maxAgeMs);
      ExpiredPathSnoc(stats, now, maxAgeMs);
    }
  }

  /** The age pass: each expired entry is unlinked, errors ignored. */
  method PurgeByAge(stats: seq<StatEntry>, files: map<string, FileStat>, fails: set<string>, now: int, maxAgeMs: int)
    returns (after: map<string, FileStat>)
    ensures after == AgePurge(stats, files, fails, now, maxAgeMs)
  {
    after := files;
    for i := 0 to |stats|
      invariant after == AgePurge(stats[..i], files, fails, now, maxAgeMs)
    {
      assert stats[..i + 1][..i] == stats[..i];
      if now - stats[i].mtimeMs > maxAgeMs {
        if stats[i].path in after && stats[i].path !in fails {
          after := after - {stats[i].path};
        }
      }
    }
    assert stats[..|stats|] == stats;
  }

  /** A file exactly at the age limit is kept. */
  lemma AgeLimitIsStrict(s: StatEntry, now: int, days: int)
    requires now - s.mtimeMs == ToMs(days)
    ensures !Expired(s, now, ToMs(days))
  {
  }

  // ---------------------------------------------------------------------------
  // remaining.sort((a, b) => a.mtimeMs - b.mtimeMs)
  // ---------------------------------------------------------------------------

  predicate SortedByMtime(s: seq<StatEntry>) {
    forall i, j :: 0 <= i < j < |s| ==> s[i].mtimeMs <= s[j].mtimeMs
  }

  /** Puts `x` before the first entry modified no earlier, so entries with
      equal times keep their order. */
  function InsertByMtime(x: StatEntry, t: seq<StatEntry>): (r: seq<StatEntry>)
    ensures multiset(r) == multiset(t) + multiset{x}
  {
    if t == [] || x.mtimeMs <= t[0].mtimeMs then [x] + t
    else
      assert t == [t[0]] + t[1..];
      [t[0]] + InsertByMtime(x, t[1..])
  }

  lemma {:induction false} InsertKeepsSorted(x: StatEntry, t: seq<StatEntry>)
    requires SortedByMtime(t)
    ensures SortedByMtime(InsertByMtime(x, t))
  {
    if t == [] || x.mtimeMs <= t[0].mtimeMs {
      ConsSorted(x, t);
    } else {
      var tail := InsertByMtime(x, t[1..]);
      InsertKeepsSorted(x, t[1..]);
      InsertKeepsLowerBound(x, t[1..], t[0].mtimeMs);
      ConsSorted(t[0], tail);
    }
  }

  /** Inserting an entry no earlier than `m` into entries no earlier than `m`
      gives entries no earlier than `m`. */
  lemma {:induction false} InsertKeepsLowerBound(x: StatEntry, t: seq<StatEntry>, m: int)
    requires m <= x.mtimeMs && forall k :: 0 <= k < |t| ==> m <= t[k].mtimeMs
    ensures forall k :: 0 <= k < |InsertByMtime(x, t)| ==> m <= InsertByMtime(x, t)[k].mtimeMs
  {
    var r := InsertByMtime(x, t);
    if t == [] || x.mtimeMs <= t[0].mtimeMs {
      assert forall k :: 1 <= k < |r| ==> r[k] == t[k - 1];
    } else {
      assert forall k :: 0 <= k < |t| - 1 ==> t[1..][k] == t[k + 1];
      InsertKeepsLowerBound(x, t[1..], m);
      var tail := InsertByMtime(x, t[1..]);
      assert r == [t[0]] + tail;
      assert m <= r[0].mtimeMs;
      forall k | 1 <= k < |r| ensures m <= r[k].mtimeMs {
        assert r[k] == tail[k - 1];
      }
    }
  }

  /** A sorted list stays sorted behind an entry no later than its head. */
  lemma ConsSorted(x: StatEntry, t: seq<StatEntry>)
    requires SortedByMtime(t) && (t == [] || x.mtimeMs <= t[0].mtimeMs)
    ensures SortedByMtime([x] + t)
  {
  }

  /** The stable sort by ascending modification time. */
  function SortByMtime(s: seq<StatEntry>): (r: seq<StatEntry>)
    ensures multiset(r) == multiset(s) && |r| == |s|
    ensures SortedByMtime(r)
  {
    if s == [] then []
    else
      assert s == [s[0]] + s[1..];
      var r := InsertByMtime(s[0], SortByMtime(s[1..]));
      InsertKeepsSorted(s[0], SortByMtime(s[1..]));
      assert |r| == |multiset(r)|;
      r
  }

  lemma {:induction false} InsertKeepsDistinct(x: StatEntry, t: seq<StatEntry>)
    requires DistinctPaths(t) && forall k :: 0 <= k < |t| ==> t[k].path != x.path
    ensures DistinctPaths(InsertByMtime(x, t))
  {
    if !(t == [] || x.mtimeMs <= t[0].mtimeMs) {
      var tail := InsertByMtime(x, t[1..]);
      InsertKeepsDistinct(x, t[1..]);
      forall k | 0 <= k < |tail| ensures tail[k].path != t[0].path {
        assert tail[k] in multiset(tail);
        if tail[k] != x {
          var j :| 0 <= j < |t[1..]| && t[1..][j] == tail[k];
          assert t[j + 1] == tail[k];
        }
      }
    }
  }

  /** Sorting keeps distinct paths distinct. */
  lemma {:induction false} SortKeepsDistinct(s: seq<StatEntry>)
    requires DistinctPaths(s)
    ensures DistinctPaths(SortByMtime(s))
  {
    if s != [] {
      var rest := SortByMtime(s[1..]);
      SortKeepsDistinct(s[1..]);
      forall k | 0 <= k < |rest| ensures rest[k].path != s[0].path {
        assert rest[k] in multiset(s[1..]);
        var j :| 0 <= j < |s[1..]| && s[1..][j] == rest[k];
        assert s[j + 1] == rest[k];
      }
      InsertKeepsDistinct(s[0], rest);
    }
  }

  // ---------------------------------------------------------------------------
  // The size and count budgets
  // ---------------------------------------------------------------------------

  /** `remaining.reduce((acc, cur) => acc + cur.size, 0)`. */
  function SumSizes(s: seq<StatEntry>): nat {
    if s == [] then 0 else s[0].size + SumSizes(s[1..])
  }

  /** The state the budget loops work on: the survivors oldest first, the
      running total, and the directory. */
  datatype Sweep = Sweep(remaining: seq<StatEntry>, total: int, files: map<string, FileStat>)

  /** Nothing outside `remaining` is deleted, and nothing changes size. */
  predicate DeletesOnlyFrom(before: Sweep, after: map<string, FileStat>) {
    (forall p :: p in after ==> p in before.files && after[p] == before.files[p])
    && (forall p :: p in before.files && p !in after ==> p in PathsOf(before.remaining))
  }

  predicate SuffixOf(r: seq<StatEntry>, s: seq<StatEntry>) {
    |r| <= |s| && r == s[|s| - |r|..]
  }

  /** `deleteOldest()`: shift the oldest survivor out; only a successful
      unlink takes its size off the total. */
  function AfterDeleteOldest(st: Sweep, fails: set<string>): (r: Sweep)
    ensures st.remaining != [] ==> r.remaining == st.remaining[1..]
    ensures st.remaining == [] ==> r == st
    ensures r.total <= st.total
    ensures DeletesOnlyFrom(st, r.files)
    ensures st.remaining != [] ==>
      var v := st.remaining[0];
      (Unlinks(st.files, fails, v.path) ==> r.total == st.total - v.size && r.files == st.files - {v.path}) &&
      (!Unlinks(st.files, fails, v.path) ==> r.total == st.total && r.files == st.files)
  {
    if st.remaining == [] then st
    else
      var victim := st.remaining[0];
      assert PathsOf(st.remaining)[0] == victim.path;
      if Unlinks(st.files, fails, victim.path) then
        Sweep(st.remaining[1..], st.total - victim.size, st.files - {victim.path})
      else
        Sweep(st.remaining[1..], st.total, st.files)
  }

  /** `deleteOldest()` on the loop's variables. */
  method DeleteOldest(remaining: seq<StatEntry>, totalSize: int, files: map<string, FileStat>, fails: set<string>)
    returns (remaining': seq<StatEntry>, totalSize': int, files': map<string, FileStat>)
    ensures Sweep(remaining', totalSize', files') == AfterDeleteOldest(Sweep(remaining, totalSize, files), fails)
  {
    remaining', totalSize', files' := remaining, totalSize, files;
    if remaining' == [] {
      return;
    }
    var victim := remaining'[0];
    remaining' := remaining'[1..];
    if victim.path in files' && victim.path !in fails {
      files' := files' - {victim.path};
      totalSize' := totalSize' - victim.size;
    }
  }

  lemma DeletesOnlyFromTrans(a: Sweep, b: Sweep, c: map<string, FileStat>)
    requires DeletesOnlyFrom(a, b.files) && DeletesOnlyFrom(b, c) && SuffixOf(b.remaining, a.remaining)
    ensures DeletesOnlyFrom(a, c)
  {
    forall p | p in a.files && p !in c ensures p in PathsOf(a.remaining) {
      if p in b.files {
        SuffixPath(b.remaining, a.remaining, p);
      }
    }
  }

  /** A path of a suffix is a path of the whole list. */
  lemma SuffixPath(r: seq<StatEntry>, s: seq<StatEntry>, p: string)
    requires SuffixOf(r, s) && p in PathsOf(r)
    ensures p in PathsOf(s)
  {
    var i :| 0 <= i < |r| && PathsOf(r)[i] == p;
    var k := |s| - |r| + i;
    assert r[i] == s[k];
    assert PathsOf(s)[k] == p;
  }

  /** `while (totalSize > maxTotalSizeBytes) await deleteOldest();`, stopped
      where the source would spin: with `remaining` empty, `deleteOldest` no
      longer changes anything. The result is over budget only then. */
  function SizeSweep(st: Sweep, fails: set<string>, maxTotal: int): (r: Sweep)
    ensures r.total <= maxTotal || r.remaining == []
    ensures r.total <= st.total
    ensures SuffixOf(r.remaining, st.remaining)
    ensures DeletesOnlyFrom(st, r.files)
    decreases |st.remaining|
  {
    if st.total > maxTotal && st.remaining != [] then
      var next := AfterDeleteOldest(st, fails);
      var r := SizeSweep(next, fails, maxTotal);
      DeletesOnlyFromTrans(st, next, r.files);
      r
    else st
  }

  /** `while (remaining.length > maxFiles) await deleteOldest();`: every
      round shortens `remaining`, failed unlink or not. */
  function CountSweep(st: Sweep, fails: set<string>, maxFiles: nat): (r: Sweep)
    ensures |r.remaining| == if |st.remaining| > maxFiles then maxFiles else |st.remaining|
    ensures r.total <= st.total
    ensures SuffixOf(r.remaining, st.remaining)
    ensures DeletesOnlyFrom(st, r.files)
    decreases |st.remaining|
  {
    if |st.remaining| > maxFiles then
      var next := AfterDeleteOldest(st, fails);
      var r := CountSweep(next, fails, maxFiles);
      DeletesOnlyFromTrans(st, next, r.files);
      r
    else st
  }

  /** The size loop; `stalled` reports that the source's loop would not end. */
  method SweepBySize(remaining: seq<StatEntry>, totalSize: int, files: map<string, FileStat>, fails: set<string>, maxTotal: int)
    returns (remaining': seq<StatEntry>, totalSize': int, files': map<string, FileStat>, stalled: bool)
    ensures Sweep(remaining', totalSize', files') == SizeSweep(Sweep(remaining, totalSize, files), fails, maxTotal)
    ensures stalled <==> totalSize' > maxTotal
  {
    remaining', totalSize', files' := remaining, totalSize, files;
    while totalSize' > maxTotal && remaining' != []
      invariant SizeSweep(Sweep(remaining', totalSize', files'), fails, maxTotal)
             == SizeSweep(Sweep(remaining, totalSize, files), fails, maxTotal)
      decreases |remaining'|
    {
      remaining', totalSize', files' := DeleteOldest(remaining', totalSize', files', fails);
    }
    stalled := totalSize' > maxTotal;
  }

  /** The count loop. */
  method SweepByCount(remaining: seq<StatEntry>, totalSize: int, files: map<string, FileStat>, fails: set<string>, maxFiles: nat)
    returns (remaining': seq<StatEntry>, totalSize': int, files': map<string, FileStat>)
    ensures Sweep(remaining', totalSize', files') == CountSweep(Sweep(remaining, totalSize, files), fails, maxFiles)
  {
    remaining', totalSize', files' := remaining, totalSize, files;
    while |remaining'| > maxFiles
      invariant CountSweep(Sweep(remaining', totalSize', files'), fails, maxFiles)
             == CountSweep(Sweep(remaining, totalSize, files), fails, maxFiles)
      decreases |remaining'|
    {
      remaining', totalSize', files' := DeleteOldest(remaining', totalSize', files', fails);
    }
  }

  /** A budget loop whose unlinks all succeed keeps the total equal to the
      survivors' sizes, so the size loop ends within budget. */
  predicate Deletable(st: Sweep, fails: set<string>) {
    st.total == SumSizes(st.remaining) && DistinctPaths(st.remaining)
    && forall k :: 0 <= k < |st.remaining| ==> Unlinks(st.files, fails, st.remaining[k].path)
  }

  lemma DeleteOldestKeepsDeletable(st: Sweep, fails: set<string>)
    requires Deletable(st, fails) && st.remaining != []
    ensures Deletable(AfterDeleteOldest(st, fails), fails)
  {
    var r := AfterDeleteOldest(st, fails);
    var victim := st.remaining[0];
    assert Unlinks(st.files, fails, victim.path);
    forall k | 0 <= k < |r.remaining| ensures Unlinks(r.files, fails, r.remaining[k].path) {
      assert r.remaining[k] == st.remaining[k + 1];
      assert st.remaining[k + 1].path != victim.path;
    }
  }

  lemma {:induction false} SizeSweepMeetsBudget(st: Sweep, fails: set<string>, maxTotal: int)
    requires maxTotal >= 0 && Deletable(st, fails)
    ensures SizeSweep(st, fails, maxTotal).total <= maxTotal
    decreases |st.remaining|
  {
    if st.total > maxTotal && st.remaining != [] {
      DeleteOldestKeepsDeletable(st, fails);
      SizeSweepMeetsBudget(AfterDeleteOldest(st, fails), fails, maxTotal);
    }
  }

  // ---------------------------------------------------------------------------
  // cleanupLogs
  // ---------------------------------------------------------------------------

  /** What a sweep leaves: the directory, the survivors, the running total,
      and whether the size loop would spin for ever. */
  datatype CleanupReport = CleanupReport(files: map<string, FileStat>, remaining: seq<StatEntry>, totalSize: int, stalled: bool)

  /** The first stat loop: the listing's `.log` files that can be statted. */
  function StatsFor(dir: string, listing: Option<seq<DirEntry>>, files: map<string, FileStat>): seq<StatEntry> {
    StatsOf(LogPaths(dir, listing.GetOr([])), files)
  }

  /** The directory after the age pass over `StatsFor`. */
  function AfterAge(dir: string, listing: Option<seq<DirEntry>>, files: map<string, FileStat>, fails: set<string>,
                    now: int, maxFileAgeDays: int): map<string, FileStat>
  {
    AgePurge(StatsFor(dir, listing, files), files, fails, now, ToMs(maxFileAgeDays))
  }

  /** The survivors of the age pass, re-statted and sorted oldest first. */
  function Survivors(dir: string, listing: Option<seq<DirEntry>>, files: map<string, FileStat>, fails: set<string>,
                     now: int, maxFileAgeDays: int): seq<StatEntry>
  {
    SortByMtime(StatsOf(PathsOf(StatsFor(dir, listing, files)), AfterAge(dir, listing, files, fails, now, maxFileAgeDays)))
  }

  /** The two budget loops over sorted survivors; the count loop is never
      reached when the size loop stalls. */
  function Budgets(remaining: seq<StatEntry>, files: map<string, FileStat>, fails: set<string>,
                   maxTotalSizeBytes: int, maxFiles: Option<int>): CleanupReport
  {
    var bySize := SizeSweep(Sweep(remaining, SumSizes(remaining), files), fails, maxTotalSizeBytes);
    if bySize.total > maxTotalSizeBytes then
      CleanupReport(bySize.files, bySize.remaining, bySize.total, true)
    else
      var byCount := if maxFiles.Some? && maxFiles.value > 0 then CountSweep(bySize, fails, maxFiles.value) else bySize;
      CleanupReport(byCount.files, byCount.remaining, byCount.total, false)
  }

  /** `cleanupLogs(...)` as a function of the directory, the clock reading
      and the unlinks that fail. */
  function Cleanup(dir: string, listing: Option<seq<DirEntry>>, files: map<string, FileStat>, fails: set<string>,
                   now: int, maxTotalSizeBytes: int, maxFiles: Option<int>, maxFileAgeDays: int): CleanupReport
  {
    Budgets(Survivors(dir, listing, files, fails, now, maxFileAgeDays), AfterAge(dir, listing, files, fails, now, maxFileAgeDays),
            fails, maxTotalSizeBytes, maxFiles)
  }

  /** The listing, the first stat loop, the age pass, the second stat loop
      and the sort. A failed listing counts as an empty directory; stat and
      unlink failures are swallowed. */
  method CollectSurvivors(dir: string, listing: Option<seq<DirEntry>>, files: map<string, FileStat>, fails: set<string>,
                          now: int, maxFileAgeDays: int)
    returns (remaining: seq<StatEntry>, afterAge: map<string, FileStat>)
    ensures remaining == Survivors(dir, listing, files, fails, now, maxFileAgeDays)
    ensures afterAge == AfterAge(dir, listing, files, fails, now, maxFileAgeDays)
  {
    var maxAgeMs := maxFileAgeDays * 24 * 60 * 60 * 1000;
    assert maxAgeMs == ToMs(maxFileAgeDays);
    var entries := if listing.Some? then listing.value else [];
    var stats := CollectStats(LogPaths(dir, entries), files);
    afterAge := PurgeByAge(stats, files, fails, now, maxAgeMs);
    remaining := CollectStats(PathsOf(stats), afterAge);
    remaining := SortByMtime(remaining);
  }

  /** The size loop, then, unless it stalled, the count loop when `maxFiles`
      is set and positive. */
  method EnforceBudgets(remaining: seq<StatEntry>, files: map<string, FileStat>, fails: set<string>,
                        maxTotalSizeBytes: int, maxFiles: Option<int>)
    returns (report: CleanupReport)
    ensures report == Budgets(remaining, files, fails, maxTotalSizeBytes, maxFiles)
  {
    var totalSize := SumSizes(remaining);
    var left, current, stalled;
    left, totalSize, current, stalled := SweepBySize(remaining, totalSize, files, fails, maxTotalSizeBytes);
    if stalled {
      return CleanupReport(current, left, totalSize, true);
    }
    if maxFiles.Some? && maxFiles.value > 0 {
      left, totalSize, current := SweepByCount(left, totalSize, current, fails, maxFiles.value);
    }
    report := CleanupReport(current, left, totalSize, false);
  }

  /** `cleanupLogs(...)`: nothing it meets escapes as an error. */
  method CleanupLogs(dir: string, listing: Option<seq<DirEntry>>, files: map<string, FileStat>, fails: set<string>,
                     now: int, maxTotalSizeBytes: int, maxFiles: Option<int>, maxFileAgeDays: int)
    returns (report: CleanupReport)
    ensures report == Cleanup(dir, listing, files, fails, now, maxTotalSizeBytes, maxFiles, maxFileAgeDays)
  {
    var remaining, afterAge := CollectSurvivors(dir, listing, files, fails, now, maxFileAgeDays);
    report := EnforceBudgets(remaining, afterAge, fails, maxTotalSizeBytes, maxFiles);
  }

  lemma SuffixSorted(r: seq<StatEntry>, s: seq<StatEntry>)
    requires SortedByMtime(s) && SuffixOf(r, s)
    ensures SortedByMtime(r)
  {
    forall i, j | 0 <= i < j < |r| ensures r[i].mtimeMs <= r[j].mtimeMs {
      assert r[i] == s[|s| - |r| + i] && r[j] == s[|s| - |r| + j];
    }
  }

  /** The budgets the loops promise: within the size budget unless the size
      loop stalls (and then nothing is left to delete), within the count
      budget when it applies, survivors still oldest first, and only
      survivors deleted. */
  lemma BudgetsHold(remaining: seq<StatEntry>, files: map<string, FileStat>, fails: set<string>,
                    maxTotalSizeBytes: int, maxFiles: Option<int>)
    requires SortedByMtime(remaining)
    ensures var r := Budgets(remaining, files, fails, maxTotalSizeBytes, maxFiles);
      (r.stalled <==> r.totalSize > maxTotalSizeBytes)
      && (r.stalled ==> r.remaining == [])
      && (!r.stalled && maxFiles.Some? && maxFiles.value > 0 ==> |r.remaining| <= maxFiles.value)
      && SortedByMtime(r.remaining) && SuffixOf(r.remaining, remaining)
      && DeletesOnlyFrom(Sweep(remaining, SumSizes(remaining), files), r.files)
  {
    var start := Sweep(remaining, SumSizes(remaining), files);
    var bySize := SizeSweep(start, fails, maxTotalSizeBytes);
    SuffixSorted(bySize.remaining, remaining);
    if bySize.total <= maxTotalSizeBytes && maxFiles.Some? && maxFiles.value > 0 {
      var byCount := CountSweep(bySize, fails, maxFiles.value);
      SuffixSorted(byCount.remaining, bySize.remaining);
      DeletesOnlyFromTrans(start, bySize, byCount.files);
    }
  }

  /** The same for the whole sweep. */
  lemma CleanupBudgets(dir: string, listing: Option<seq<DirEntry>>, files: map<string, FileStat>, fails: set<string>,
                       now: int, maxTotalSizeBytes: int, maxFiles: Option<int>, maxFileAgeDays: int)
    ensures var r := Cleanup(dir, listing, files, fails, now, maxTotalSizeBytes, maxFiles, maxFileAgeDays);
      (r.stalled <==> r.totalSize > maxTotalSizeBytes)
      && (r.stalled ==> r.remaining == [])
      && (!r.stalled && maxFiles.Some? && maxFiles.value > 0 ==> |r.remaining| <= maxFiles.value)
      && SortedByMtime(r.remaining)
  {
    BudgetsHold(Survivors(dir, listing, files, fails, now, maxFileAgeDays), AfterAge(dir, listing, files, fails, now, maxFileAgeDays),
                fails, maxTotalSizeBytes, maxFiles);
  }

  /** Where a survivor comes from: a `.log` file of the listing that exists
      after the age pass. */
  lemma SurvivorOrigin(dir: string, listing: Option<seq<DirEntry>>, files: map<string, FileStat>, fails: set<string>,
                       now: int, maxFileAgeDays: int, k: int)
    requires 0 <= k < |Survivors(dir, listing, files, fails, now, maxFileAgeDays)|
    ensures var s := Survivors(dir, listing, files, fails, now, maxFileAgeDays)[k];
      s.path in AfterAge(dir, listing, files, fails, now, maxFileAgeDays) && s.path in LogPaths(dir, listing.GetOr([]))
  {
    var stats := StatsFor(dir, listing, files);
    var unsorted := StatsOf(PathsOf(stats), AfterAge(dir, listing, files, fails, now, maxFileAgeDays));
    var s := SortByMtime(unsorted)[k];
    StatsOfFacts(LogPaths(dir, listing.GetOr([])), files);
    StatsOfFacts(PathsOf(stats), AfterAge(dir, listing, files, fails, now, maxFileAgeDays));
    assert s in multiset(unsorted);
    var i :| 0 <= i < |unsorted| && unsorted[i] == s;
    assert PathsOf(unsorted)[i] == s.path;
  }

  /** The sweep only ever deletes `.log` files of the listing, and changes no
      file it keeps. */
  lemma CleanupOnlyRemovesLogFiles(dir: string, listing: Option<seq<DirEntry>>, files: map<string, FileStat>, fails: set<string>,
                                   now: int, maxTotalSizeBytes: int, maxFiles: Option<int>, maxFileAgeDays: int)
    ensures var r := Cleanup(dir, listing, files, fails, now, maxTotalSizeBytes, maxFiles, maxFileAgeDays);
      (forall p :: p in r.files ==> p in files && r.files[p] == files[p])
      && (forall p :: p in files && p !in r.files ==> p in LogPaths(dir, listing.GetOr([])))
  {
    var stats := StatsFor(dir, listing, files);
    var afterAge := AfterAge(dir, listing, files, fails, now, maxFileAgeDays);
    var remaining := Survivors(dir, listing, files, fails, now, maxFileAgeDays);
    var r := Budgets(remaining, afterAge, fails, maxTotalSizeBytes, maxFiles);
    BudgetsHold(remaining, afterAge, fails, maxTotalSizeBytes, maxFiles);
    AgePurgeFacts(stats, files, fails, now, ToMs(maxFileAgeDays));
    StatsOfFacts(LogPaths(dir, listing.GetOr([])), files);
    forall p | p in files && p !in r.files ensures p in LogPaths(dir, listing.GetOr([])) {
      if p in afterAge {
        assert p in PathsOf(remaining);
        var k :| 0 <= k < |PathsOf(remaining)| && PathsOf(remaining)[k] == p;
        SurvivorOrigin(dir, listing, files, fails, now, maxFileAgeDays, k);
      } else {
        var i :| 0 <= i < |stats| && stats[i].path == p && Expired(stats[i], now, ToMs(maxFileAgeDays));
        assert PathsOf(stats)[i] == p;
      }
    }
  }

  lemma PathsOfDistinct(s: seq<StatEntry>)
    requires DistinctPaths(s)
    ensures forall i, j :: 0 <= i < j < |PathsOf(s)| ==> PathsOf(s)[i] != PathsOf(s)[j]
  {
  }

  /** When the listing has no duplicate names, every `.log` file can be
      unlinked and the budget is not negative, the size loop ends within
      budget: the sweep never stalls. */
  lemma NoStallWithoutFailures(dir: string, listing: Option<seq<DirEntry>>, files: map<string, FileStat>, fails: set<string>,
                               now: int, maxTotalSizeBytes: int, maxFiles: Option<int>, maxFileAgeDays: int)
    requires maxTotalSizeBytes >= 0
    requires var e := listing.GetOr([]); forall i, j :: 0 <= i < j < |e| ==> e[i].name != e[j].name
    requires forall p :: p in LogPaths(dir, listing.GetOr([])) ==> p !in fails
    ensures !Cleanup(dir, listing, files, fails, now, maxTotalSizeBytes, maxFiles, maxFileAgeDays).stalled
  {
    var paths := LogPaths(dir, listing.GetOr([]));
    var stats := StatsFor(dir, listing, files);
    var afterAge := AfterAge(dir, listing, files, fails, now, maxFileAgeDays);
    var unsorted := StatsOf(PathsOf(stats), afterAge);
    var remaining := Survivors(dir, listing, files, fails, now, maxFileAgeDays);
    LogPathsDistinct(dir, listing.GetOr([]));
    StatsOfDistinct(paths, files);
    PathsOfDistinct(stats);
    StatsOfDistinct(PathsOf(stats), afterAge);
    SortKeepsDistinct(unsorted);
    var start := Sweep(remaining, SumSizes(remaining), afterAge);
    forall k | 0 <= k < |remaining| ensures Unlinks(afterAge, fails, remaining[k].path) {
      SurvivorOrigin(dir, listing, files, fails, now, maxFileAgeDays, k);
    }
    assert Deletable(start, fails);
    SizeSweepMeetsBudget(start, fails, maxTotalSizeBytes);
  }

  /** A `.log` file whose unlink fails while the total is over budget makes
      the size loop spin: its size never leaves the total. */
  lemma FailedUnlinkStalls()
    ensures var p := Join("d", "a.log");
      Cleanup("d", Some([DirEntry("a.log", true)]), map[p := FileStat(10, 0)], {p}, 0, 5, None, 7).stalled
  {
    var p := Join("d", "a.log");
    var x := StatEntry(p, 10, 0);
    var files := map[p := FileStat(10, 0)];
    SingleSurvivor({p});
    var start := Sweep([x], 10, files);
    var one := AfterDeleteOldest(start, {p});
    assert one == Sweep([], 10, files);
    assert SizeSweep(start, {p}, 5) == one;
  }

  /** A negative size budget makes the size loop spin even once every file
      is gone, since an empty total of 0 is still above it. */
  lemma NegativeBudgetStalls(dir: string, files: map<string, FileStat>, fails: set<string>, now: int, maxFileAgeDays: int)
    ensures Cleanup(dir, Some([]), files, fails, now, -1, None, maxFileAgeDays).stalled
  {
    assert LogPaths(dir, []) == [];
    assert StatsFor(dir, Some([]), files) == [];
    assert Survivors(dir, Some([]), files, fails, now, maxFileAgeDays) == [];
  }

  /** The one-file directory of `FailedUnlinkStalls` survives the age pass
      unchanged, whichever unlinks fail. */
  lemma SingleSurvivor(fails: set<string>)
    ensures var p := Join("d", "a.log");
      var x := StatEntry(p, 10, 0);
      var files := map[p := FileStat(10, 0)];
      var listing := Some([DirEntry("a.log", true)]);
      Survivors("d", listing, files, fails, 0, 7) == [x] && AfterAge("d", listing, files, fails, 0, 7) == files
  {
    var e := DirEntry("a.log", true);
    var p := Join("d", "a.log");
    var x := StatEntry(p, 10, 0);
    var files := map[p := FileStat(10, 0)];
    var listing := Some([e]);
    assert EndsWith("a.log", ".log") by {
      assert "a.log"[1..] == ".log";
    }
    assert IsLogFile(e);
    assert LogPaths("d", [e]) == [p];
    assert [p][..0] == [];
    var stats := StatsFor("d", listing, files);
    assert stats == [x];
    assert [x][..0] == [];
    assert !Expired(x, 0, ToMs(7));
    assert AgePurge(stats, files, fails, 0, ToMs(7)) == files;
    assert PathsOf(stats) == [p];
    assert StatsOf([p], files) == [x];
    assert SortByMtime([x]) == [x];
  }
}
