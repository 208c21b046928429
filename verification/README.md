# IrikaSystemLogger, modelled in Dafny

IrikaSystemLogger is a Node.js logger. It writes every record twice: once as a coloured line on
the console, and once as a JSON line to a rolling log segment. A segment is written through a
small byte buffer. Records at ERROR, ASSERT and SECURITY level bypass the buffer. Every record
line is hashed; the EOF line and the exit hook's last write are not. A segment is rotated when
the calendar date changes or when the next line would push it past its size limit. Rotation
closes the segment with an EOF sentinel line that gives the reason, names the next segment and
carries the checksum of what was hashed.
A retention sweep deletes old log files, then the oldest ones, until the total size and the file
count are within budget. A reader streams a segment back, skipping blank, malformed and EOF
lines and filtering by level, trace id and substring, up to an optional line cap.

This project models that core:

- `types.dfy` (`Types`): the level ladder, log records and the EOF sentinel.
- `time.dfy` (`Time`): timestamp assembly from formatter parts and offset parsing.
- `config.dfy` (`Config`): option resolution and time-zone normalisation.
- `console_format.dfy` (`ConsoleFormat`): the console line.
- `files.dfy` (`Files`): segment names and the retention sweep.
- `reader.dfy` (`Reader`): the filtering reader.
- `transport.dfy` (`Transport`): the segment writer `FileTransport`.
- `logger.dfy` (`Logger`): the logger front end, `IrikaLogger`, with its fan-out to the
  console and file transports.
- `strings.dfy` (`Strings`) and `wrappers.dfy` (`Wrappers`) supply the JavaScript string
  built-ins the core relies on (trim, padding, upper-casing, number printing, UTF-8 byte length)
  and an `Option` type.

The writer is specified twice. Step functions on the `WriterState` datatype give one step per
task body. The class `Transport.FileTransport` has the same fields and updates them in place.
Each of its methods is proved to perform its step function, and the properties of the writer
are lemmas about the step functions. The logger's hub, `Logger.Hub`, holds the transport list.
Its methods loop over the transports, as the source's `for … of` loops do, and each is proved
equal to a fan-out function.

Inputs stand in for the environment:

- The disk is a map from segment names to the chunks appended to them, and for retention a map
  from paths to `(size, mtimeMs)`.
- Unlink failures are a set of paths.
- Clock readings (`Date.now()`, `new Date()`) and the formatted timestamps are parameters.
- `JSON.stringify`, SHA-256 and `JSON.parse` are given as the function values of an `Env`, or as
  a pre-parsed line.
- `Intl.DateTimeFormat` is given as its list of parts and its offset label. For the console
  stamp, a zone it rejects is a missing stamp (`Logger.Moment.consoleTs` is `None`).

## Model

| member | source | states |
|---|---|---|
| Types.LevelFromName | src/types.ts:1-10 | a level name read back maps only to the level whose name it is |
| Types.LevelNameRoundTrip | src/types.ts:1-10 | every level's name parses back to that level |
| Types.Priority | src/types.ts:12-21 | exactly SYSTEM has no priority; the others are multiples of 10 between 10 and 80 |
| Types.LadderIsStrictlyIncreasing | src/types.ts:12-21 | the non-SYSTEM levels are exactly the ladder, and priorities strictly increase along it |
| Types.PriorityInjective | src/types.ts:12-21 | two levels with the same priority are the same level |
| Types.MakeEof | src/types.ts:34-41 | an EOF record has level SYSTEM and type EOF and carries the given reason, next file, checksum and time |
| Strings.Utf8LengthAppend | src/transports/file.ts:47 | the byte length of a concatenation is the sum of the byte lengths |
| Strings.Utf8LengthBounds | src/transports/file.ts:47 | a string takes between 1 and 4 bytes per character, and exactly 1 per character iff all characters are ASCII |
| Strings.CharBytes | src/transports/file.ts:47 | one character takes 1 to 4 UTF-8 bytes, and 1 exactly when it is below 0x80 |
| Strings.SumBytesIsJoinedLength | src/transports/file.ts:179-186 | the running byte count of a buffer equals the byte length of the joined buffer |
| Strings.Trim | src/utils/config.ts:36 | the trimmed string neither starts nor ends with whitespace |
| Strings.TrimStart | src/utils/config.ts:36 | the result is a suffix of the input, and only whitespace was dropped in front of it |
| Strings.TrimEnd | src/utils/config.ts:36 | the result is a prefix of the input, and only whitespace was dropped after it |
| Strings.TrimIdempotent | src/utils/config.ts:36 | trimming twice is trimming once |
| Strings.TrimNoEdgeWhitespace | src/utils/config.ts:36 | a string with no whitespace at either end is left unchanged by trimming |
| Strings.TrimEmptyIffBlank | src/reader.ts:20 | a line trims to empty exactly when every character is whitespace |
| Strings.PadStart | src/utils/time.ts:61 | left padding reaches the width (or keeps the length), ends with the input and fills only with the pad character |
| Strings.PadEnd | src/utils/console-format.ts:26 | right padding reaches the width (or keeps the length), starts with the input and fills only with the pad character |
| Strings.Repeat | src/utils/console-format.ts:26 | the fill has the requested length and holds only the fill character |
| Strings.NatToString | src/utils/files.ts:19 | a natural number prints as a non-empty digit string without a leading zero |
| Strings.NatToStringRoundTrip | src/utils/files.ts:19 | reading the printed digits back gives the number |
| Strings.NatToStringInjective | src/utils/files.ts:19 | different naturals print differently |
| Strings.IntToString | src/utils/files.ts:19 | an integer prints non-empty, and all digits iff it is not negative |
| Strings.IntToStringInjective | src/utils/files.ts:19 | different integers print differently |
| Strings.DigitChar | src/utils/files.ts:19 | a digit value maps to the digit character of that value |
| Strings.DigitsThenSeparator | src/utils/files.ts:19 | a digit run ended by a non-digit separator can be split off uniquely |
| Strings.FirstSeparator | src/utils/files.ts:19 | in a digit run followed by a separator, the separator is the first non-digit |
| Strings.ConcatAppend | src/transports/file.ts:181 | joining a buffer with one more chunk appends that chunk to the joined text |
| Strings.SumBytesAppend | src/transports/file.ts:60 | pushing a line adds its byte length to the buffer's byte count |
| Strings.EndsWithConcat | src/utils/files.ts:19 | a string with a suffix appended ends with that suffix |
| Time.FirstSignDigit | src/utils/time.ts:58 | the search finds the first sign that is followed by a digit, or reports that none exists |
| Time.MatchOffset | src/utils/time.ts:58 | the offset pattern fails exactly when no sign is followed by a digit; on a match it gives a sign, 1-2 hour digits and optionally 2 minute digits |
| Time.PadTwoDigits | src/utils/time.ts:61 | padding 1-2 digits to width 2 gives two digits |
| Time.ParseOffset | src/utils/time.ts:56-64 | the offset is always `±HH:MM`; with no match it is `+00:00`, otherwise it keeps the matched sign, pads the hours to two digits and uses the minutes or `00` |
| Time.ParseOffsetPadsHours | src/utils/time.ts:56-64 | `GMT+8` gives `+08:00` |
| Time.ParseOffsetKeepsMinutes | src/utils/time.ts:56-64 | `GMT-05:30` gives `-05:30` |
| Time.ParseOffsetGreedyHours | src/utils/time.ts:56-64 | `GMT+530` takes two hour digits and gives `+53:00` |
| Time.CollectParts | src/utils/time.ts:69-72 | the loop builds the map of non-literal parts defined by `ByType` |
| Time.ByTypeKeys | src/utils/time.ts:69-72 | a part type is a key exactly when some part has it and it is not `literal` |
| Time.ByTypeLastWins | src/utils/time.ts:69-72 | for a repeated type the last part's value is kept |
| Time.StampShape | src/utils/time.ts:74-89 | the timestamp starts with the date key and `T` and ends with the offset; with no date parts the date key is `0000-00-00` |
| Time.FormatTimestamp | src/utils/time.ts:66-90 | the result is the stamp assembled from the collected parts and the parsed offset, and the timestamp starts with its own date key and `T` |
| Time.FormatConsoleTimestamp | src/utils/time.ts:92-108 | the console stamp is assembled from the collected parts, with `00` for missing ones |
| Time.ConsoleStampShape | src/utils/time.ts:107 | with two-digit parts the console stamp is 14 characters long, shaped `MM-DD HH:MM:SS` |
| Time.ToMs | src/utils/time.ts:110-112 | an integer day count converts to that many 86,400,000 ms days, non-negative for non-negative days |
| Config.MatchUtc | src/utils/config.ts:37 | a match starts with `UTC` in any case and gives the sign, 1-2 hour digits and optional 2 minute digits |
| Config.MatchUtcRest | src/utils/config.ts:37 | the rest after `UTC±` matches only as 1-2 digits, an optional colon and 2 digits, to the end |
| Config.NormalizeTimeZone | src/utils/config.ts:35-45 | a zone not of the `UTC±h[h][[:]mm]` form is returned trimmed |
| Config.NormalizeMatched | src/utils/config.ts:40-44 | a matching zone with no or `00` minutes becomes `Etc/GMT` with the sign inverted and the hour value without a leading zero; one with other minutes is returned trimmed |
| Config.PaddingKeepsValue | src/utils/config.ts:41-44 | padding the hours with `0` does not change the value `parseInt` reads |
| Config.EtcZoneIsFixed | src/utils/config.ts:35-45 | an `Etc/GMT±h` zone normalises to itself |
| Config.EtcZoneEdges | src/utils/config.ts:44 | the produced zone starts with `E` and ends with a digit, so trimming leaves it alone |
| Config.NotUtc | src/utils/config.ts:37 | a zone not starting with `U` or `u` does not match |
| Config.NormalizeTrimmed | src/utils/config.ts:36 | surrounding whitespace does not affect normalisation |
| Config.NormalizeIdempotent | src/utils/config.ts:35-45 | normalising twice is normalising once |
| Config.NormalizeUtcPlusEight | src/utils/config.ts:8 | the default zone `UTC+8` becomes `Etc/GMT-8` |
| Config.UtcPlusEightMatches | src/utils/config.ts:37 | `UTC+8` matches with sign `+`, hours `8` and no minutes |
| Config.NormalizeNamedZone | src/utils/config.ts:38 | a named zone with leading space is only trimmed |
| Config.FieldPrecedence | src/utils/config.ts:63-67 | after the three spreads, the user options decide a field whenever they hold the key (even as `undefined` or `null`), else the config file does, else the defaults; a deciding `undefined` or `null` falls back to the default through `??` |
| Config.ResolveLevel | src/utils/config.ts:70-71 | the level is the upper-cased candidate when that names a ranked level, otherwise INFO; it always has a priority |
| Config.ResolveOptions | src/utils/config.ts:61-87 | the resolved level is never SYSTEM and has a priority; app and version come from the caller |
| Config.ResolvePrecedence | src/utils/config.ts:63-87 | a user size limit wins, else the file's, and `undefined`/`null` give the 3 MiB default; with no level anywhere the level is INFO; with no config and no user limit the file count is unlimited |
| Config.DefaultTimezoneResolves | src/utils/config.ts:8 | with no zone given the resolved zone is `Etc/GMT-8` |
| ConsoleFormat.Color | src/utils/console-format.ts:21-23 | a coloured text starts with its code, ends with reset and holds the text unchanged between them |
| ConsoleFormat.LevelStyle | src/utils/console-format.ts:25-46 | the level badge is its background plus white, then the level name padded to 9 with spaces, then reset |
| ConsoleFormat.LevelBackgrounds | src/utils/console-format.ts:27-45 | red for ERROR, ASSERT and SECURITY; yellow for WARN; blue for INFO and PERFORMANCE; green for DEBUG; magenta for VERBOSE and SYSTEM; each iff |
| ConsoleFormat.ModPart | src/utils/console-format.ts:54 | the module part is empty exactly when the module is absent or empty, else a space and the blue module |
| ConsoleFormat.CtxPart | src/utils/console-format.ts:57-65 | the context part is empty exactly when context is switched off, absent or has no keys, else a space and the grey JSON |
| ConsoleFormat.FormatConsoleLine | src/utils/console-format.ts:48-67 | for fields free of escape characters, the line with its colour codes stripped reads `stamp LEVEL···· app[ mod] > msg[ ctx]`, the level name padded to nine columns |
| ConsoleFormat.VisibleGrouped | src/utils/console-format.ts:66 | stripping the colour codes from the assembled parts leaves their plain texts in order |
| ConsoleFormat.VisibleTail | src/utils/console-format.ts:54-66 | the tail from the module part on reads `[ mod] > msg[ ctx]` once stripped |
| ConsoleFormat.VisibleModPart | src/utils/console-format.ts:54 | the module part reads ` mod` or nothing once stripped |
| ConsoleFormat.VisibleCtxPart | src/utils/console-format.ts:57-65 | the context part reads ` json` or nothing once stripped |
| ConsoleFormat.VisibleColor | src/utils/console-format.ts:21-23 | stripping a coloured text leaves the text |
| ConsoleFormat.VisibleColor2 | src/utils/console-format.ts:30 | stripping a text coloured with two codes leaves the text |
| ConsoleFormat.VisibleSgr | src/utils/console-format.ts:4-19 | a colour code is invisible once stripped |
| ConsoleFormat.VisiblePlainPrefix | src/utils/console-format.ts:66 | plain text before the rest survives stripping unchanged |
| ConsoleFormat.CodesAreSgr | src/utils/console-format.ts:4-19 | every ANSI constant is an `ESC [ … m` colour code |
| ConsoleFormat.PaddedNameIsPlain | src/utils/console-format.ts:26 | a padded level name holds no escape character |
| ConsoleFormat.Visible | src/utils/console-format.ts:4-19 | the stripped text is no longer than the input and holds no escape |
| ConsoleFormat.AfterSgrSkips | src/utils/console-format.ts:4-19 | stripping a code skips up to and including its `m` |
| ConsoleFormat.ContextSwitchedOff | src/utils/console-format.ts:57-58 | with context switched off the line is the one for a record without context |
| ConsoleFormat.EmptyModuleIsAbsent | src/utils/console-format.ts:54 | an empty module name gives the same line as no module |
| Files.GenerateLogFileName | src/utils/files.ts:10-20 | a segment name starts with `app_vversion_dateKey_` and ends with `.log` |
| Files.SequenceDistinguishesNames | src/utils/files.ts:10-20 | names differing only in sequence number differ |
| Files.NameDeterminesStampAndSequence | src/utils/files.ts:10-20 | for fixed app, version, date and pid, a name determines its (non-negative) timestamp and its sequence |
| Files.DistinctSequencesDistinctNames | src/utils/files.ts:10-20 | two names with the same app, version, date and pid and different sequences never coincide |
| Files.JoinDistinct | src/utils/files.ts:35 | joining different names to one directory gives different paths |
| Files.LogPaths | src/utils/files.ts:33-35 | the filtered list is no longer than the listing |
| Files.LogPathsMembers | src/utils/files.ts:33-35 | a path is selected exactly when it joins the directory to the name of a regular `.log` entry |
| Files.LogPathsDistinct | src/utils/files.ts:33-35 | distinct entry names give distinct paths |
| Files.PathsOf | src/utils/files.ts:37-45 | the path list lines up with the stat entries |
| Files.StatsOf | src/utils/files.ts:37-45 | statting never yields more entries than there are paths |
| Files.StatsOfFacts | src/utils/files.ts:37-45 | each stat entry gives the size and mtime on disk, and exactly the listed paths that exist are kept |
| Files.StatsOfDistinct | src/utils/files.ts:37-45 | distinct paths give stat entries with distinct paths |
| Files.CollectStats | src/utils/files.ts:37-45 | the loop collects the stats `StatsOf` defines |
| Files.Unlink | src/utils/files.ts:51 | an unlink removes just that path, unless it fails or the path is gone, and leaves every other file as it was |
| Files.ExpiredPathSnoc | src/utils/files.ts:48-56 | a path is expired in a longer list iff it was in the shorter one or is the new, expired entry |
| Files.AgePurgeFacts | src/utils/files.ts:47-56 | after the age pass a file survives exactly when it was there and is not an expired stat entry, or its unlink failed; survivors keep their stats |
| Files.PurgeByAge | src/utils/files.ts:47-56 | the loop removes exactly what `AgePurge` defines |
| Files.AgeLimitIsStrict | src/utils/files.ts:49 | a file exactly the maximum age old is kept |
| Files.InsertByMtime | src/utils/files.ts:68 | insertion adds exactly the one entry |
| Files.InsertKeepsSorted | src/utils/files.ts:68 | inserting into a list sorted oldest first keeps it sorted |
| Files.SortByMtime | src/utils/files.ts:68 | the result is a permutation of the input, sorted oldest first |
| Files.InsertKeepsDistinct | src/utils/files.ts:68 | inserting a new path keeps paths distinct |
| Files.SortKeepsDistinct | src/utils/files.ts:68 | sorting keeps paths distinct |
| Files.AfterDeleteOldest | src/utils/files.ts:72-81 | deleting the oldest drops the head of the list; when its unlink succeeds its size leaves the total and its path leaves the disk, and when the unlink fails both stay; nothing outside the list is deleted, and an empty list is left alone |
| Files.DeleteOldest | src/utils/files.ts:72-81 | the method performs `AfterDeleteOldest` |
| Files.DeletesOnlyFromTrans | src/utils/files.ts:72-91 | two sweeps in a row delete only files from the first list |
| Files.SizeSweep | src/utils/files.ts:83-85 | the size sweep ends under budget or with nothing left, keeps a suffix of the list and deletes only listed files |
| Files.CountSweep | src/utils/files.ts:87-91 | the count sweep leaves at most the cap (exactly the cap when over it), keeps a suffix and deletes only listed files |
| Files.SweepBySize | src/utils/files.ts:83-85 | the loop performs `SizeSweep`, and reports a stall exactly when the total is still over budget |
| Files.SweepByCount | src/utils/files.ts:87-91 | the loop performs `CountSweep` |
| Files.DeleteOldestKeepsDeletable | src/utils/files.ts:72-81 | when every listed file can be deleted and totals match, that stays true after one deletion |
| Files.SizeSweepMeetsBudget | src/utils/files.ts:83-85 | when every listed file can be deleted, the size sweep always reaches a non-negative budget |
| Files.CollectSurvivors | src/utils/files.ts:31-65 | the method lists, stats, purges by age and re-stats as `Survivors` and `AfterAge` define |
| Files.EnforceBudgets | src/utils/files.ts:68-91 | the method sorts, totals and sweeps as `Budgets` defines |
| Files.CleanupLogs | src/utils/files.ts:22-92 | the method performs `Cleanup` |
| Files.SuffixSorted | src/utils/files.ts:68-73 | a suffix of a sorted list is sorted |
| Files.BudgetsHold | src/utils/files.ts:68-91 | unless it stalls, the sweep ends within the size budget and, for a positive cap, within the file cap; the rest stays sorted oldest first, and only listed files are deleted |
| Files.CleanupBudgets | src/utils/files.ts:22-92 | a whole cleanup ends within the size budget (or stalls with nothing left to delete) and within a positive file cap, keeping the oldest-first order |
| Files.SurvivorOrigin | src/utils/files.ts:58-65 | every survivor is a listed `.log` path still present after the age pass |
| Files.CleanupOnlyRemovesLogFiles | src/utils/files.ts:22-92 | cleanup never changes a file it keeps and deletes only paths of listed `.log` entries |
| Files.PathsOfDistinct | src/utils/files.ts:59-65 | distinct stat entries give a list of distinct paths |
| Files.NoStallWithoutFailures | src/utils/files.ts:83-85 | with distinct names, no failing unlink and a non-negative budget, the size loop always ends |
| Files.FailedUnlinkStalls | src/utils/files.ts:72-85 | one 10-byte `.log` file whose unlink fails, under a 5-byte budget, makes the size loop stall: the total never drops |
| Files.NegativeBudgetStalls | src/utils/files.ts:83-85 | a negative size budget makes the size loop stall, even on an empty directory, since a total of 0 is still above it |
| Files.SingleSurvivor | src/utils/files.ts:37-68 | a fresh one-file directory passes the stat and age passes unchanged and survives as one entry |
| Reader.MinScore | src/reader.ts:16 | a minimum score exists exactly when a minimum level other than SYSTEM is given, and it is at least 10 |
| Reader.Selected | src/reader.ts:18-33 | the reader never yields more records than there are lines |
| Reader.Bound | src/reader.ts:19 | there is a cap exactly when `maxLines` is given and non-zero; a positive value is the cap and a negative one caps at zero |
| Reader.ReadLog | src/reader.ts:12-35 | the loop yields exactly the capped selection `Limited` |
| Reader.KeepLine | src/reader.ts:20-27 | the loop body keeps a line exactly when it passes the per-line test `Passes` (not blank, parsed to a value other than `null`, not EOF, through all three filters) |
| Reader.SkipRecord | src/reader.ts:24-27 | the three `continue` conditions hold together exactly when the level, trace id or substring filter rejects the record |
| Reader.SelectedAppend | src/reader.ts:18-33 | the selection over two runs of lines is the two selections in order |
| Reader.SelectedStep | src/reader.ts:18-33 | one more line adds its record exactly when the line passes |
| Reader.SelectedPrefix | src/reader.ts:18-33 | the selection over a prefix of the lines is a prefix of the whole selection |
| Reader.SelectedSound | src/reader.ts:20-29 | every yielded record comes from a line that passes the filter |
| Reader.SelectedComplete | src/reader.ts:20-29 | every passing line's record is selected |
| Reader.LimitedIsCappedPrefix | src/reader.ts:19-29 | the output is a prefix of the selection: all of it without a cap, otherwise the first `min(selected, cap)` records |
| Reader.YieldedSatisfiesFilter | src/reader.ts:20-29 | each yielded record parsed to a value other than `null`, is not EOF, matches a given trace id and substring, and a ranked level is not below the minimum |
| Reader.UncappedYieldsEveryPassingLine | src/reader.ts:18-29 | without a cap every passing line is yielded |
| Reader.LevelFilterSparesSystemAndUnknown | src/reader.ts:24-25 | SYSTEM records and records with an absent or unknown level are never dropped by the minimum level |
| Reader.SystemMinimumFiltersNothing | src/reader.ts:16 | a SYSTEM minimum is the same as no minimum |
| Reader.FalsyOptionsAreIgnored | src/reader.ts:19-27 | empty trace id, empty substring and `maxLines` 0 act as if not given |
| Reader.NoFilterPassesEveryRecord | src/reader.ts:20-23 | with no filter every non-blank, parsable, non-EOF line is yielded |
| Reader.RaisingMinimumNarrows | src/reader.ts:25 | a line passing a higher minimum passes a lower one |
| Reader.ScenarioLineVerdicts | tests/logger.test.ts:47-65 | with minimum WARN and trace id t2, only the ERROR line of the sample passes |
| Reader.ScenarioYieldsErrorOnly | tests/logger.test.ts:47-65 | the sample file yields just the ERROR record |
| Transport.Append | src/transports/file.ts:157-170 | a write appends the chunk to that segment only and adds no other file |
| Transport.RotationReason | src/transports/file.ts:52 | an automatic rotation is never `manual` |
| Transport.InitFacts | src/transports/file.ts:100-128 | the new writer is consistent, open on the sequence-0 segment for the current date, with an empty buffer and size 0 |
| Transport.WriteLineKeepsAccounts | src/transports/file.ts:148-155 | writing a line keeps the size in step with the bytes hashed and the hash in step with the segment's tail |
| Transport.FlushFacts | src/transports/file.ts:179-186 | a flush empties the buffer; if it held lines and the stream is open, their join is hashed and appended to the segment, otherwise nothing is written |
| Transport.BufferKeepsAccounts | src/transports/file.ts:59-63 | buffering a line keeps the byte count in step with the buffer |
| Transport.RotateFacts | src/transports/file.ts:196-234 | rotation flushes, closes the old segment with an EOF line whose checksum digests everything hashed there and which names the new segment, resets hash, size and buffer, takes the date from the clock, resets the sequence on a date change and raises it otherwise, and leaves other files alone |
| Transport.ChecksumScope | src/transports/file.ts:197-198 | the checksum covers the lines already written plus the buffered lines |
| Transport.LogKeepsAccounts | src/transports/file.ts:44-66 | logging a record keeps the writer consistent |
| Transport.CloseFacts | src/transports/file.ts:72-82 | close flushes the buffer and leaves the stream ended |
| Transport.ExitFacts | src/transports/file.ts:130-146 | the exit hook empties the buffer and appends its join to the segment only when the descriptor write happens, without hashing |
| Transport.BufferStaysUnderBatch | src/transports/file.ts:59-63 | after a record that serialises is buffered, the buffer is empty or below the batch size; a record that does not serialise leaves the writer unchanged |
| Transport.DirectLineBypassesBuffer | src/transports/file.ts:56-57 | when no rotation is due, an ERROR, ASSERT or SECURITY line is hashed and appended at once, leaving the buffer as it was |
| Transport.BufferedLineWaits | src/transports/file.ts:59-63 | when no rotation is due, a lower-level line below the batch size waits in the buffer and nothing is written |
| Transport.DirectOvertakesBuffered | src/transports/file.ts:56-63 | a buffered INFO line reaches the segment after a later ERROR line |
| Transport.LogRotatesWhenDue | src/transports/file.ts:51-54 | when rotation is due the record goes to the next segment: a date change resets the sequence, a size overflow raises it; otherwise the segment is unchanged |
| Transport.OversizedLineRotatesEmptySegment | src/transports/file.ts:172-177 | a line bigger than the size limit rotates even an empty segment, which then holds only the EOF line with the digest of nothing |
| Transport.RotationFollowsClockDate | src/transports/file.ts:199-225 | if the date at rotation time differs from the record's date, the next record rotates again |
| Transport.ClosedWriterDiscards | src/transports/file.ts:149-173 | once the stream is ended, logging and flushing write nothing and never rotate |
| Transport.FlushedLogFacts | src/transports/file.ts:44-66 | with a batch size of at most 1, a buffered record is flushed at once: the open segment gains one chunk, the earlier buffer joined with the line, its size grows by those bytes, the buffer empties and other segments are untouched |
| Transport.FirstLineOversized | tests/logger.test.ts:20-45 | if the first of two lines alone exceeds the limit, the fresh first segment still ends with an EOF line naming another segment on disk |
| Transport.FirstLineFits | tests/logger.test.ts:20-45 | if the first line fits and the second overflows, the fresh first segment ends with an EOF line naming another segment on disk |
| Transport.TwoLinesOverTheLimitRotate | tests/logger.test.ts:20-45 | from a freshly started writer, two lines that together overflow the limit leave the first segment ending with an EOF line that names a different segment present on disk |
| Transport.FileTransport.constructor | src/transports/file.ts:27-42 | the new writer is in the initial state, consistent and in step with its hash |
| Transport.FileTransport.InitializeFile | src/transports/file.ts:100-114 | sets the date and sequence 0 and opens the generated segment |
| Transport.FileTransport.OpenStream | src/transports/file.ts:116-128 | opens the named segment with size 0 and a fresh hash |
| Transport.FileTransport.WriteToStream | src/transports/file.ts:157-170 | appends the chunk to the open segment |
| Transport.FileTransport.WriteLine | src/transports/file.ts:148-155 | hashes, counts and writes the line when a stream is open |
| Transport.FileTransport.FlushBuffer | src/transports/file.ts:179-186 | performs the flush step |
| Transport.FileTransport.EndStream | src/transports/file.ts:188-194 | ends the stream |
| Transport.FileTransport.ShouldRotate | src/transports/file.ts:172-177 | rotation is due exactly when a stream is open and the date differs or the line would overflow the segment |
| Transport.FileTransport.Rotate | src/transports/file.ts:196-234 | performs the rotation step |
| Transport.FileTransport.Log | src/transports/file.ts:44-66 | performs the log step: drop on a serialisation failure, rotate if due, then write directly or buffer |
| Transport.FileTransport.BufferLine | src/transports/file.ts:58-63 | performs the buffering step: the line and its bytes join the buffer, flushed once the batch size is reached |
| Transport.FileTransport.Flush | src/transports/file.ts:68-70 | performs the flush step |
| Transport.FileTransport.Close | src/transports/file.ts:72-82 | flushes, then ends the stream |
| Transport.FileTransport.OnExit | src/transports/file.ts:130-146 | performs the exit step |
| Logger.LadderPosition | src/types.ts:12-21 | each ranked level has its place on the ladder |
| Logger.GateMatchesLadder | src/logger.ts:48 | a record is emitted exactly when it is SYSTEM or at or above the minimum level on the ladder |
| Logger.PriorityIsPosition | src/types.ts:12-21 | a level's priority is ten times its one-based ladder position |
| Logger.RootGate | src/logger.ts:35-48 | a root logger's minimum is defined, admits its own level and rejects every lower ranked level |
| Logger.SinkLogCalls | src/logger.ts:61-63 | one transport's `log` adds exactly its own call to the calls made, and only the console's throws, exactly when it has no stamp |
| Logger.FirstConsole | src/logger.ts:61-63 | the index found is that of the first console transport, or the list's length when there is none |
| Logger.Reached | src/logger.ts:61-63 | the transports reached are a prefix of the list, and all of it when the fan-out does not throw |
| Logger.ReachedSnoc | src/logger.ts:61-63 | a list that throws keeps throwing and reaching the same transports when one more is added; otherwise the new one is reached, and throws exactly when it is the console without a stamp |
| Logger.LogFanoutCalls | src/logger.ts:61-63 | fanning out adds one `log` call per transport reached, in list order, after the earlier calls, and throws exactly when a console transport has no stamp |
| Logger.ThrowEndsFanout | src/logger.ts:61-63 | once a prefix of the list has thrown, the transports after it are never called |
| Logger.LogFanoutOrder | src/logger.ts:61-63 | the record reaches each transport reached once, in list order, after the earlier calls; without a throw that is every transport |
| Logger.FlushFanoutOrder | src/logger.ts:106-110 | flush reaches every transport once, in list order |
| Logger.CloseFanoutOrder | src/logger.ts:112-116 | close reaches every transport once, in list order |
| Logger.StandardFanout | src/logger.ts:61-63 | with the console and file transports and a console stamp, the console gets the formatted line (context included) and the file writer takes its log step; without a stamp the console throws, nothing is printed and the writer state is unchanged |
| Logger.GateDecidesDelivery | src/logger.ts:48-63 | an emitted record makes one call per transport reached and throws exactly when the fan-out does; a gated one makes none, changes nothing and does not throw |
| Logger.Hub.constructor | src/logger.ts:36 | the transport list is console then file, with nothing logged yet |
| Logger.Hub.LogAll | src/logger.ts:61-63 | the loop performs the log fan-out over the transports, stopping at the first throw and reporting it |
| Logger.Hub.FlushAll | src/logger.ts:106-110 | the loop performs the flush fan-out |
| Logger.Hub.CloseAll | src/logger.ts:112-116 | the loop performs the close fan-out |
| Logger.IrikaLogger.constructor | src/logger.ts:29-45 | a root logger resolves its options, starts a fresh console and file transport pair on the initial writer state and has no module name |
| Logger.IrikaLogger.Shared | src/logger.ts:30-44 | a shared logger reuses the given transports, options and module name |
| Logger.IrikaLogger.Child | src/logger.ts:98-104 | a child shares its parent's transports, options, pid and minimum and carries the module name |
| Logger.IrikaLogger.Emit | src/logger.ts:47-64 | gates the level and fans out the record built from the moment's stamp, the level, the app, the module name, the message, the pid, the trace id and the context; `threw` reports the console transport's exception escaping to the caller |
| Logger.IrikaLogger.Verbose | src/logger.ts:66-68 | emits at VERBOSE, reporting a throw as `Emit` does |
| Logger.IrikaLogger.Debug | src/logger.ts:70-72 | emits at DEBUG, reporting a throw as `Emit` does |
| Logger.IrikaLogger.Info | src/logger.ts:74-76 | emits at INFO, reporting a throw as `Emit` does |
| Logger.IrikaLogger.Warn | src/logger.ts:78-80 | emits at WARN, reporting a throw as `Emit` does |
| Logger.IrikaLogger.Error | src/logger.ts:82-84 | emits at ERROR, reporting a throw as `Emit` does |
| Logger.IrikaLogger.Assert | src/logger.ts:86-88 | emits at ASSERT, reporting a throw as `Emit` does |
| Logger.IrikaLogger.Security | src/logger.ts:90-92 | emits at SECURITY, reporting a throw as `Emit` does |
| Logger.IrikaLogger.Performance | src/logger.ts:94-96 | emits at PERFORMANCE, reporting a throw as `Emit` does |
| Logger.IrikaLogger.Flush | src/logger.ts:106-110 | flushes every transport in order |
| Logger.IrikaLogger.Close | src/logger.ts:112-116 | closes every transport in order |

## Left out

- Node I/O is left out. Streams, `readdir`, `stat`, `unlink`, `existsSync` and `mkdirSync` are
  replaced by maps of files and by a set of paths whose unlink fails. `ensureDir` is not modelled.
- Every stream write succeeds. Write errors, `drain` back-pressure and `highWaterMark` are not
  modelled. The rejection swallowed by the write queue (`src/transports/file.ts:84-91`) is
  modelled only for a failing `JSON.stringify`, which drops the record.
- Transport.FileTransport.Log: in the source, `log` only enqueues a task
  (`src/transports/file.ts:44-45,84-86`). `JSON.stringify(record)` runs later, after `emit` and
  the caller's synchronous code have returned. The model serialises an immutable record at once,
  so two effects are not captured:
  - `record.ctx` is the caller's own object (`src/logger.ts:51-59`). A caller that changes it
    after the call, as in `c.i = k; logger.info("m", c)` in a loop, gets file lines showing the
    last value. The console lines show each value, because they are formatted synchronously.
  - A `process.exit()` straight after a call loses that record, even at a direct level, because
    its queued task never runs.
- The promise queue is modelled as calls that run one after another. Interleavings of
  unawaited tasks are not modelled.
- The flush timer (`src/transports/file.ts:93-98`) and the `process.once("exit")` registration
  are not modelled as such. A timer tick is a `Flush` call, and the exit hook is the `OnExit`
  method, whose descriptor write is an input.
- The retention sweep that runs at start-up and after each rotation
  (`src/transports/file.ts:32-39,228-233`) is modelled on its own as `Files.CleanupLogs`. It is
  not wired into the writer. The effect this hides is a hang. When the size loop stalls
  (`Files.FailedUnlinkStalls`, `Files.NegativeBudgetStalls`), the list empties and
  `deleteOldest()` resolves at once, so `while (totalSize > max) await deleteOldest()`
  (`src/utils/files.ts:72-85`) loops on microtasks forever. That starves the event loop, so
  timers, I/O and the application stop. This happens in the start-up sweep as well as in the
  one after a rotation.
- SHA-256, `JSON.stringify` and `JSON.parse` are inputs (`Env`, `Reader.Line.parsed`).
- `Intl.DateTimeFormat` is an input: its parts and offset label. For `formatTimestamp` these
  include the fallback to UTC for an unknown zone (`src/utils/time.ts:6-51`). The console stamp
  has no fallback (`src/utils/time.ts:92-101`): a rejected zone, such as `UTC+5:30`, which
  `normalizeTimeZone` passes through, makes it throw. That is modelled as a missing
  `Moment.consoleTs`.
- `Date.now()` and `new Date()` readings are inputs. `Logger.Moment` does not tie its
  timestamp, console stamp, date key and rotation clock to one instant.
- Logger.StandardFanout: the console line is formatted from a console stamp given in the moment.
  The model does not re-derive it from the record's `ts` and the zone, and does not decide which
  zones `Intl` rejects.
- Logger.IrikaLogger.Emit: the thrown `RangeError` is a `threw` result. What the caller does with
  it is not modelled.
- `path.join` normalisation and `path.resolve` are not modelled. A path is the directory, `/`
  and the name.
- Files.SortByMtime: a functional insertion sort on a sequence rather than `Array.prototype.sort`
  in place. The model does not state the order of entries with equal mtimes.
- Files.SweepBySize: where the source's size loop would spin forever, the model stops and reports
  `stalled`. This happens when an unlink keeps failing while the total is over budget, or when
  `maxTotalSizeBytes` is negative, since an empty total of 0 is still above it
  (`src/utils/files.ts:83-85`).
- Time.ToMs: day counts are integers. A fractional `maxFileAgeDays`, which JavaScript would
  multiply out to a fractional millisecond age, is not modelled.
- Files.Cleanup: `mtimeMs` values and ages are whole milliseconds. Sub-millisecond or fractional
  mtimes, and their effect on the age test and on the oldest-first sort, are not modelled.
- Files.StatsOf: its own contract only bounds the length. Which entries it keeps is stated by
  `Files.StatsOfFacts`, and that distinct paths give distinct entries by `Files.StatsOfDistinct`.
  A listing never names a file twice, so the model does not rely on that.
- Values of the wrong JSON type in the config file or the user options are not modelled. Each
  option is given, `undefined`, `null` or absent, with a value of the right type.
  `readConfigFile`'s reading and parsing is an input, `fileConfig`, that is empty when the file
  is missing or broken.
- Reader: a non-string `lvl` is treated as an absent level. A fractional `maxLines` is not
  modelled, and neither is the line splitting done by `readline`. The input is the sequence of
  lines.
- The `ipc_master` warning on the console (`src/logger.ts:38-42`) is left out. The `logDir`,
  `flushIntervalMs` and `highWaterMark` options are resolved by `Config` but not used further.
- `createLogger` (`src/logger.ts:119-121`) is the root constructor `Logger.IrikaLogger.constructor`.
- Transport.FileTransport.WriteLine: the `updateHash` flag is always true at the source's call
  sites, so the model always hashes.
- Strings.Utf8Length: Dafny characters are Unicode scalar values, so lone UTF-16 surrogates,
  which `Buffer.byteLength` counts as 3 bytes, are not modelled.
