# drivewipe, modelled in Dafny

This project models the drive-wipe station of Free Geek Vancouver's hardware
testing tools:

- **The runner** (`drivewipe/wipe_device.rb`, with its test classes in
  `drivewipe/lib/wipeTestClasses.rb`). It runs one drive through SMART checks,
  badblocks, partitioning and formatting. It prints one protocol line per event
  and ends with one `Complete:` line that says what to do with the drive.
- **The supervisor's decoder** (`drivewipe/wipe.rb`). It buffers each runner's
  standard output, cuts it into lines, and keeps a per-drive view of the
  tests, plan and verdict.
- **The multipart upload body** (`drivewipe/lib/multipart.rb`).

Child processes, clocks and HTTP are replaced by plain inputs:

- a child is a sequence of polls; each poll holds the chunks read from stdout
  and stderr and whether each pipe reached end of file;
- an exit status is an integer in 0..255;
- times are reals;
- `"%5.2f" % x`, `Time#to_s` and `CGI::escape` are function parameters.

The test classes appear twice in the repository, once in the library and once
inlined at `drivewipe/wipe_device.rb:140-443`. The same holds for `Multipart`,
at `drivewipe/wipe_device.rb:18-99`. Each is modelled once; the table cites the
library copy.

Modules:

- `Text`: Ruby string helpers.
- `Smart`: the smartctl exit-status bits.
- `Devices`: the runner's `Device`.
- `Multipart`: the upload body and its parser.
- `WipeTests`: `TestResult`, `BaseTest` and its four subclasses as the class
  `ChildTest`, and `SmartSelfTest` as `SelfTestRun`.
- `Protocol`: the lines the runner prints.
- `Runner`: `run`, the decision tree and `complete`.
- `Patterns`: the regular expressions the supervisor matches.
- `Session`: the supervisor's `Device` as the class `Monitor`, `parse` and
  `drives`.
- `RoundTrip`: what the runner writes is what the supervisor reads.

Where the system's written description and the code disagree, the model follows
the code:

- The self-test length is 300 seconds. The code adds the 15-second grace only
  in a branch whose pattern never matches.
- Bit 6 of the SMART status (`error_log?`) is never consulted by the runner's
  decision tree.
- A parse error in `update` is raised out of the supervisor. It does not end
  one drive's session only.

## Model

| member | source | states |
|---|---|---|
| Smart.EncodeDecode | drivewipe/lib/wipeTestClasses.rb:37-85 | the eight bit predicates read every bit of a status: rebuilding the status from them gives it back |
| Smart.DecodeEncode | drivewipe/lib/wipeTestClasses.rb:37-85 | the eight predicates are independent: any combination of flags is the reading of exactly one status |
| Smart.SmartPassedStatuses | drivewipe/lib/wipeTestClasses.rb:258-268 | `SmartTest.finish` passes exactly the statuses 0, 1, 64 and 65: bits 0 and 6 alone never fail it |
| Smart.ToggleErrorLog | drivewipe/lib/wipeTestClasses.rb:75-77 | flipping bit 6 changes `error_log?` and leaves the seven other predicates as they were |
| Devices.SizeOf | drivewipe/wipe_device.rb:130 | the size is `sectors * 512 / 1000000` rounded down: the largest whole number of megabytes that fits |
| Devices.NewDevice | drivewipe/wipe_device.rb:101-133 | a name starting with `hd` is refused with the source's message, and only such a name is; otherwise the device keeps its name, model and serial and gets the rounded-down size |
| Devices.PathNames | drivewipe/wipe_device.rb:135-137 | the path is `/dev/` followed by the name, so two devices have the same path exactly when they have the same name |
| Devices.PureAtaNames | drivewipe/wipe_device.rb:106-108 | every `hd` name is refused, and an `sd` name never is |
| Multipart.PrepareQuery | drivewipe/lib/multipart.rb:4-46 | the header has exactly Content-Type `multipart/form-data; boundary=<BOUNDARY>` and User-Agent `Multipart::Post v1.0.0`; with no parameters the body is `--<BOUNDARY>--` |
| Multipart.BodyJoin | drivewipe/lib/multipart.rb:41-43 | the body is the parts, in order, each after a delimiter, followed by the close delimiter `--` with no CRLF after it |
| Multipart.DelimiterBorderless | drivewipe/lib/multipart.rb:14-16 | the delimiter `--<BOUNDARY>` cannot overlap a copy of itself, so occurrences of it in a body are unambiguous |
| Multipart.PlainAfterName | drivewipe/lib/multipart.rb:60-63 | after the name, a string part is a blank line, the value and CRLF, and it reads back as that value with no filename |
| Multipart.FileAfterName | drivewipe/lib/multipart.rb:77-83 | after the name, a file part gives the unescaped filename and the octet-stream content type, and the content reads back |
| Multipart.PartRoundTrip | drivewipe/lib/multipart.rb:30-84 | each part reads back as its escaped name with its value, or with its filename and content for a file, when the name and filename hold no `"` |
| Multipart.PartsRoundTrip | drivewipe/lib/multipart.rb:30-43 | one part per parameter, in parameter order, each read back as its parameter |
| Multipart.BodyRoundTrip | drivewipe/lib/multipart.rb:27-46 | cutting the body at the delimiter gives exactly parameters + 2 pieces, and the body reads back as the parameters in order |
| WipeTests.CodeNamesKind | drivewipe/lib/wipeTestClasses.rb:166-274 | the five codes BB, FM, PT, SM and ST are distinct: a code names one kind of test |
| WipeTests.CommandLine | drivewipe/lib/wipeTestClasses.rb:179-191 | badblocks gets `-t random -t 0 -ws <path>`, then the block count in decimal when there is one; mkfs.vfat gets `<path>1`; sfdisk gets `-q <path>`; smartctl gets `-a <path>` |
| WipeTests.AppendChunks | drivewipe/lib/wipeTestClasses.rb:122-138 | one `IO.select` loop appends every chunk it reads to the log, in order |
| WipeTests.AdvanceKeeps | drivewipe/lib/wipeTestClasses.rb:201-209 | a new report moves to the next stage exactly when its per-pass fraction `raw / 400` is below the previous one, records that fraction, and keeps the counters' invariant |
| WipeTests.AdvanceMonotone | drivewipe/lib/wipeTestClasses.rb:201-209 | for reports of at most 100 %, the overall progress never goes down |
| WipeTests.ReplayStages | drivewipe/lib/wipeTestClasses.rb:170-211 | after any series of reports the stage is the starting stage plus the number of drops, never less; with reports of at most 100 % the progress has not gone down |
| WipeTests.PercentAtShape | drivewipe/lib/wipeTestClasses.rb:196 | a match of `(\d+.\d+)% done,` at a position is digits, one character that is not a newline, digits, then `% done,` |
| WipeTests.PercentAtComplete | drivewipe/lib/wipeTestClasses.rb:196 | conversely, wherever digits, one character that is not a newline, and digits are followed by `% done,`, the pattern matches there with exactly that group |
| WipeTests.PercentSearchLeftmost | drivewipe/lib/wipeTestClasses.rb:196 | the search returns the leftmost position where the pattern matches; no group of the pattern's shape followed by `% done,` starts before it, and none at all when nothing is found |
| WipeTests.SearchFindsFirst | drivewipe/lib/wipeTestClasses.rb:196-201 | when the pattern matches at the start of the log, `Percent` is the `to_f` of the group found there, read as `Text.ToF` reads it |
| WipeTests.PercentOfReport | drivewipe/lib/wipeTestClasses.rb:196-201 | a badblocks report `d1.d2% done,...` is read as the decimal number d1.d2 |
| WipeTests.Step | drivewipe/lib/wipeTestClasses.rb:119-147 | one `continue` appends what stdout gave to the log, returns 1 exactly when both pipes ended in that call and the stored progress otherwise, and touches neither status nor start time |
| WipeTests.StepErr | drivewipe/lib/wipeTestClasses.rb:131-138 | after one `continue` the stderr log is all it had plus what was read, or, for badblocks, empty because a report consumed it |
| WipeTests.StepDrains | drivewipe/lib/wipeTestClasses.rb:119-147 | for every test but badblocks, one `continue` only appends what each pipe gave to its log and leaves the counters alone |
| WipeTests.VerdictStatuses | drivewipe/lib/wipeTestClasses.rb:149-162 | a child test passes exactly on status 0; the SMART check passes exactly on 0, 1, 64 and 65 |
| WipeTests.ChildTest.constructor | drivewipe/lib/wipeTestClasses.rb:106-111 | a new test has no result, stage 1 and no progress |
| WipeTests.ChildTest.Continue | drivewipe/lib/wipeTestClasses.rb:119-147 | the new state and the returned value are those of `Step`, which is specified independently |
| WipeTests.ChildTest.DrainPipes | drivewipe/lib/wipeTestClasses.rb:119-138 | the stdout chunks go onto `out` and then the stderr chunks onto `err`, in order, and nothing else changes |
| WipeTests.ChildTest.ObserveErr | drivewipe/lib/wipeTestClasses.rb:194-211 | the badblocks block leaves the state as `Observed` says: on a report the log is cleared and the counters advance, otherwise nothing changes |
| WipeTests.ChildTest.AdvanceBy | drivewipe/lib/wipeTestClasses.rb:201-209 | the field updates of the badblocks block compute `Advance` of the old counters |
| WipeTests.ChildTest.Start | drivewipe/lib/wipeTestClasses.rb:113-117 | `start` spawns the child with its argument vector, polls once and returns that value. The SMART check then replaces the result with a fresh one, so what that first poll read is dropped. Partitioning writes `0,,b\n` to sfdisk and closes its stdin |
| WipeTests.ChildTest.Finish | drivewipe/lib/wipeTestClasses.rb:149-162 | `finish` records the status and finish time and passes by the test's verdict: status 0, or the SMART rule at lines 258-268 |
| WipeTests.SelfTestProgress | drivewipe/lib/wipeTestClasses.rb:312-331 | the self-test never reports above 1, and reports exactly 1 only once the deadline passed and the inner check reported 1 |
| WipeTests.SelfTestRun.constructor | drivewipe/lib/wipeTestClasses.rb:287-296 | a new self-test has not started its inner check and has length 315 |
| WipeTests.SelfTestRun.Start | drivewipe/lib/wipeTestClasses.rb:298-310 | `start` returns 0, uses the 300-second length and sets the deadline 300 s after the second clock reading |
| WipeTests.SelfTestRun.Continue | drivewipe/lib/wipeTestClasses.rb:312-331 | before the deadline it reports elapsed / length, or 0.99, and leaves the inner check alone; after it, the inner check is started once (with a fresh result taken at the second clock reading of `start`), takes one step on the poll, and reports 1 only when that check's pipes ended |
| WipeTests.SelfTestRun.Finish | drivewipe/lib/wipeTestClasses.rb:333-336 | the result is the inner SMART check's, judged by the SMART rule |
| Protocol.Render | drivewipe/wipe_device.rb:470-490 | every line the runner writes ends with a newline |
| Protocol.RenderEndsOnce | drivewipe/wipe_device.rb:470-524 | every line is its text plus exactly one newline added by `puts`, provided a plan's last code does not already end in one |
| Runner.Decide | drivewipe/wipe_device.rb:528-597 | the run starts with the SMART check `1/?`; it raises "SMART Command line error" exactly when bit 0 is set, before any plan; otherwise it ends with one completion and nothing after it; a plan, when one is printed, is the second step, and the raising and immediate-harvest paths print none; dummy mode never runs the self-test |
| Runner.OneCompletion | drivewipe/wipe_device.rb:514-597 | a run that does not raise has exactly one completion; one that raises has no plan and no completion |
| Runner.NoSmartPath | drivewipe/wipe_device.rb:534-553 | bit 1 or 2 on the first check gives plan SM, BB, PT, FM and badblocks as `2/4`; the drive is unwiped exactly when badblocks failed, kept exactly when BB, PT and FM passed (reason "No errors"), and destroyed otherwise |
| Runner.ImmediateHarvest | drivewipe/wipe_device.rb:557-561 | a SMART-capable drive with bit 3, 4, 5 or 7 on the first check is harvested unwiped at once, with no plan |
| Runner.SmartPath | drivewipe/wipe_device.rb:563-596 | otherwise the plan is SM, ST, BB, SM, PT, FM; the self-test runs exactly when not in dummy mode; the drive is never destroyed; unwiped exactly when the self-test or badblocks failed; kept exactly when every later step passed, with reason "No errors" |
| Runner.WipedMeansBadblocksPassed | drivewipe/wipe_device.rb:528-597 | a drive is reported wiped exactly when badblocks ran and passed; destroy happens only on the no-SMART path and harvest only on the SMART path |
| Runner.ErrorLogIgnored | drivewipe/wipe_device.rb:530-597 | flipping bit 6 of any SMART reading never changes the runner's steps or verdict |
| Runner.SameReading | drivewipe/wipe_device.rb:528-597 | the decision depends on the SMART readings only through bit 0, "no SMART" and "health failure" |
| Runner.Drive | drivewipe/wipe_device.rb:482-487 | the polling loop consumes at most one poll per value and stops only at a value of 1 or more, or when the polls run out |
| Runner.DriveOut | drivewipe/wipe_device.rb:482-487 | across the loop, stdout is kept whole: the log is the old log followed by what every consumed poll read, in order; status and start time are untouched |
| Runner.DriveStops | drivewipe/wipe_device.rb:482 | every value before the last one printed is below 1 |
| Runner.DriveOthers | drivewipe/lib/wipeTestClasses.rb:142-146 | for tests other than badblocks every value is 1 when both pipes ended in that poll and the stored progress otherwise, and the counters never move |
| Runner.DriveUntilEof | drivewipe/lib/wipeTestClasses.rb:119-147 | for those tests the loop ends exactly when some poll sees both pipes end, and no earlier poll did |
| Runner.UploadParams | drivewipe/wipe_device.rb:493-506 | the upload carries the thirteen fields the runner names |
| Runner.UploadReadsBack | drivewipe/wipe_device.rb:493-506 | the uploaded body reads back as thirteen fields: the device path, the test's description, the verdict, and the two logs as files `log_out.txt` and `log_err.txt` |
| Runner.UploadReadsAll | drivewipe/wipe_device.rb:493-506 | every one of the thirteen uploaded fields reads back, in order, as its escaped key with its value, or with its filename and content for the logs |
| Runner.ProgressLines | drivewipe/wipe_device.rb:484 | one progress line per value the loop returned |
| Runner.SizeFor | drivewipe/wipe_device.rb:474-475 | a block count is passed exactly to badblocks in dummy mode |
| Runner.Started | drivewipe/wipe_device.rb:480 | after `start` the result has no status; its start time is the first clock reading, or the second for the SMART check, whose result is replaced after the first poll; only badblocks can have moved its counters |
| Runner.PollUntilDone | drivewipe/wipe_device.rb:482-487 | the loop's values, its state afterwards and its printed lines are those of `Drive`, whose properties are proved above |
| Runner.StartAndPoll | drivewipe/wipe_device.rb:480-487 | `start`, then the loop: the values and state are those of `Drive` from the started state |
| Runner.RunChild | drivewipe/wipe_device.rb:472-512 | `run` prints the Test line, a 0 % line and one line per value. It finishes, prints a Result line and uploads exactly when the last value reached 1. The result is `finish`'s |
| Runner.SelfDrive | drivewipe/lib/wipeTestClasses.rb:312-331 | the self-test loop consumes at most one tick per value and stops only at 1 or when the ticks run out |
| Runner.SelfDriveStops | drivewipe/wipe_device.rb:482 | every self-test value before the last is below 1 |
| Runner.SelfDriveDone | drivewipe/lib/wipeTestClasses.rb:312-331 | each self-test value is at most 1; it is 1 exactly after the deadline with both pipes ended; before the deadline it is elapsed / 300 or 0.99 |
| Runner.LatePolls | drivewipe/lib/wipeTestClasses.rb:312-331 | the polls the inner check consumes: those of the ticks at or after the deadline, never more than the ticks |
| Runner.LatePollsAny | drivewipe/lib/wipeTestClasses.rb:312-331 | the inner check consumes some poll exactly when some tick is at or after the deadline |
| Runner.DrainedAll | drivewipe/lib/wipeTestClasses.rb:119-138 | reading a run of polls into a result keeps its status, times and verdict |
| Runner.DrainedAllLogs | drivewipe/lib/wipeTestClasses.rb:119-138 | reading a run of polls appends exactly their stdout chunks to the out log and their stderr chunks to the err log, in order |
| Runner.OutSnoc | drivewipe/lib/wipeTestClasses.rb:122-129 | one more poll adds exactly its stdout chunks to the out log |
| Runner.ErrSnoc | drivewipe/lib/wipeTestClasses.rb:131-138 | one more poll adds exactly its stderr chunks to the err log |
| Runner.InnerAfterLate | drivewipe/lib/wipeTestClasses.rb:252-255 | from a self-test whose inner check has not started, the ticks start it exactly when one is at or after the deadline, and it then holds a fresh SMART result, taken at `start`'s second clock reading, that has read exactly the late polls |
| Runner.SelfStepLate | drivewipe/lib/wipeTestClasses.rb:312-331 | a tick at or after the deadline starts the inner check if need be and drains its poll into that check's result |
| Runner.LateStep | drivewipe/lib/wipeTestClasses.rb:312-331 | one tick keeps the inner check equal to a fresh SMART result drained by the late polls so far |
| Runner.InnerSnoc | drivewipe/lib/wipeTestClasses.rb:312-331 | the inner check's state after one more tick is one `SelfStep` from the state before it |
| Runner.DriveNonNegative | drivewipe/lib/wipeTestClasses.rb:142-146 | every progress value the polling loop prints is at least 0, so each Progress line prints a non-negative number |
| Runner.PollSelfTest | drivewipe/wipe_device.rb:482-487 | the self-test loop's values and lines are those of `SelfDrive`; the inner check is started exactly when `InnerAfter` says it is, and its counters and result are then `InnerAfter`'s state |
| Runner.StartAndPollSelfTest | drivewipe/lib/wipeTestClasses.rb:298-310 | `start` returns 0 and sets the start, the 300-second length, the deadline and the smartctl command; the loop then runs against that deadline and leaves the inner check in `InnerAfter`'s state |
| Runner.RunSelfTest | drivewipe/wipe_device.rb:472-512 | `run` for the self-test: it finishes exactly when a value reached 1; the result is then a SMART result started at `start`'s second clock reading, holding the output of the polls read from the deadline on, finished with the given status and finish time and judged by the SMART rule; it is uploaded exactly then |
| Session.StripLead | drivewipe/wipe.rb:167 | `slice!(/^:\s+/)` only ever removes text |
| Session.ParseDevice | drivewipe/wipe.rb:129-137 | a value that does not match leaves the view unchanged; otherwise only model, serial and size change |
| Session.ParseTest | drivewipe/wipe.rb:138-157 | a matching value appends exactly one new test, with progress 0 and no verdict, status, start time or finish time, makes it current and marks the drive started; a value that does not match changes nothing |
| Session.ParseResult | drivewipe/wipe.rb:158-165 | a matching value sets the verdict, status and both times of the current test only; with no current test it fails; a value that does not match changes nothing |
| Session.ParsePlan | drivewipe/wipe.rb:166-169 | only the plan changes |
| Session.ParseProgress | drivewipe/wipe.rb:170-173 | a matching value sets only the current test's progress, to a value of at least 0; with no current test it fails; a value that does not match changes nothing |
| Session.ParseComplete | drivewipe/wipe.rb:174-181 | a matching value sets the disposition and reason and marks the drive done; a value that does not match changes nothing |
| Session.ParseKinds | drivewipe/wipe.rb:127-185 | an unknown record type fails with that type and value, and only it does; a known type fails only for Result or Progress with no current test; done and started are never reset |
| Session.ParseCoherent | drivewipe/wipe.rb:127-185 | parsing keeps the current test pointing into the list of tests |
| Session.FeedTail | drivewipe/wipe.rb:90-97 | `update` consumes only whole lines: what it leaves in the buffer is a tail of it with no newline |
| Session.FeedAppend | drivewipe/wipe.rb:80-97 | how the output is split into reads does not matter: feeding `a` and then `b` after `a`'s tail is feeding `a + b` at once, errors included |
| Session.FeedDone | drivewipe/wipe.rb:76-78 | `done?` and `started` are never reset by any input |
| Session.FeedCoherent | drivewipe/wipe.rb:90-97 | feeding keeps the current test pointing into the list of tests |
| Session.FeedNoColon | drivewipe/wipe.rb:92-95 | a first line with no colon raises, naming that line |
| Session.FeedLine | drivewipe/wipe.rb:90-94 | a first line is split at its first colon into type and value, parsed, and the rest of the buffer follows |
| Session.UpdateTwice | drivewipe/wipe.rb:80-97 | two updates read the same as one update with both reads |
| Session.KeptOfMembers | drivewipe/wipe.rb:42-47 | `drives` keeps exactly the entries that pass both filters |
| Session.KeptOfAppend | drivewipe/wipe.rb:42-47 | the filter keeps entries in their input order |
| Session.DiskNames | drivewipe/wipe.rb:44-45 | an entry is kept exactly when it starts with `sd` or `hd`, so `.` and `..` never are |
| Session.Drives | drivewipe/wipe.rb:42-47 | the two in-place `reject!` passes leave exactly the kept entries, in order |
| Session.Monitor.constructor | drivewipe/wipe.rb:49-74 | a new drive view has model, serial and size "Unknown", no tests, no plan, is neither started nor done, and has empty buffers |
| Session.Monitor.Parse | drivewipe/wipe.rb:127-185 | `parse` changes the view as `ParseLine` says, and on an error changes nothing |
| Session.Monitor.ReadDevice | drivewipe/wipe.rb:129-137 | the Device branch updates the fields as `ParseDevice` says |
| Session.Monitor.ReadTest | drivewipe/wipe.rb:138-157 | the Test branch updates the fields as `ParseTest` says |
| Session.Monitor.ReadResult | drivewipe/wipe.rb:158-165 | the Result branch updates the fields as `ParseResult` says and on an error changes nothing |
| Session.Monitor.ReadProgress | drivewipe/wipe.rb:170-173 | the Progress branch updates the fields as `ParseProgress` says and on an error changes nothing |
| Session.Monitor.ReadComplete | drivewipe/wipe.rb:174-181 | the Complete branch updates the fields as `ParseComplete` says |
| Session.Monitor.ParseLines | drivewipe/wipe.rb:90-97 | the line loop leaves the view and buffer that `Feed` computes, and fails exactly when `Feed` does |
| Session.Monitor.Update | drivewipe/wipe.rb:80-106 | `update` appends stdout to the buffer, parses whole lines as `Feed` says, and appends stderr to its own buffer |
| Patterns.MatchFill | drivewipe/wipe.rb:130-175 | a text built from a pattern's pieces, each fitting its piece, is matched with those pieces as its groups |
| Patterns.SearchFinds | drivewipe/wipe.rb:130-175 | `match` finds the leftmost position where the pattern matches, at a line start when anchored by `^`, and fails only when none does |
| Text.IndexOf | drivewipe/wipe.rb:90-92 | `index` gives the first position of the character, or nil when it does not occur |
| Text.FindFrom | drivewipe/wipe.rb:168 | the first occurrence of a separator at or after a position, or none |
| Text.SplitJoin | drivewipe/wipe.rb:168 | splitting a join on a borderless separator that no piece contains gives back the pieces |
| Text.NatToString | drivewipe/wipe_device.rb:489 | a status printed in decimal has no leading zero and reads back as the same number |
| Text.ToFDecimal | drivewipe/wipe.rb:172 | `to_f` of `d1.d2` followed by a non-digit is the decimal number d1.d2 |
| Text.ConcatAppend | drivewipe/wipe.rb:83 | appending reads in two batches gives the same log as in one |
| Protocol.QuotedPuts | drivewipe/wipe_device.rb:470-524 | `puts` adds exactly one newline to a line ending in a quote |
| RoundTrip.DeviceRead | drivewipe/wipe.rb:129-137 | a Device line with quote-free fields sets model, serial and size to exactly those fields |
| RoundTrip.TestRead | drivewipe/wipe.rb:138-157 | a Test line with quote-free fields appends the test with exactly that name, code and count |
| RoundTrip.ResultRead | drivewipe/wipe.rb:158-165 | a Result line sets the current test's verdict, decimal status and both times to what was printed, or fails when no test is current |
| RoundTrip.ProgressRead | drivewipe/wipe.rb:170-173 | a `%5.2f` progress line sets the current test's progress to the printed number, or fails when no test is current |
| RoundTrip.PlanRead | drivewipe/wipe.rb:166-169 | a Plan line reads back as its codes, the last one still ending with the line's newline |
| RoundTrip.CompleteRead | drivewipe/wipe.rb:174-181 | a Complete line sets exactly the printed disposition and reason and marks the drive done |
| RoundTrip.FeedSingle | drivewipe/wipe.rb:90-97 | a record alone in the buffer is parsed once and leaves nothing behind |
| RoundTrip.FieldsRead | drivewipe/wipe.rb:127-185 | every line the runner prints parses to the effect its fields mean, errors included |
| RoundTrip.LineRead | drivewipe/wipe_device.rb:470-524 | every line the runner prints, alone in the supervisor's buffer, has exactly that effect and leaves nothing unparsed |
| RoundTrip.TranscriptRead | drivewipe/wipe.rb:80-97 | a whole transcript fed at once has the effect of its lines replayed in order |
| RoundTrip.ReplayAppend | drivewipe/wipe.rb:90-97 | replaying two transcripts in turn is replaying them joined |
| RoundTrip.TestReported | drivewipe/wipe_device.rb:472-490 | the lines of one `run` read back as a current test with the run's name, code, count, last printed progress and, when it finished, its verdict, status and times |
| RoundTrip.ProgressReported | drivewipe/wipe_device.rb:479-484 | the Test line and the progress lines leave that test current, with the last progress printed |
| RoundTrip.ResultAnnounced | drivewipe/wipe_device.rb:489-490 | a Result line after a Test line records the printed verdict, status and times on that test |
| RoundTrip.ProgressReplay | drivewipe/wipe.rb:170-173 | progress lines replayed in order leave the last one's value |
| RoundTrip.ProgressedTwice | drivewipe/wipe.rb:172 | a later progress line overwrites an earlier one |
| RoundTrip.NamesQuotable | drivewipe/lib/wipeTestClasses.rb:166-274 | no description or code holds a quote or newline, so every Test line reads back |
| RoundTrip.JoinMarked | drivewipe/wipe.rb:168 | joining the codes as read back gives the printed list followed by the newline |

## Left out

- Spawning and reaping children (`Open4.open4`, `Open3.popen3`, `Process::waitpid2`, backticks) and `IO.select`/`read_nonblock`: a child is a finite sequence of polls of chunks with end-of-file flags, and an exit status given as a number.
- Runner.RunChild: when the polls run out before a value of 1, the run has not ended (the runner would keep waiting); the model stops there with no result, Result line or upload.
- `Time.now`, `sleep(1)` and `Time#to_s`: times are reals given as inputs; `to_s` is a formatter parameter.
- `"%5.2f" % x`: a formatter parameter. The round trip for Progress lines assumes it prints padding blanks, then digits and points only, for non-negative numbers (the predicate `Readable`); the lemmas that read progress back require the printed values to be non-negative, which `Runner.DriveNonNegative` shows for every value `run` prints.
- Text.ToF: reads leading digits, then an optional point and digits. Ruby's `to_f` also takes an exponent and `_` between digits, so a badblocks group such as `12e34` or `1_5` would read differently. badblocks prints its percentage with a plain `%6.2f`, so such groups do not occur.
- Smart.ExitCode: a status is a number in 0..255. A child killed by a signal has no exit status in Ruby (`exitstatus` is nil). Then every SMART bit predicate is true, so the first check raises "SMART Command line error"; `BaseTest.finish` fails the test; the Result line prints an empty status, which the supervisor's pattern does not match; and the upload sends an empty status. The model does not cover that case.
- Session.ParseTest: its contract states the fields it resets and that one test is appended. `RoundTrip.TestRead` states the name, code and count a Test line gives.
- Ruby floats: progress and badblocks values are exact reals, so no rounding is claimed.
- `CGI::escape`: a function parameter; the round trip assumes escaped names hold no `"`.
- The HTTP post in `run` (`Net::HTTP`, `URI`): only the body and header are modelled.
- Ruby 1.8 hash iteration order of the upload parameters is unspecified; the model uses the order written in the source.
- Reading scsiinfo's output for the Product and Serial Number lines, and `Integer(...)` of `/sys/block/<name>/size`: model, serial and sector count are inputs to `Devices.NewDevice`.
- `Dir.entries('/sys/block')`: the entries are an input to `Session.Drives`.
- `OptionParser` and the default run id: the dummy flag and the run id are inputs.
- The ncurses interface of `drivewipe/wipe.rb` (the window, progress bar, `modal`, `update_test_plan`, the main loop and the prompt for more than seven drives).
- `@length` of `BaseTest` and `PartitionTest` and `@counter` of `SmartSelfTest` are never read, so they are not modelled.
- The duration branch of `SmartSelfTest.start` (drivewipe/lib/wipeTestClasses.rb:303-306): its pattern is a string with literal slashes, which smartctl's output does not contain. Were it to match, `m[1] * 60` would repeat a string. Only the 300-second default is modelled.
- The end-of-file flags `update` sets and never reads in `drivewipe/wipe.rb`.
- `Session.ParseResult` and `Session.ParseProgress`: with no current test, Ruby raises `NoMethodError` on nil. The model returns the error `NoCurrentTest`.
- Session.ParsePlan: its contract says only that nothing but the plan changes. `RoundTrip.PlanRead` states what a plan printed by the runner becomes.
- Session.ParseDevice: its contract states what may change. `RoundTrip.DeviceRead` states the values a Device line gives.
- RoundTrip.TestReported: a Result line with an empty time (a nil time) is not read back, because the supervisor's pattern needs at least one character there. The lemma covers finished runs with both times.
