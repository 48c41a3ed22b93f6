/** The test classes of the drive-wipe runner (TestClasses in lib/wipeTestClasses.rb,
    repeated verbatim at the top of wipe_device.rb). Each test drives one child
    process. Spawning, reaping and the pipes are not modelled: what a test reads
    from the child's stdout and stderr during one `continue` arrives as a Poll, the
    child's exit status as an ExitCode, and every `Time.now` as a Time argument. */
module WipeTests {
  import opened Text
  import opened Smart

  /** `Time.now`, in seconds. */
  type Time = real

  // ---------------------------------------------------------------------------
  // TestResult

  /** TestResult (SmartResult adds only the bit predicates of module Smart). */
  datatype TestResult = TestResult(status: Option<ExitCode>, out: string, err: string,
                                   startTime: Time, finishTime: Option<Time>, passed: bool)

  /** `TestResult.new`: no status, empty logs, started now, not passed. */
  function NewResult(now: Time): TestResult
  {
    TestResult(None, "", "", now, None, false)
  }

  /** `TestResult#finish` after `waitpid2` stored the status. */
  function Finished(r: TestResult, status: ExitCode, now: Time, passed: bool): TestResult
  {
    r.(status := Some(status), finishTime := Some(now), passed := passed)
  }

  // ---------------------------------------------------------------------------
  // The kinds of test

  datatype Kind = BadBlocks | Format | Partition | SmartCheck | SelfTest

  /** The kinds that run a child process through BaseTest. */
  type ChildKind = k: Kind | k != SelfTest witness BadBlocks

  /** The class-level `@code`. */
  function Code(k: Kind): string
  {
    match k
    case BadBlocks => "BB"
    case Format => "FM"
    case Partition => "PT"
    case SmartCheck => "SM"
    case SelfTest => "ST"
  }

  /** The class-level `@description`. */
  function Description(k: Kind): string
  {
    match k
    case BadBlocks => "Destructive badblocks"
    case Format => "Format"
    case Partition => "Partition"
    case SmartCheck => "SMART"
    case SelfTest => "SMART short self-test"
  }

  /** A code names one kind of test, so the supervisor can tell them apart. */
  lemma CodeNamesKind(a: Kind, b: Kind)
    ensures Code(a) == Code(b) <==> a == b
  {
    if a != b {
      assert Code(a)[0] != Code(b)[0] || Code(a)[1] != Code(b)[1];
    }
  }

  /** badblocks writes one random pass and one zero pass, each followed by a read. */
  const WRITE_PATTERNS: seq<string> := ["random", "0"]

  function PatternFlags(patterns: seq<string>): (r: seq<string>)
  {
    if patterns == [] then [] else ["-t", patterns[0]] + PatternFlags(patterns[1..])
  }

  /** The argument vector each test hands to `Open4.open4`. */
  function CommandLine(kind: ChildKind, path: string, size: Option<nat>): (r: seq<string>)
    ensures kind == BadBlocks ==>
      |r| == (if size.Some? then 8 else 7)
      && r[..7] == ["/sbin/badblocks", "-t", "random", "-t", "0", "-ws", path]
      && (size.Some? ==> AllDigits(r[7]) && DigitsValue(r[7]) == size.value)
    ensures kind == Format ==> r == ["/sbin/mkfs.vfat", path + "1"]
    ensures kind == Partition ==> r == ["/sbin/sfdisk", "-q", path]
    ensures kind == SmartCheck ==> r == ["/usr/sbin/smartctl", "-a", path]
  {
    match kind
    case BadBlocks =>
      var flags := PatternFlags(WRITE_PATTERNS);
      assert flags == ["-t", "random", "-t", "0"];
      ["/sbin/badblocks"] + flags + ["-ws", path]
        + (if size.Some? then [NatToString(size.value)] else [])
    case Format => ["/sbin/mkfs.vfat", path + "1"]
    case Partition => ["/sbin/sfdisk", "-q", path]
    case SmartCheck => ["/usr/sbin/smartctl", "-a", path]
  }

  /** What PartitionTest writes to sfdisk's stdin before closing it: one partition
      of type b (FAT32) spanning the disk. */
  const SFDISK_INPUT := "0,,b\n"

  // ---------------------------------------------------------------------------
  // One call of `continue`

  /** What the `IO.select`/`read_nonblock` loop over one pipe gets in one call: the
      chunks it read, in order, and whether it then hit end of file. */
  datatype PipeRead = PipeRead(chunks: seq<string>, eof: bool)

  /** What one `continue` reads from the child's stdout and stderr. */
  datatype Poll = Poll(out: PipeRead, err: PipeRead)

  /** Both pipes reached end of file within the same call. */
  predicate Exhausted(p: Poll) { p.out.eof && p.err.eof }

  /** BaseTest's draining: the chunks go onto the logs, in order. */
  function Drained(r: TestResult, p: Poll): TestResult
  {
    r.(out := r.out + Concat(p.out.chunks), err := r.err + Concat(p.err.chunks))
  }

  /** One pipe's `IO.select` loop: each chunk read is appended to the log. */
  method AppendChunks(log: string, chunks: seq<string>) returns (r: string)
    ensures r == log + Concat(chunks)
  {
    r := log;
    var i := 0;
    while i < |chunks|
      invariant 0 <= i <= |chunks|
      invariant r == log + Concat(chunks[..i])
    {
      ConcatPrefix(chunks, i);
      r := r + chunks[i];
      i := i + 1;
    }
    assert chunks[..i] == chunks;
  }

  /** BadBlocksTest's progress counters: `@stage`, `@stage_progress`, `@progress`.
      For the other tests only `@progress` exists, and it stays 0. */
  datatype Meter = Meter(stage: nat, stageProgress: real, progress: real)

  const START_METER := Meter(1, 0.0, 0.0)

  /** The invariant BadBlocksTest keeps: overall progress is the progress of the
      current stage plus a quarter for each stage already done. */
  predicate MeterInv(m: Meter)
  {
    m.stage >= 1 && m.stageProgress >= 0.0
    && m.progress == m.stageProgress + (m.stage as real - 1.0) * 0.25
  }

  /** badblocks reports a percentage per pass; with two write patterns there are
      four passes (each write is followed by a read), so a pass counts for 1/400
      per percent, and a value below the previous one means a new pass began. */
  function Advance(m: Meter, raw: real): Meter
  {
    var prog := raw / (|WRITE_PATTERNS| * 200) as real;
    var stage := if prog < m.stageProgress then m.stage + 1 else m.stage;
    Meter(stage, prog, prog + (stage as real - 1.0) * (1.0 / (|WRITE_PATTERNS| as real * 2.0)))
  }

  lemma AdvanceKeeps(m: Meter, raw: real)
    requires MeterInv(m) && raw >= 0.0
    ensures MeterInv(Advance(m, raw))
    ensures Advance(m, raw).stage == (if raw / 400.0 < m.stageProgress then m.stage + 1 else m.stage)
    ensures Advance(m, raw).stageProgress == raw / 400.0
  {
  }

  /** For percentages of at most 100, overall progress never goes backwards: a drop
      in the per-pass value moves on to the next stage, which starts where the
      previous one could at most have reached. */
  lemma AdvanceMonotone(m: Meter, raw: real)
    requires MeterInv(m) && m.stageProgress <= 0.25 && 0.0 <= raw <= 100.0
    ensures MeterInv(Advance(m, raw)) && Advance(m, raw).stageProgress <= 0.25
    ensures Advance(m, raw).progress >= m.progress
  {
  }

  /** The meter after a run of matches with the given percentages. */
  function Replay(m: Meter, raws: seq<real>): Meter
    decreases |raws|
  {
    if raws == [] then m else Replay(Advance(m, raws[0]), raws[1..])
  }

  /** How many of the percentages are below the one before (the first is compared
      with `last`). */
  function Drops(last: real, raws: seq<real>): nat
    decreases |raws|
  {
    if raws == [] then 0
    else (if raws[0] / 400.0 < last then 1 else 0) + Drops(raws[0] / 400.0, raws[1..])
  }

  /** Over any run of matches the stage has advanced once per drop, and with
      percentages of at most 100 the overall progress has not decreased. */
  lemma {:induction false} ReplayStages(m: Meter, raws: seq<real>)
    requires MeterInv(m) && forall i | 0 <= i < |raws| :: raws[i] >= 0.0
    ensures MeterInv(Replay(m, raws))
    ensures Replay(m, raws).stage == m.stage + Drops(m.stageProgress, raws)
    ensures (m.stageProgress <= 0.25 && forall i | 0 <= i < |raws| :: raws[i] <= 100.0)
            ==> Replay(m, raws).progress >= m.progress
    decreases |raws|
  {
    if raws != [] {
      AdvanceKeeps(m, raws[0]);
      if m.stageProgress <= 0.25 && raws[0] <= 100.0 {
        AdvanceMonotone(m, raws[0]);
      }
      ReplayStages(Advance(m, raws[0]), raws[1..]);
    }
  }

  // ---------------------------------------------------------------------------
  // The badblocks progress pattern `(\d+.\d+)% done,`

  const DONE := "% done,"

  /** The group `(\d+.\d+)` accepts `s[i..e]` split at `a`: digits, any one
      character but a newline (the dot is not escaped), digits. */
  predicate PercentShape(s: string, i: nat, a: nat, e: nat)
    requires e <= |s|
  {
    i < a < e - 1 && DigitsIn(s, i, a) && s[a] != '\n' && DigitsIn(s, a + 1, e)
  }

  /** Where the group ends when the pattern matches at `i`. The first `\d+` takes
      the whole digit run and the dot the next character; only when that fails
      does the engine give digits back, and then the dot and the second `\d+` are
      digits of the same run, which must be at least three long. */
  function PercentAt(s: string, i: nat): (r: Option<nat>)
    requires i <= |s|
    ensures r.Some? ==> i < r.value <= |s|
  {
    var run := DigitsFrom(s, i);
    if run == 0 then None
    else
      var j := i + run;
      if j < |s| && s[j] != '\n' && DigitsFrom(s, j + 1) > 0
         && OccursAt(s, DONE, j + 1 + DigitsFrom(s, j + 1)) then
        Some(j + 1 + DigitsFrom(s, j + 1))
      else if run >= 3 && OccursAt(s, DONE, j) then
        Some(j)
      else None
  }

  /** What `PercentAt` finds is the group of the pattern, split at `a`, followed
      by "% done,". */
  lemma PercentAtShape(s: string, i: nat) returns (a: nat)
    requires i <= |s|
    ensures var r := PercentAt(s, i);
            r.Some? ==> PercentShape(s, i, a, r.value) && OccursAt(s, DONE, r.value)
  {
    a := 0;
    var run := DigitsFrom(s, i);
    if run > 0 {
      var j := i + run;
      if j < |s| && s[j] != '\n' && DigitsFrom(s, j + 1) > 0
         && OccursAt(s, DONE, j + 1 + DigitsFrom(s, j + 1)) {
        a := j;
      } else if run >= 3 && OccursAt(s, DONE, j) {
        DigitsInSub(s, i, j, i, j - 2);
        DigitsInSub(s, i, j, j - 1, j);
        a := j - 2;
      }
    }
  }

  /** Conversely, wherever the group's shape is followed by "% done,", the
      pattern matches there with exactly that group. */
  lemma PercentAtComplete(s: string, i: nat, a: nat, e: nat)
    requires e <= |s| && PercentShape(s, i, a, e) && OccursAt(s, DONE, e)
    ensures PercentAt(s, i) == Some(e)
  {
    assert s[e..e + |DONE|][0] == '%' && s[e..e + |DONE|][1] == ' ';
    assert s[e] == '%' && s[e + 1] == ' ';
    if IsDigit(s[a]) {
      DigitsFromExact(s, i, e - i);
    } else {
      DigitsFromExact(s, i, a - i);
      DigitsFromExact(s, a + 1, e - a - 1);
    }
  }

  lemma DigitsInSub(s: string, lo: nat, hi: nat, lo': nat, hi': nat)
    requires lo <= lo' <= hi' <= hi <= |s| && DigitsIn(s, lo, hi)
    ensures DigitsIn(s, lo', hi')
  {
  }

  /** `String#match`: the leftmost position at or after `from` where the pattern
      matches, with the end of its group. */
  function PercentSearch(s: string, from: nat): (r: Option<(nat, nat)>)
    requires from <= |s|
    ensures r.Some? ==> from <= r.value.0 <= |s| && PercentAt(s, r.value.0) == Some(r.value.1)
    decreases |s| - from
  {
    match PercentAt(s, from)
    case Some(e) => Some((from, e))
    case None => if from == |s| then None else PercentSearch(s, from + 1)
  }

  /** The match found is the leftmost: the pattern matches nowhere before it, and
      nowhere at all when none is found. "Matches" is said both of `PercentAt` and
      of the pattern itself, a group of its shape followed by "% done,". */
  lemma {:induction false} PercentSearchLeftmost(s: string, from: nat)
    requires from <= |s|
    ensures var r := PercentSearch(s, from);
            && (r.Some? ==> forall k | from <= k < r.value.0 :: PercentAt(s, k).None?)
            && (r.None? ==> forall k | from <= k <= |s| :: PercentAt(s, k).None?)
    ensures var r := PercentSearch(s, from);
            forall k: nat, a: nat, e: nat | from <= k && (r.Some? ==> k < r.value.0) && e <= |s| && PercentShape(s, k, a, e)
              :: !OccursAt(s, DONE, e)
    decreases |s| - from
  {
    PercentSearchNowhere(s, from);
    var r := PercentSearch(s, from);
    forall k: nat, a: nat, e: nat | from <= k && (r.Some? ==> k < r.value.0) && e <= |s| && PercentShape(s, k, a, e)
      ensures !OccursAt(s, DONE, e)
    {
      if OccursAt(s, DONE, e) {
        PercentAtComplete(s, k, a, e);
      }
    }
  }

  /** The same, of `PercentAt` alone. */
  lemma {:induction false} PercentSearchNowhere(s: string, from: nat)
    requires from <= |s|
    ensures var r := PercentSearch(s, from);
            && (r.Some? ==> forall k | from <= k < r.value.0 :: PercentAt(s, k).None?)
            && (r.None? ==> forall k | from <= k <= |s| :: PercentAt(s, k).None?)
    decreases |s| - from
  {
    if PercentAt(s, from).None? && from < |s| {
      assert PercentSearch(s, from) == PercentSearch(s, from + 1);
      PercentSearchNowhere(s, from + 1);
      var r := PercentSearch(s, from + 1);
      assert r.Some? ==> forall k | from + 1 <= k < r.value.0 :: PercentAt(s, k).None?;
      assert r.None? ==> forall k | from + 1 <= k <= |s| :: PercentAt(s, k).None?;
    }
  }

  /** The per-pass percentage BadBlocksTest reads from its stderr log, if any:
      `m[1].to_f`. */
  function Percent(err: string): (r: Option<real>)
    ensures r.Some? ==> r.value >= 0.0
  {
    match PercentSearch(err, 0)
    case None => None
    case Some((i, e)) => Some(ToF(err[i..e]))
  }

  /** Where badblocks' report stands in `s`: the digits `d1`, a point, the digits
      `d2`, then "% done,". */
  predicate ReportLayout(s: string, d1: string, d2: string)
  {
    var e := |d1| + 1 + |d2|;
    && AllDigits(d1) && AllDigits(d2) && |d1| > 0 && |d2| > 0
    && e <= |s| && s[..|d1|] == d1 && s[|d1|] == '.' && s[|d1| + 1..e] == d2
    && OccursAt(s, DONE, e)
  }

  /** On the text badblocks prints, the pattern matches at once and its group is
      the whole decimal. */
  lemma PercentAtReport(s: string, d1: string, d2: string)
    requires ReportLayout(s, d1, d2)
    ensures PercentAt(s, 0) == Some(|d1| + 1 + |d2|)
  {
    var e := |d1| + 1 + |d2|;
    assert s[e..e + |DONE|][0] == DONE[0] == '%';
    DigitsAt(s, 0, d1);
    DigitsAt(s, |d1| + 1, d2);
  }

  /** The group badblocks' report yields reads as the decimal printed. */
  lemma GroupValue(s: string, d1: string, d2: string)
    requires ReportLayout(s, d1, d2)
    ensures ToF(s[0..|d1| + 1 + |d2|]) == DigitsValue(d1) as real + Fraction(d2)
  {
    LayoutGroup(s, d1, d2);
    ToFDecimal(d1, d2, "");
  }

  lemma LayoutGroup(s: string, d1: string, d2: string)
    requires ReportLayout(s, d1, d2)
    ensures s[0..|d1| + 1 + |d2|] == d1 + "." + d2 + ""
  {
    var e := |d1| + 1 + |d2|;
    assert s[0..e] == s[..|d1|] + [s[|d1|]] + s[|d1| + 1..e];
  }

  lemma SearchFindsFirst(s: string, e: nat, x: real)
    requires PercentAt(s, 0) == Some(e) && ToF(s[0..e]) == x
    ensures Percent(s) == Some(x)
  {
    assert PercentSearch(s, 0) == Some((0, e));
  }

  lemma ReportReads(s: string, d1: string, d2: string)
    requires ReportLayout(s, d1, d2)
    ensures Percent(s) == Some(DigitsValue(d1) as real + Fraction(d2))
  {
    PercentAtReport(s, d1, d2);
    GroupValue(s, d1, d2);
    SearchFindsFirst(s, |d1| + 1 + |d2|, DigitsValue(d1) as real + Fraction(d2));
  }

  /** The line badblocks actually prints, `12.34% done, 0:42 elapsed`, reads as the
      decimal it shows. */
  lemma PercentOfReport(d1: string, d2: string, rest: string)
    requires AllDigits(d1) && AllDigits(d2) && |d1| > 0 && |d2| > 0
    ensures Percent(d1 + "." + d2 + DONE + rest) == Some(DigitsValue(d1) as real + Fraction(d2))
  {
    var s := d1 + "." + d2 + DONE + rest;
    var e := |d1| + 1 + |d2|;
    assert s[..|d1|] == d1 && s[|d1|] == '.' && s[|d1| + 1..e] == d2;
    assert s[e..e + |DONE|] == DONE;
    ReportReads(s, d1, d2);
  }

  // ---------------------------------------------------------------------------
  // The specification of one `continue`

  /** What a test keeps between calls: its counters and its result. */
  datatype TestState = TestState(meter: Meter, result: TestResult)

  /** The new state and the value `continue` returns. */
  datatype Stepped = Stepped(state: TestState, value: real)

  /** BadBlocksTest's block: on a match, advance the counters and clear the log. */
  function Observed(kind: ChildKind, s: TestState): TestState
  {
    if kind != BadBlocks then s
    else
      match Percent(s.result.err)
      case None => s
      case Some(raw) => TestState(Advance(s.meter, raw), s.result.(err := ""))
  }

  /** One `continue`: drain both pipes, run the subclass's block, and return 1 when
      both pipes ended in this call, the stored progress otherwise. */
  function Step(kind: ChildKind, s: TestState, p: Poll): (r: Stepped)
    ensures r.state.result.out == s.result.out + Concat(p.out.chunks)
    ensures r.value == (if Exhausted(p) then 1.0 else r.state.meter.progress)
    ensures kind != BadBlocks ==> r.state.meter == s.meter
    ensures r.state.result.status == s.result.status && r.state.result.startTime == s.result.startTime
  {
    var t := Observed(kind, TestState(s.meter, Drained(s.result, p)));
    Stepped(t, if Exhausted(p) then 1.0 else t.meter.progress)
  }

  /** For every test but badblocks, a step only drains the pipes. */
  lemma StepDrains(kind: ChildKind, s: TestState, p: Poll)
    requires kind != BadBlocks
    ensures Step(kind, s, p).state == TestState(s.meter, Drained(s.result, p))
  {
  }

  /** Whatever a poll brings, the stderr log after it is either all that was read
      since the last match (no match) or empty (a match consumed it). */
  lemma StepErr(kind: ChildKind, s: TestState, p: Poll)
    ensures var e := Step(kind, s, p).state.result.err;
            e == s.result.err + Concat(p.err.chunks) || (kind == BadBlocks && e == "")
    ensures kind == BadBlocks && MeterInv(s.meter) ==> MeterInv(Step(kind, s, p).state.meter)
  {
    var d := Drained(s.result, p);
    if kind == BadBlocks && MeterInv(s.meter) {
      var m := Percent(d.err);
      if m.Some? {
        AdvanceKeeps(s.meter, m.value);
      }
    }
  }

  /** The inputs a `start` consumes: the clock for `TestResult.new`, what the first
      `continue` reads, and the clock SmartTest reads for its fresh SmartResult. */
  datatype Launch = Launch(now: Time, first: Poll, later: Time)

  /** `BaseTest#finish` (and SmartTest's override): passed iff the status is 0, or
      for SmartTest iff none of bits 1, 2, 3, 4, 5 and 7 is set. */
  function Verdict(kind: ChildKind, status: ExitCode): bool
  {
    if kind == SmartCheck then SmartPassed(status) else status == 0
  }

  lemma VerdictStatuses(kind: ChildKind, status: ExitCode)
    ensures kind != SmartCheck ==> (Verdict(kind, status) <==> status == 0)
    ensures kind == SmartCheck ==> (Verdict(kind, status) <==> status in {0, 1, 64, 65})
  {
    SmartPassedStatuses(status);
  }

  // ---------------------------------------------------------------------------
  // BaseTest and its subclasses

  /** One BaseTest: BadBlocksTest, FormatTest, PartitionTest or SmartTest, told
      apart by `kind`. `result` is nil until `start`. */
  class ChildTest {
    const kind: ChildKind
    const path: string
    /** BadBlocksTest's optional block count, the last argument to badblocks. */
    const size: Option<nat>
    var result: Option<TestResult>
    var stage: nat
    var stageProgress: real
    var progress: real
    /** The argument vector of the spawned child; empty before `start`. */
    var argv: seq<string>
    /** What was written to the child's stdin, and whether it was closed. */
    var stdin: string
    var stdinClosed: bool
    /** Whether `finish` closed the pipes and reaped the child. */
    var reaped: bool
    /** How often `start` spawned the child. */
    ghost var starts: nat

    function Counters(): Meter
      reads this
    {
      Meter(stage, stageProgress, progress)
    }

    function State(): TestState
      reads this
      requires result.Some?
    {
      TestState(Counters(), result.value)
    }

    predicate Valid()
      reads this
    {
      MeterInv(Counters()) && (kind != BadBlocks ==> Counters() == START_METER)
    }

    constructor (kind: ChildKind, path: string, size: Option<nat>)
      requires size.Some? ==> kind == BadBlocks
      ensures this.kind == kind && this.path == path && this.size == size
      ensures Valid() && Counters() == START_METER && result.None?
      ensures argv == [] && stdin == "" && !stdinClosed && !reaped && starts == 0
    {
      this.kind := kind;
      this.path := path;
      this.size := size;
      result := None;
      stage := 1;
      stageProgress := 0.0;
      progress := 0.0;
      argv := [];
      stdin := "";
      stdinClosed := false;
      reaped := false;
      starts := 0;
    }

    /** `continue`: read what the child printed, let the subclass look at it,
        report. */
    method Continue(poll: Poll) returns (p: real)
      requires Valid() && result.Some?
      modifies this`result, this`stage, this`stageProgress, this`progress
      ensures Valid() && result.Some?
      ensures State() == Step(kind, old(State()), poll).state
      ensures p == Step(kind, old(State()), poll).value
    {
      DrainPipes(poll);
      if kind == BadBlocks {
        ObserveErr();
      }
      if Exhausted(poll) {
        p := 1.0;
      } else {
        p := progress;
      }
    }

    /** BaseTest's two `IO.select` loops: append what each pipe gave, in order. */
    method DrainPipes(poll: Poll)
      requires result.Some?
      modifies this`result
      ensures result == Some(Drained(old(result.value), poll))
    {
      var out := AppendChunks(result.value.out, poll.out.chunks);
      var err := AppendChunks(result.value.err, poll.err.chunks);
      result := Some(result.value.(out := out, err := err));
    }

    /** BadBlocksTest's block: on a progress report, clear the log, start a new
        stage when the per-pass value dropped, and recompute the overall progress. */
    method ObserveErr()
      requires Valid() && result.Some? && kind == BadBlocks
      modifies this`result, this`stage, this`stageProgress, this`progress
      ensures Valid() && result.Some?
      ensures State() == Observed(kind, old(State()))
    {
      var m := Percent(result.value.err);
      if m.Some? {
        result := Some(result.value.(err := ""));
        AdvanceBy(m.value);
      }
    }

    /** The arithmetic of BadBlocksTest's block, given the percentage it read. */
    method AdvanceBy(raw: real)
      requires Valid() && kind == BadBlocks && raw >= 0.0
      modifies this`stage, this`stageProgress, this`progress
      ensures Valid() && Counters() == Advance(old(Counters()), raw)
    {
      AdvanceKeeps(Counters(), raw);
      var prog := raw / (|WRITE_PATTERNS| * 200) as real;
      if prog < stageProgress {
        stage := stage + 1;
      }
      stageProgress := prog;
      progress := prog + (stage as real - 1.0) * (1.0 / (|WRITE_PATTERNS| as real * 2.0));
    }

    /** `start`: a fresh TestResult, spawn the command, a first `continue`. Then
        PartitionTest feeds sfdisk its one line and closes stdin, and SmartTest
        replaces the result by a fresh SmartResult, dropping what that first
        `continue` read. */
    method Start(l: Launch) returns (p: real)
      requires Valid()
      modifies this`result, this`stage, this`stageProgress, this`progress, this`argv,
               this`stdin, this`stdinClosed, this`starts
      ensures Valid() && result.Some?
      ensures argv == CommandLine(kind, path, size)
      ensures starts == old(starts) + 1
      ensures var st := Step(kind, TestState(old(Counters()), NewResult(l.now)), l.first);
              p == st.value && Counters() == st.state.meter
              && result == Some(if kind == SmartCheck then NewResult(l.later) else st.state.result)
      ensures kind == Partition ==> stdin == old(stdin) + SFDISK_INPUT && stdinClosed
      ensures kind != Partition ==> stdin == old(stdin) && stdinClosed == old(stdinClosed)
    {
      result := Some(NewResult(l.now));
      argv := CommandLine(kind, path, size);
      starts := starts + 1;
      p := Continue(l.first);
      if kind == Partition {
        stdin := stdin + SFDISK_INPUT;
        stdinClosed := true;
      }
      if kind == SmartCheck {
        result := Some(NewResult(l.later));
      }
    }

    /** `finish`: close the pipes, reap the child, record status, time and verdict. */
    method Finish(status: ExitCode, now: Time) returns (r: TestResult)
      requires result.Some?
      modifies this`result, this`reaped
      ensures reaped && stdinClosed == old(stdinClosed)
      ensures r == Finished(old(result.value), status, now, Verdict(kind, status))
      ensures result == Some(r)
    {
      reaped := true;
      result := Some(Finished(result.value, status, now, status == 0));
      if kind == SmartCheck {
        result := Some(result.value.(passed := SmartPassed(status)));
      }
      r := result.value;
    }
  }

  // ---------------------------------------------------------------------------
  // SmartSelfTest

  /** The length SmartSelfTest assumes before `start` sets it. */
  const INITIAL_LENGTH: real := 315.0
  /** The self-test length `start` uses (the minutes the drive announces are not
      read). */
  const SELF_TEST_LENGTH: real := 300.0

  /** SmartSelfTest's `continue`: before the deadline the elapsed fraction of the
      announced length, held at 0.99 once it reaches 1; after the deadline 1 when
      the inner SmartTest reported 1, and 0.99 otherwise. */
  function SelfTestProgress(start: Time, finish: Time, length: real, now: Time, inner: real): (r: real)
    requires length > 0.0
    ensures r <= 1.0
    ensures r == 1.0 <==> (now >= finish && inner == 1.0)
    ensures now < finish && now >= start ==> r >= 0.0
  {
    if now < finish then
      var prog := (now - start) / length;
      if prog < 1.0 then prog else 0.99
    else if inner == 1.0 then 1.0 else 0.99
  }

  /** The inner SmartTest's state once its `start` ran: its counters untouched and
      a fresh SmartResult taken at the second clock reading of `start`. */
  function SmartStarted(l: Launch): TestState
  {
    TestState(START_METER, NewResult(l.later))
  }

  /** SmartSelfTest: asks the drive for a short self-test, waits out its length,
      then runs an embedded SmartTest once to read the verdict. */
  class SelfTestRun {
    const path: string
    const test: ChildTest
    var started: bool
    var start: Option<Time>
    var finish: Option<Time>
    var length: real
    /** The command `start` runs in backticks; empty before. */
    var command: string
    var result: Option<TestResult>

    ghost predicate Valid()
      reads this, test
    {
      test.kind == SmartCheck && test.size.None? && test.path == path && test.Valid()
      && length > 0.0 && (start.Some? <==> finish.Some?)
      && test.starts == (if started then 1 else 0)
      && (started ==> test.result.Some?)
    }

    constructor (path: string)
      ensures Valid() && fresh(test) && this.path == path
      ensures !started && start.None? && finish.None? && length == INITIAL_LENGTH
      ensures command == "" && result.None? && test.result.None?
    {
      this.path := path;
      test := new ChildTest(SmartCheck, path, None);
      started := false;
      start := None;
      finish := None;
      length := INITIAL_LENGTH;
      command := "";
      result := None;
    }

    /** `start`: note the time, ask smartctl for a short self-test, and set the
        deadline 300 seconds after a second reading of the clock. */
    method Start(t0: Time, t1: Time) returns (p: real)
      requires Valid()
      modifies this`start, this`finish, this`length, this`command
      ensures Valid() && p == 0.0
      ensures start == Some(t0) && finish == Some(t1 + SELF_TEST_LENGTH) && length == SELF_TEST_LENGTH
      ensures command == "/usr/sbin/smartctl -t short " + path
    {
      start := Some(t0);
      command := "/usr/sbin/smartctl -t short " + path;
      length := SELF_TEST_LENGTH;
      finish := Some(t1 + SELF_TEST_LENGTH);
      p := 0.0;
    }

    /** `continue` at time `now`. Once past the deadline the inner SmartTest is
        started (with `l`) the first time only, and polled every time. */
    method Continue(now: Time, l: Launch, poll: Poll) returns (p: real)
      requires Valid() && finish.Some?
      modifies this`started, test`result, test`stage, test`stageProgress, test`progress,
               test`argv, test`stdin, test`stdinClosed, test`starts
      ensures Valid()
      ensures started == (old(started) || now >= finish.value)
      ensures p == SelfTestProgress(start.value, finish.value, length, now,
                                    if Exhausted(poll) then 1.0 else 0.0)
      ensures now < finish.value ==> test.result == old(test.result)
      ensures now >= finish.value ==>
                test.result.Some?
                && test.State() == Step(SmartCheck, if old(started) then old(test.State()) else SmartStarted(l), poll).state
      ensures old(started) || now < finish.value ==> test.argv == old(test.argv)
      ensures !old(started) && now >= finish.value ==> test.argv == CommandLine(SmartCheck, path, None)
    {
      if now < finish.value {
        var prog := (now - start.value) / length;
        if prog < 1.0 {
          p := prog;
        } else {
          p := 0.99;
        }
        return;
      }
      if !started {
        var _ := test.Start(l);
        started := true;
      }
      var inner := test.Continue(poll);
      if inner == 1.0 {
        p := 1.0;
      } else {
        p := 0.99;
      }
    }

    /** `finish`: the inner SmartTest's result is the self-test's result. */
    method Finish(status: ExitCode, now: Time) returns (r: TestResult)
      requires Valid() && started
      modifies this`result, test`result, test`reaped
      ensures Valid()
      ensures r == Finished(old(test.result.value), status, now, SmartPassed(status))
      ensures result == Some(r)
    {
      r := test.Finish(status, now);
      result := Some(r);
    }
  }
}
