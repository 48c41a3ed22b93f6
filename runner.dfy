/** The runner's top level (drivewipe/wipe_device.rb): the order in which it runs
    the tests, the plan it announces and the verdict it ends with, and `run`, which
    drives one test to completion, prints its lines and assembles its upload. */
module Runner {
  import opened Text
  import opened Smart
  import opened WipeTests
  import opened Devices
  import opened Protocol
  import Multipart

  const SMART_CMDLINE_ERROR := "SMART Command line error"
  const NO_SMART_PLAN: seq<string> := ["SM", "BB", "PT", "FM"]
  const SMART_PLAN: seq<string> := ["SM", "ST", "BB", "SM", "PT", "FM"]
  /** The block count dummy mode passes to badblocks. */
  const DUMMY_BLOCKS: nat := 200000

  // ---------------------------------------------------------------------------
  // The decision tree

  /** One thing the top level does: run a test with a count label, print the plan,
      or `complete` (print the verdict and exit). */
  datatype Action =
    | Run(kind: Kind, count: string)
    | Plan(codes: seq<string>)
    | Done(disp: Disposition, dest: Destination, reason: string)

  datatype Ending = Exited | Raised(message: string)

  datatype Script = Script(steps: seq<Action>, ending: Ending)

  /** The exit status each test would finish with. The self-test's is the one its
      inner SmartTest reads. */
  datatype Outcomes = Outcomes(first: ExitCode, selfTest: ExitCode, badBlocks: ExitCode,
                               second: ExitCode, partition: ExitCode, format: ExitCode)

  predicate Passed(kind: ChildKind, status: ExitCode) { Verdict(kind, status) }

  /** The steps after the plan when the drive does not answer SMART. */
  function NoSmartTail(o: Outcomes): (r: seq<Action>)
    ensures |r| >= 2 && r[|r| - 1].Done? && r[0] == Run(BadBlocks, "2/4")
    ensures forall i | 0 <= i < |r| - 1 :: r[i].Run? && r[i].kind != SelfTest
  {
    if !Passed(BadBlocks, o.badBlocks) then
      [Run(BadBlocks, "2/4"), Done(Unwiped, Destroy, "Badblocks failure")]
    else if !Passed(Partition, o.partition) then
      [Run(BadBlocks, "2/4"), Run(Partition, "3/4"), Done(Wiped, Destroy, "Partitioning failure")]
    else if Passed(Format, o.format) then
      [Run(BadBlocks, "2/4"), Run(Partition, "3/4"), Run(Format, "4/4"), Done(Wiped, Keep, "No errors")]
    else
      [Run(BadBlocks, "2/4"), Run(Partition, "3/4"), Run(Format, "4/4"), Done(Wiped, Destroy, "Formatting failure")]
  }

  /** The steps after the self-test (or straight after the plan in dummy mode)
      when the drive answers SMART. */
  function SmartTail(o: Outcomes): (r: seq<Action>)
    ensures |r| >= 2 && r[|r| - 1].Done? && r[0] == Run(BadBlocks, "3/6")
    ensures forall i | 0 <= i < |r| - 1 :: r[i].Run? && r[i].kind != SelfTest
  {
    if !Passed(BadBlocks, o.badBlocks) then
      [Run(BadBlocks, "3/6"), Done(Unwiped, Harvest, "Badblock failure")]
    else if HealthFailure(o.second) then
      [Run(BadBlocks, "3/6"), Run(SmartCheck, "4/6"), Done(Wiped, Harvest, "SMART Failure")]
    else if !Passed(Partition, o.partition) then
      [Run(BadBlocks, "3/6"), Run(SmartCheck, "4/6"), Run(Partition, "5/6"),
       Done(Wiped, Harvest, "Partitioning failure")]
    else if Passed(Format, o.format) then
      [Run(BadBlocks, "3/6"), Run(SmartCheck, "4/6"), Run(Partition, "5/6"), Run(Format, "6/6"),
       Done(Wiped, Keep, "No errors")]
    else
      [Run(BadBlocks, "3/6"), Run(SmartCheck, "4/6"), Run(Partition, "5/6"), Run(Format, "6/6"),
       Done(Wiped, Harvest, "Formatting failure")]
  }

  /** The top level of the runner, from the first SMART probe to `complete`. */
  function Decide(dummy: bool, o: Outcomes): (r: Script)
    ensures |r.steps| >= 1 && r.steps[0] == Run(SmartCheck, "1/?")
    ensures r.ending.Raised? <==> CmdLine(o.first)
    ensures r.ending.Raised? ==> r.steps == [Run(SmartCheck, "1/?")] && r.ending.message == SMART_CMDLINE_ERROR
    ensures r.ending.Exited? ==> r.steps[|r.steps| - 1].Done?
    ensures forall i | 0 <= i < |r.steps| - 1 :: !r.steps[i].Done?
    ensures forall i | 0 <= i < |r.steps| :: r.steps[i].Plan? ==> i == 1
    ensures dummy ==> forall i | 0 <= i < |r.steps| :: !(r.steps[i].Run? && r.steps[i].kind == SelfTest)
  {
    var first := [Run(SmartCheck, "1/?")];
    if CmdLine(o.first) then Script(first, Raised(SMART_CMDLINE_ERROR))
    else if NoSmart(o.first) then Script(first + [Plan(NO_SMART_PLAN)] + NoSmartTail(o), Exited)
    else if HealthFailure(o.first) then Script(first + [Done(Unwiped, Harvest, "SMART Failure")], Exited)
    else if dummy then Script(first + [Plan(SMART_PLAN)] + SmartTail(o), Exited)
    else if HealthFailure(o.selfTest) then
      Script(first + [Plan(SMART_PLAN), Run(SelfTest, "2/6"), Done(Unwiped, Harvest, "SMART Self-test Failure")], Exited)
    else Script(first + [Plan(SMART_PLAN), Run(SelfTest, "2/6")] + SmartTail(o), Exited)
  }

  function Last(s: Script): Action
    requires |s.steps| > 0
  {
    s.steps[|s.steps| - 1]
  }

  /** The run that ends normally ends with exactly one `complete`, and it is the
      last step; the run that raises prints neither a plan nor a verdict. */
  lemma OneCompletion(dummy: bool, o: Outcomes)
    ensures var r := Decide(dummy, o);
            r.ending.Exited? ==> |set i | 0 <= i < |r.steps| && r.steps[i].Done?| == 1
    ensures var r := Decide(dummy, o);
            r.ending.Raised? ==> forall i | 0 <= i < |r.steps| :: !r.steps[i].Plan? && !r.steps[i].Done?
  {
    var r := Decide(dummy, o);
    if r.ending.Exited? {
      assert (set i | 0 <= i < |r.steps| && r.steps[i].Done?) == {|r.steps| - 1};
    }
  }

  /** Without SMART (bit 1 or 2 on the first probe) the plan is SM, BB, PT, FM and
      a drive that fails is destroyed: unwiped when badblocks failed, wiped
      otherwise; it is kept exactly when badblocks, partitioning and formatting
      all passed. */
  lemma NoSmartPath(dummy: bool, o: Outcomes)
    requires !CmdLine(o.first) && NoSmart(o.first)
    ensures var r := Decide(dummy, o);
            r.ending.Exited? && r.steps[1] == Plan(NO_SMART_PLAN) && r.steps[2] == Run(BadBlocks, "2/4")
    ensures var d := Last(Decide(dummy, o));
            && (d.disp == Unwiped <==> !Passed(BadBlocks, o.badBlocks))
            && (d.dest == Keep <==> Passed(BadBlocks, o.badBlocks) && Passed(Partition, o.partition) && Passed(Format, o.format))
            && (d.dest == Keep <==> d.reason == "No errors")
            && (d.dest != Keep ==> d.dest == Destroy)
  {
  }

  /** A SMART drive whose first probe shows a health failure (bit 3, 4, 5 or 7) is
      sent for harvest unwiped at once, before any plan is printed. */
  lemma ImmediateHarvest(dummy: bool, o: Outcomes)
    requires !CmdLine(o.first) && !NoSmart(o.first) && HealthFailure(o.first)
    ensures Decide(dummy, o).steps == [Run(SmartCheck, "1/?"), Done(Unwiped, Harvest, "SMART Failure")]
  {
  }

  /** A SMART drive that passes its first probe follows the plan SM, ST, BB, SM,
      PT, FM (ST skipped in dummy mode). It is never destroyed: it is harvested
      unwiped when the self-test or badblocks failed, harvested wiped when the
      second probe, partitioning or formatting failed, and kept otherwise. The
      second probe fails only on bits 3, 4, 5 and 7. */
  lemma SmartPath(dummy: bool, o: Outcomes)
    requires !CmdLine(o.first) && !NoSmart(o.first) && !HealthFailure(o.first)
    ensures var r := Decide(dummy, o);
            r.ending.Exited? && r.steps[1] == Plan(SMART_PLAN)
            && (r.steps[2] == Run(SelfTest, "2/6") <==> !dummy)
    ensures var d := Last(Decide(dummy, o));
            var stFailed := !dummy && HealthFailure(o.selfTest);
            && d.dest != Destroy
            && (d.disp == Unwiped <==> stFailed || !Passed(BadBlocks, o.badBlocks))
            && (d.dest == Keep <==> !stFailed && Passed(BadBlocks, o.badBlocks) && !HealthFailure(o.second)
                                    && Passed(Partition, o.partition) && Passed(Format, o.format))
            && (d.dest == Keep <==> d.reason == "No errors")
  {
  }

  /** Across all paths: a drive leaves wiped exactly when badblocks ran and
      passed; a destroyed drive never answered SMART, a harvested one did. */
  lemma WipedMeansBadblocksPassed(dummy: bool, o: Outcomes)
    requires !CmdLine(o.first)
    ensures var r := Decide(dummy, o);
            Last(r).disp == Wiped
            <==> (exists i | 0 <= i < |r.steps| :: r.steps[i].Run? && r.steps[i].kind == BadBlocks)
                 && Passed(BadBlocks, o.badBlocks)
    ensures Last(Decide(dummy, o)).dest == Destroy ==> NoSmart(o.first)
    ensures Last(Decide(dummy, o)).dest == Harvest ==> !NoSmart(o.first)
  {
    var r := Decide(dummy, o);
    if Last(r).disp == Wiped {
      var k := if NoSmart(o.first) || dummy then 2 else 3;
      assert r.steps[k] == Run(BadBlocks, if NoSmart(o.first) then "2/4" else "3/6");
    }
  }

  /** Bit 6 (the device error log holds errors) of a SMART status is never looked
      at: flipping it in any of the three SMART statuses changes neither the
      steps nor the verdict. (The status printed on the Result line does change.) */
  lemma ErrorLogIgnored(dummy: bool, o: Outcomes)
    ensures Decide(dummy, o.(first := ToggleErrorLog(o.first))) == Decide(dummy, o)
    ensures Decide(dummy, o.(selfTest := ToggleErrorLog(o.selfTest))) == Decide(dummy, o)
    ensures Decide(dummy, o.(second := ToggleErrorLog(o.second))) == Decide(dummy, o)
  {
    var t := ToggleErrorLog(o.first);
    ToggleKeepsReading(o.first);
    SameReading(dummy, o, o.(first := t));
    t := ToggleErrorLog(o.selfTest);
    ToggleKeepsReading(o.selfTest);
    SameReading(dummy, o, o.(selfTest := t));
    t := ToggleErrorLog(o.second);
    ToggleKeepsReading(o.second);
    SameReading(dummy, o, o.(second := t));
  }

  lemma ToggleKeepsReading(s: ExitCode)
    ensures CmdLine(ToggleErrorLog(s)) == CmdLine(s)
    ensures NoSmart(ToggleErrorLog(s)) == NoSmart(s)
    ensures HealthFailure(ToggleErrorLog(s)) == HealthFailure(s)
  {
  }

  /** Two sets of outcomes the runner reads alike lead to the same script. */
  lemma SameReading(dummy: bool, o: Outcomes, p: Outcomes)
    requires CmdLine(o.first) == CmdLine(p.first) && NoSmart(o.first) == NoSmart(p.first)
    requires HealthFailure(o.first) == HealthFailure(p.first)
    requires HealthFailure(o.selfTest) == HealthFailure(p.selfTest)
    requires HealthFailure(o.second) == HealthFailure(p.second)
    requires o.badBlocks == p.badBlocks && o.partition == p.partition && o.format == p.format
    ensures Decide(dummy, o) == Decide(dummy, p)
  {
    assert SmartTail(o) == SmartTail(p);
    assert NoSmartTail(o) == NoSmartTail(p);
  }

  // ---------------------------------------------------------------------------
  // `run`: one test from start to upload

  /** What one `run` of a test consumes: the inputs of `start`, what each later
      `continue` reads (one poll per pass of the loop), the child's exit status
      and the clock at `finish`. */
  datatype ChildRun = ChildRun(launch: Launch, polls: seq<Poll>, status: ExitCode, finishAt: Time)

  /** The values the loop's `continue` calls returned, and the test's state after
      the last of them. */
  datatype Driven = Driven(values: seq<real>, state: TestState)

  /** `while progress < 1; progress = test.continue; ...; end`, over the polls
      given: it stops once a `continue` returned 1 or more, or when the polls run
      out (the runner would go on waiting). */
  function Drive(kind: ChildKind, s: TestState, progress: real, polls: seq<Poll>): (r: Driven)
    ensures |r.values| <= |polls|
    ensures progress >= 1.0 ==> r.values == [] && r.state == s
    ensures |r.values| < |polls| ==> progress >= 1.0 || (|r.values| > 0 && r.values[|r.values| - 1] >= 1.0)
    decreases |polls|
  {
    if progress >= 1.0 || polls == [] then Driven([], s)
    else
      var x := Step(kind, s, polls[0]);
      var d := Drive(kind, x.state, x.value, polls[1..]);
      Driven([x.value] + d.values, d.state)
  }

  /** The loop's last value: the one `start` returned when the loop never ran. */
  function LastValue(progress: real, values: seq<real>): real
  {
    if values == [] then progress else values[|values| - 1]
  }

  /** The polls the loop consumed: everything it read from stdout is in the log. */
  function OutOf(polls: seq<Poll>): string
  {
    if polls == [] then "" else Concat(polls[0].out.chunks) + OutOf(polls[1..])
  }

  /** The loop keeps all of stdout: the log after it is the log before it followed
      by what the consumed polls read, in order. The status and start time are
      not touched. */
  lemma {:induction false} DriveOut(kind: ChildKind, s: TestState, progress: real, polls: seq<Poll>)
    ensures var d := Drive(kind, s, progress, polls);
            d.state.result.out == s.result.out + OutOf(polls[..|d.values|])
            && d.state.result.status == s.result.status && d.state.result.startTime == s.result.startTime
    decreases |polls|
  {
    if !(progress >= 1.0 || polls == []) {
      var x := Step(kind, s, polls[0]);
      var e := Drive(kind, x.state, x.value, polls[1..]);
      DriveCons(kind, s, progress, polls);
      DriveOut(kind, x.state, x.value, polls[1..]);
      OutStep(s.result, x.state.result, x.value, e, polls);
    }
  }

  /** The inductive step of `DriveOut`, on the logs alone. */
  lemma OutStep(r0: TestResult, r1: TestResult, v: real, e: Driven, polls: seq<Poll>)
    requires |e.values| < |polls|
    requires r1.out == r0.out + Concat(polls[0].out.chunks)
    requires r1.status == r0.status && r1.startTime == r0.startTime
    requires e.state.result.out == r1.out + OutOf(polls[1..][..|e.values|])
    requires e.state.result.status == r1.status && e.state.result.startTime == r1.startTime
    ensures var d := Driven([v] + e.values, e.state);
            d.state.result.out == r0.out + OutOf(polls[..|d.values|])
            && d.state.result.status == r0.status && d.state.result.startTime == r0.startTime
  {
    OutOfCons(polls, |e.values|);
  }

  lemma OutOfCons(polls: seq<Poll>, n: nat)
    requires n < |polls|
    ensures OutOf(polls[..n + 1]) == Concat(polls[0].out.chunks) + OutOf(polls[1..][..n])
  {
    assert polls[..n + 1] == [polls[0]] + polls[1..][..n];
    assert polls[..n + 1][1..] == polls[1..][..n];
  }

  /** The loop stops at the first value that reaches 1: every value before the
      last is below 1. */
  lemma {:induction false} DriveStops(kind: ChildKind, s: TestState, progress: real, polls: seq<Poll>)
    ensures var d := Drive(kind, s, progress, polls);
            forall i | 0 <= i < |d.values| - 1 :: d.values[i] < 1.0
    decreases |polls|
  {
    if !(progress >= 1.0 || polls == []) {
      var x := Step(kind, s, polls[0]);
      var e := Drive(kind, x.state, x.value, polls[1..]);
      DriveCons(kind, s, progress, polls);
      DriveStops(kind, x.state, x.value, polls[1..]);
      BelowOneCons(x.value, e.values);
    }
  }

  /** A value below 1 in front of values that are below 1 but for the last. */
  lemma BelowOneCons(v: real, e: seq<real>)
    requires e != [] ==> v < 1.0
    requires forall i | 0 <= i < |e| - 1 :: e[i] < 1.0
    ensures forall i | 0 <= i < |[v] + e| - 1 :: ([v] + e)[i] < 1.0
  {
    forall i | 1 <= i < |[v] + e| - 1
      ensures ([v] + e)[i] == e[i - 1]
    {
    }
  }

  /** Only badblocks reports progress: any other test's loop keeps the meter
      `start` left and returns its progress (0 for a fresh meter) for every poll
      that did not end both of the child's pipes, and 1 for one that did. */
  lemma {:induction false} DriveOthers(kind: ChildKind, s: TestState, progress: real, polls: seq<Poll>)
    requires kind != BadBlocks
    ensures var d := Drive(kind, s, progress, polls);
            && d.state.meter == s.meter
            && forall i | 0 <= i < |d.values| :: d.values[i] == if Exhausted(polls[i]) then 1.0 else s.meter.progress
    decreases |polls|
  {
    if progress < 1.0 && polls != [] {
      var x := Step(kind, s, polls[0]);
      DriveOthers(kind, x.state, x.value, polls[1..]);
      DriveCons(kind, s, progress, polls);
    }
  }

  /** ... so, for a meter below 1, the loop stops exactly at the first poll that
      ends both pipes, and ends at all exactly when one of the polls does. */
  lemma {:induction false} DriveUntilEof(kind: ChildKind, s: TestState, progress: real, polls: seq<Poll>)
    requires kind != BadBlocks && s.meter.progress < 1.0 && progress < 1.0
    ensures var d := Drive(kind, s, progress, polls);
            && (forall i | 0 <= i < |d.values| - 1 :: !Exhausted(polls[i]))
            && (LastValue(progress, d.values) >= 1.0 <==> exists i | 0 <= i < |polls| :: Exhausted(polls[i]))
    decreases |polls|
  {
    DriveOthers(kind, s, progress, polls);
    if polls != [] {
      var x := Step(kind, s, polls[0]);
      var d := Drive(kind, s, progress, polls);
      DriveCons(kind, s, progress, polls);
      if x.value < 1.0 {
        DriveUntilEof(kind, x.state, x.value, polls[1..]);
        EofLater(polls);
      }
    }
  }

  /** From counters that keep BadBlocksTest's invariant, no value the loop returns
      is negative, so every percentage `run` prints is one `"%5.2f"` writes
      without a sign. */
  lemma {:induction false} DriveNonNegative(kind: ChildKind, s: TestState, progress: real, polls: seq<Poll>)
    requires MeterInv(s.meter)
    ensures var d := Drive(kind, s, progress, polls);
            forall i | 0 <= i < |d.values| :: d.values[i] >= 0.0
    decreases |polls|
  {
    if !(progress >= 1.0 || polls == []) {
      var x := Step(kind, s, polls[0]);
      StepErr(kind, s, polls[0]);
      DriveCons(kind, s, progress, polls);
      DriveNonNegative(kind, x.state, x.value, polls[1..]);
      var e := Drive(kind, x.state, x.value, polls[1..]);
      var d := Drive(kind, s, progress, polls);
      forall i | 0 <= i < |d.values|
        ensures d.values[i] >= 0.0
      {
        if i > 0 {
          assert d.values[i] == e.values[i - 1];
        }
      }
    }
  }

  /** One pass of the loop, when it runs. */
  lemma DriveCons(kind: ChildKind, s: TestState, progress: real, polls: seq<Poll>)
    requires progress < 1.0 && polls != []
    ensures var x := Step(kind, s, polls[0]);
            var e := Drive(kind, x.state, x.value, polls[1..]);
            Drive(kind, s, progress, polls) == Driven([x.value] + e.values, e.state)
  {
  }

  /** A sequence of polls whose first did not end both pipes has one that does
      exactly when its tail has. */
  lemma EofLater(polls: seq<Poll>)
    requires polls != [] && !Exhausted(polls[0])
    ensures (exists i | 0 <= i < |polls| :: Exhausted(polls[i]))
            <==> exists i | 0 <= i < |polls[1..]| :: Exhausted(polls[1..][i])
  {
    if exists i | 0 <= i < |polls[1..]| :: Exhausted(polls[1..][i]) {
      var i :| 0 <= i < |polls[1..]| && Exhausted(polls[1..][i]);
      assert Exhausted(polls[i + 1]);
    }
    if exists i | 0 <= i < |polls| :: Exhausted(polls[i]) {
      var i :| 0 <= i < |polls| && Exhausted(polls[i]);
      assert i > 0 && Exhausted(polls[1..][i - 1]);
    }
  }

  /** `"#{value}"` of the values `run` uploads. */
  function UploadParams(dev: Device, kind: Kind, count: string, runId: Option<string>,
                        f: Formats, r: TestResult): (ps: seq<Multipart.Param>)
    ensures |ps| == 13
  {
    [ Multipart.Param("device", Multipart.Plain(Path(dev))),
      Multipart.Param("device_model", Multipart.Plain(OptText(dev.model))),
      Multipart.Param("device_serial", Multipart.Plain(OptText(dev.serial))),
      Multipart.Param("name", Multipart.Plain(Description(kind))),
      Multipart.Param("code", Multipart.Plain(Code(kind))),
      Multipart.Param("count", Multipart.Plain(count)),
      Multipart.Param("result", Multipart.Plain(BoolText(r.passed))),
      Multipart.Param("runid", Multipart.Plain(OptText(runId))),
      Multipart.Param("status", Multipart.Plain(if r.status.Some? then NatToString(r.status.value as int) else "")),
      Multipart.Param("start", Multipart.Plain(f.time(r.startTime))),
      Multipart.Param("finish", Multipart.Plain(OptTime(f, r.finishTime))),
      Multipart.Param("log_out", Multipart.File("log_out.txt", r.out)),
      Multipart.Param("log_err", Multipart.File("log_err.txt", r.err)) ]
  }

  /** A receiver reading the upload back gets the thirteen fields in order, the
      two logs as files (provided no value holds the boundary line and no name a
      double quote). */
  lemma UploadReadsBack(dev: Device, kind: Kind, count: string, runId: Option<string>,
                        f: Formats, r: TestResult, escape: string -> string)
    requires var ps := UploadParams(dev, kind, count, runId, f, r);
             forall i | 0 <= i < |ps| :: Multipart.Readable(escape, ps[i])
    ensures var fs := Multipart.ParseBody(Multipart.PrepareQuery(escape, UploadParams(dev, kind, count, runId, f, r)).0);
            && fs.Some? && |fs.value| == 13
            && fs.value[0] == Multipart.Field(escape("device"), None, Path(dev))
            && fs.value[3] == Multipart.Field(escape("name"), None, Description(kind))
            && fs.value[6] == Multipart.Field(escape("result"), None, BoolText(r.passed))
            && fs.value[11] == Multipart.Field(escape("log_out"), Some("log_out.txt"), r.out)
            && fs.value[12] == Multipart.Field(escape("log_err"), Some("log_err.txt"), r.err)
  {
    var ps := UploadParams(dev, kind, count, runId, f, r);
    Multipart.BodyRoundTrip(escape, ps);
    var fs := Multipart.ExpectedAll(escape, ps);
    assert Multipart.PrepareQuery(escape, ps).0 == Multipart.Body(escape, ps);
    assert fs[0] == Multipart.Expected(escape, ps[0]) && fs[3] == Multipart.Expected(escape, ps[3]);
    assert fs[6] == Multipart.Expected(escape, ps[6]);
    assert fs[11] == Multipart.Expected(escape, ps[11]) && fs[12] == Multipart.Expected(escape, ps[12]);
  }

  /** Every one of the thirteen uploaded fields reads back as its parameter, in
      order: the escaped key with the value, or with the filename and content
      for the two logs. */
  lemma UploadReadsAll(dev: Device, kind: Kind, count: string, runId: Option<string>,
                       f: Formats, r: TestResult, escape: string -> string)
    requires var ps := UploadParams(dev, kind, count, runId, f, r);
             forall i | 0 <= i < |ps| :: Multipart.Readable(escape, ps[i])
    ensures Multipart.ParseBody(Multipart.PrepareQuery(escape, UploadParams(dev, kind, count, runId, f, r)).0)
            == Some(Multipart.ExpectedAll(escape, UploadParams(dev, kind, count, runId, f, r)))
  {
    var ps := UploadParams(dev, kind, count, runId, f, r);
    Multipart.BodyRoundTrip(escape, ps);
    assert Multipart.PrepareQuery(escape, ps).0 == Multipart.Body(escape, ps);
  }

  /** The progress lines the loop prints, one per value, as percentages. */
  function ProgressLines(values: seq<real>): (r: seq<Line>)
    ensures |r| == |values|
  {
    if values == [] then []
    else ProgressLines(values[..|values| - 1]) + [ProgressLine(values[|values| - 1] * 100.0)]
  }

  /** The block count a test is built with: 200000 for badblocks in dummy mode. */
  function SizeFor(kind: ChildKind, dummy: bool): (r: Option<nat>)
    ensures r.Some? <==> dummy && kind == BadBlocks
  {
    if dummy && kind == BadBlocks then Some(DUMMY_BLOCKS) else None
  }

  /** The state `start` leaves and the value it returns. */
  function Started(kind: ChildKind, l: Launch): (r: Stepped)
    ensures kind != BadBlocks ==> r.state.meter == START_METER
    ensures r.state.result.startTime == (if kind == SmartCheck then l.later else l.now)
    ensures r.state.result.status.None?
  {
    var st := Step(kind, TestState(START_METER, NewResult(l.now)), l.first);
    Stepped(TestState(st.state.meter, if kind == SmartCheck then NewResult(l.later) else st.state.result),
            st.value)
  }

  /** One pass of the loop, seen from the middle of the polls. */
  lemma DriveFrom(kind: ChildKind, s: TestState, progress: real, polls: seq<Poll>, i: nat)
    requires progress < 1.0 && i < |polls|
    ensures var x := Step(kind, s, polls[i]);
            var e := Drive(kind, x.state, x.value, polls[i + 1..]);
            Drive(kind, s, progress, polls[i..]) == Driven([x.value] + e.values, e.state)
  {
    DriveCons(kind, s, progress, polls[i..]);
    assert polls[i..][1..] == polls[i + 1..];
  }

  /** One pass of the polling loop, on the loop's ghost account of the whole run. */
  lemma DriveStep(kind: ChildKind, s: TestState, p: real, polls: seq<Poll>, i: nat,
                  values: seq<real>, total: Driven)
    requires p < 1.0 && i < |polls|
    requires var rest := Drive(kind, s, p, polls[i..]);
             total == Driven(values + rest.values, rest.state)
    ensures var x := Step(kind, s, polls[i]);
            var rest := Drive(kind, x.state, x.value, polls[i + 1..]);
            total == Driven((values + [x.value]) + rest.values, rest.state)
  {
    var x := Step(kind, s, polls[i]);
    DriveFrom(kind, s, p, polls, i);
    AppendAssoc(values, [x.value], Drive(kind, x.state, x.value, polls[i + 1..]).values);
  }

  lemma AppendAssoc(a: seq<real>, b: seq<real>, c: seq<real>)
    ensures a + (b + c) == (a + b) + c
  {
  }

  lemma ProgressLinesSnoc(values: seq<real>, v: real)
    ensures ProgressLines(values + [v]) == ProgressLines(values) + [ProgressLine(v * 100.0)]
  {
    assert (values + [v])[..|values|] == values;
  }

  /** The loop of `run`: `continue` and print the progress while it is below 1,
      one poll per pass, until the polls run out. */
  method PollUntilDone(test: ChildTest, progress: real, polls: seq<Poll>)
    returns (values: seq<real>, lines: seq<Line>)
    requires test.Valid() && test.result.Some?
    modifies test`result, test`stage, test`stageProgress, test`progress
    ensures test.Valid() && test.result.Some?
    ensures var d := Drive(test.kind, old(test.State()), progress, polls);
            values == d.values && test.State() == d.state
    ensures lines == ProgressLines(values)
  {
    ghost var total := Drive(test.kind, test.State(), progress, polls);
    var p := progress;
    values := [];
    lines := [];
    var i := 0;
    while p < 1.0 && i < |polls|
      invariant test.Valid() && test.result.Some?
      invariant 0 <= i <= |polls| && |values| == i
      invariant var rest := Drive(test.kind, test.State(), p, polls[i..]);
                total == Driven(values + rest.values, rest.state)
      invariant lines == ProgressLines(values)
      decreases |polls| - i
    {
      p := PollOnce(test, p, polls, i, values, total);
      ProgressLinesSnoc(values, p);
      lines := lines + [ProgressLine(p * 100.0)];
      values := values + [p];
      i := i + 1;
    }
    DriveEnd(test.kind, test.State(), p, polls[i..]);
    assert values + [] == values;
  }

  /** One turn of the polling loop: `continue` on the next poll. */
  method PollOnce(test: ChildTest, p: real, polls: seq<Poll>, i: nat, ghost values: seq<real>, ghost total: Driven)
    returns (next: real)
    requires test.Valid() && test.result.Some? && p < 1.0 && i < |polls|
    requires var rest := Drive(test.kind, test.State(), p, polls[i..]);
             total == Driven(values + rest.values, rest.state)
    modifies test`result, test`stage, test`stageProgress, test`progress
    ensures test.Valid() && test.result.Some?
    ensures var rest := Drive(test.kind, test.State(), next, polls[i + 1..]);
            total == Driven((values + [next]) + rest.values, rest.state)
  {
    ghost var x := Step(test.kind, test.State(), polls[i]);
    DriveStep(test.kind, test.State(), p, polls, i, values, total);
    next := test.Continue(polls[i]);
    assert test.State() == x.state && next == x.value;
  }

  /** Once the value reached 1 or the polls ran out, the loop has nothing left to do. */
  lemma DriveEnd(kind: ChildKind, s: TestState, progress: real, polls: seq<Poll>)
    requires progress >= 1.0 || polls == []
    ensures Drive(kind, s, progress, polls) == Driven([], s)
  {
  }

  /** `start` a fresh test, then poll it. */
  method StartAndPoll(test: ChildTest, l: Launch, polls: seq<Poll>)
    returns (first: real, values: seq<real>, lines: seq<Line>)
    requires test.Valid() && test.Counters() == START_METER
    modifies test
    ensures test.Valid() && test.result.Some?
    ensures var st := Started(test.kind, l);
            var d := Drive(test.kind, st.state, st.value, polls);
            first == st.value && values == d.values && test.State() == d.state
    ensures lines == ProgressLines(values)
  {
    first := test.Start(l);
    assert test.State() == Started(test.kind, l).state;
    values, lines := PollUntilDone(test, first, polls);
  }

  /** `run(dev, klass, count, options)` for the tests that drive one child: build
      the test, print its Test line and a 0% line, `start` it, print a progress
      line per `continue` until one returns 1, `finish` it, print the Result line
      and assemble the upload. When the polls run out first the run has not
      ended: no result, no Result line, no upload. */
  method RunChild(kind: ChildKind, dev: Device, count: string, dummy: bool, runId: Option<string>,
                  env: ChildRun, f: Formats, escape: string -> string)
    returns (lines: seq<Line>, result: Option<TestResult>, upload: Option<(string, map<string, string>)>)
    ensures var st := Started(kind, env.launch);
            var d := Drive(kind, st.state, st.value, env.polls);
            && (result.Some? <==> LastValue(st.value, d.values) >= 1.0)
            && (result.Some? ==> result.value == Finished(d.state.result, env.status, env.finishAt, Verdict(kind, env.status)))
            && lines == [TestLine(Description(kind), Code(kind), count), ProgressLine(0.0)] + ProgressLines(d.values)
                        + (if result.None? then []
                           else [ResultLine(result.value.passed, env.status, Some(result.value.startTime), Some(env.finishAt))])
    ensures result.Some? <==> upload.Some?
    ensures result.Some? ==> upload == Some(Multipart.PrepareQuery(escape, UploadParams(dev, kind, count, runId, f, result.value)))
  {
    var test := new ChildTest(kind, Path(dev), SizeFor(kind, dummy));
    var progress, values, progressLines := StartAndPoll(test, env.launch, env.polls);
    lines := [TestLine(Description(kind), Code(kind), count), ProgressLine(0.0)] + progressLines;
    progress := if values == [] then progress else values[|values| - 1];
    if progress < 1.0 {
      result := None;
      upload := None;
      return;
    }
    var r := test.Finish(env.status, env.finishAt);
    lines := lines + [ResultLine(r.passed, env.status, Some(r.startTime), r.finishTime)];
    result := Some(r);
    upload := Some(Multipart.PrepareQuery(escape, UploadParams(dev, kind, count, runId, f, r)));
  }

  // ---------------------------------------------------------------------------
  // `run` of the self-test

  /** One pass of the self-test's loop: the clock its `continue` reads, and what
      the inner SmartTest reads when it is polled. */
  datatype Tick = Tick(now: Time, poll: Poll)

  /** What one `run` of the self-test consumes: the two clocks of `start`, the
      inputs of the inner SmartTest's `start`, one tick per pass of the loop, the
      inner child's exit status and the clock at `finish`. */
  datatype SelfTestEnv = SelfTestEnv(t0: Time, t1: Time, launch: Launch, ticks: seq<Tick>,
                                     status: ExitCode, finishAt: Time)

  /** The values the self-test's `continue` returns in the loop of `run`. */
  function SelfDrive(start: Time, finish: Time, progress: real, ticks: seq<Tick>): (r: seq<real>)
    ensures |r| <= |ticks|
    ensures progress >= 1.0 ==> r == []
    ensures |r| < |ticks| ==> progress >= 1.0 || (|r| > 0 && r[|r| - 1] >= 1.0)
    decreases |ticks|
  {
    if progress >= 1.0 || ticks == [] then []
    else
      var v := SelfTestProgress(start, finish, SELF_TEST_LENGTH, ticks[0].now,
                                if Exhausted(ticks[0].poll) then 1.0 else 0.0);
      [v] + SelfDrive(start, finish, v, ticks[1..])
  }

  /** The loop stops at the first value that reaches 1: every value before the
      last is below 1. */
  lemma {:induction false} SelfDriveStops(start: Time, finish: Time, progress: real, ticks: seq<Tick>)
    ensures var r := SelfDrive(start, finish, progress, ticks);
            forall i | 0 <= i < |r| - 1 :: r[i] < 1.0
    decreases |ticks|
  {
    if !(progress >= 1.0 || ticks == []) {
      var v := SelfTestProgress(start, finish, SELF_TEST_LENGTH, ticks[0].now,
                                if Exhausted(ticks[0].poll) then 1.0 else 0.0);
      SelfDriveStops(start, finish, v, ticks[1..]);
      var r := SelfDrive(start, finish, progress, ticks);
      assert r == [v] + SelfDrive(start, finish, v, ticks[1..]);
      forall i | 1 <= i < |r| - 1
        ensures r[i] == SelfDrive(start, finish, v, ticks[1..])[i - 1]
      {
      }
    }
  }

  /** The self-test reports done only at a tick at or after its deadline whose
      poll ended both of the inner SmartTest's pipes; no value exceeds 1, and
      every value before the deadline is the elapsed fraction of the length or
      0.99. */
  lemma {:induction false} SelfDriveDone(start: Time, finish: Time, progress: real, ticks: seq<Tick>)
    ensures var r := SelfDrive(start, finish, progress, ticks);
            forall i | 0 <= i < |r| ::
              && r[i] <= 1.0
              && (r[i] == 1.0 <==> ticks[i].now >= finish && Exhausted(ticks[i].poll))
              && (ticks[i].now < finish ==> r[i] == (if (ticks[i].now - start) / SELF_TEST_LENGTH < 1.0
                                                     then (ticks[i].now - start) / SELF_TEST_LENGTH else 0.99))
    decreases |ticks|
  {
    if !(progress >= 1.0 || ticks == []) {
      var v := SelfTestProgress(start, finish, SELF_TEST_LENGTH, ticks[0].now,
                                if Exhausted(ticks[0].poll) then 1.0 else 0.0);
      SelfDriveDone(start, finish, v, ticks[1..]);
      var r := SelfDrive(start, finish, progress, ticks);
      assert r == [v] + SelfDrive(start, finish, v, ticks[1..]);
      forall i | 1 <= i < |r|
        ensures r[i] == SelfDrive(start, finish, v, ticks[1..])[i - 1] && ticks[i] == ticks[1..][i - 1]
      {
      }
    }
  }

  /** What one tick does to the inner SmartTest, `None` while it has not been
      started: nothing before the deadline; after it, a `start` the first time
      and a `continue` every time. */
  function SelfStep(finish: Time, l: Launch, inner: Option<TestState>, t: Tick): Option<TestState>
  {
    if t.now < finish then inner
    else Some(Step(SmartCheck, if inner.Some? then inner.value else SmartStarted(l), t.poll).state)
  }

  /** The inner SmartTest after the ticks, one `SelfStep` each, in order. */
  function InnerAfter(finish: Time, l: Launch, inner: Option<TestState>, ticks: seq<Tick>): Option<TestState>
    decreases |ticks|
  {
    if ticks == [] then inner
    else SelfStep(finish, l, InnerAfter(finish, l, inner, ticks[..|ticks| - 1]), ticks[|ticks| - 1])
  }

  /** The polls of the ticks at or after the deadline, in order: those the inner
      SmartTest reads. */
  function LatePolls(finish: Time, ticks: seq<Tick>): (r: seq<Poll>)
    ensures |r| <= |ticks|
    decreases |ticks|
  {
    if ticks == [] then []
    else
      var last := ticks[|ticks| - 1];
      LatePolls(finish, ticks[..|ticks| - 1]) + (if last.now >= finish then [last.poll] else [])
  }

  /** Some tick reached the deadline exactly when some poll went to the inner
      SmartTest. */
  lemma {:induction false} LatePollsAny(finish: Time, ticks: seq<Tick>)
    ensures LatePolls(finish, ticks) != [] <==> exists k | 0 <= k < |ticks| :: ticks[k].now >= finish
    decreases |ticks|
  {
    if ticks != [] {
      var n := |ticks| - 1;
      LatePollsAny(finish, ticks[..n]);
      if exists k | 0 <= k < n :: ticks[..n][k].now >= finish {
        var k :| 0 <= k < n && ticks[..n][k].now >= finish;
        assert ticks[k].now >= finish;
      }
      if exists k | 0 <= k < |ticks| :: ticks[k].now >= finish {
        var k :| 0 <= k < |ticks| && ticks[k].now >= finish;
        if k < n {
          assert ticks[..n][k].now >= finish;
        }
      }
    }
  }

  /** A result that was drained by each of the polls, in order. */
  function DrainedAll(r: TestResult, ps: seq<Poll>): (d: TestResult)
    ensures d.status == r.status && d.startTime == r.startTime
    ensures d.finishTime == r.finishTime && d.passed == r.passed
    decreases |ps|
  {
    if ps == [] then r else Drained(DrainedAll(r, ps[..|ps| - 1]), ps[|ps| - 1])
  }

  /** What the polls read from stderr, in order. */
  function ErrOf(polls: seq<Poll>): string
  {
    if polls == [] then "" else Concat(polls[0].err.chunks) + ErrOf(polls[1..])
  }

  /** Draining keeps both logs whole: each is the old log followed by what every
      poll read from that pipe. */
  lemma {:induction false} DrainedAllLogs(r: TestResult, ps: seq<Poll>)
    ensures DrainedAll(r, ps).out == r.out + OutOf(ps)
    ensures DrainedAll(r, ps).err == r.err + ErrOf(ps)
    decreases |ps|
  {
    if ps != [] {
      var n := |ps| - 1;
      DrainedAllLogs(r, ps[..n]);
      OutSnoc(ps[..n], ps[n]);
      ErrSnoc(ps[..n], ps[n]);
      assert ps[..n] + [ps[n]] == ps;
    }
  }

  lemma {:induction false} OutSnoc(ps: seq<Poll>, p: Poll)
    ensures OutOf(ps + [p]) == OutOf(ps) + Concat(p.out.chunks)
    decreases |ps|
  {
    if ps == [] {
      assert [p][1..] == [];
    } else {
      assert (ps + [p])[1..] == ps[1..] + [p];
      OutSnoc(ps[1..], p);
    }
  }

  lemma {:induction false} ErrSnoc(ps: seq<Poll>, p: Poll)
    ensures ErrOf(ps + [p]) == ErrOf(ps) + Concat(p.err.chunks)
    decreases |ps|
  {
    if ps == [] {
      assert [p][1..] == [];
    } else {
      assert (ps + [p])[1..] == ps[1..] + [p];
      ErrSnoc(ps[1..], p);
    }
  }

  /** Started from nothing, the inner SmartTest exists exactly when some tick
      reached the deadline; it then holds a SmartResult taken at `start`'s second
      clock reading and drained by every poll from the deadline on. */
  lemma {:induction false} InnerAfterLate(finish: Time, l: Launch, ticks: seq<Tick>)
    ensures var inner := InnerAfter(finish, l, None, ticks);
            && (inner.Some? <==> LatePolls(finish, ticks) != [])
            && (inner.Some? ==> inner.value == TestState(START_METER, DrainedAll(NewResult(l.later), LatePolls(finish, ticks))))
    decreases |ticks|
  {
    if ticks != [] {
      var n := |ticks| - 1;
      var pre := LatePolls(finish, ticks[..n]);
      var inner := InnerAfter(finish, l, None, ticks[..n]);
      InnerAfterLate(finish, l, ticks[..n]);
      assert InnerAfter(finish, l, None, ticks) == SelfStep(finish, l, inner, ticks[n]);
      assert LatePolls(finish, ticks) == pre + (if ticks[n].now >= finish then [ticks[n].poll] else []);
      LateStep(finish, l, inner, pre, ticks[n]);
    }
  }

  /** One tick keeps the closed form of `InnerAfterLate`. */
  lemma LateStep(finish: Time, l: Launch, inner: Option<TestState>, pre: seq<Poll>, t: Tick)
    requires inner.Some? <==> pre != []
    requires inner.Some? ==> inner.value == TestState(START_METER, DrainedAll(NewResult(l.later), pre))
    ensures var next := SelfStep(finish, l, inner, t);
            var post := pre + (if t.now >= finish then [t.poll] else []);
            && (next.Some? <==> post != [])
            && (next.Some? ==> next.value == TestState(START_METER, DrainedAll(NewResult(l.later), post)))
  {
    if t.now >= finish {
      SelfStepLate(finish, l, inner, t, DrainedAll(NewResult(l.later), pre));
      assert (pre + [t.poll])[..|pre|] == pre;
    } else {
      assert pre + [] == pre;
    }
  }

  /** A tick at or after the deadline drains its poll into the inner SmartTest's
      result, starting the test first if need be. */
  lemma SelfStepLate(finish: Time, l: Launch, inner: Option<TestState>, t: Tick, r: TestResult)
    requires t.now >= finish
    requires inner.Some? ==> inner.value == TestState(START_METER, r)
    requires inner.None? ==> r == NewResult(l.later)
    ensures SelfStep(finish, l, inner, t) == Some(TestState(START_METER, Drained(r, t.poll)))
  {
    StepDrains(SmartCheck, TestState(START_METER, r), t.poll);
  }

  /** One more tick of the loop. */
  lemma InnerSnoc(finish: Time, l: Launch, inner: Option<TestState>, ticks: seq<Tick>, i: nat)
    requires i < |ticks|
    ensures InnerAfter(finish, l, inner, ticks[..i + 1]) == SelfStep(finish, l, InnerAfter(finish, l, inner, ticks[..i]), ticks[i])
  {
    assert ticks[..i + 1][..i] == ticks[..i];
  }

  /** The self-test's loop: `continue` at each tick while the progress is below 1. */
  method PollSelfTest(run: SelfTestRun, l: Launch, ticks: seq<Tick>)
    returns (values: seq<real>, lines: seq<Line>)
    requires run.Valid() && run.finish.Some? && run.length == SELF_TEST_LENGTH
    modifies run`started, run.test
    ensures run.Valid()
    ensures values == SelfDrive(run.start.value, run.finish.value, 0.0, ticks)
    ensures lines == ProgressLines(values)
    ensures LastValue(0.0, values) >= 1.0 ==> run.started
    ensures var inner := InnerAfter(run.finish.value, l, if old(run.started) then Some(old(run.test.State())) else None,
                                    ticks[..|values|]);
            && (run.started <==> inner.Some?)
            && (inner.Some? ==> run.test.State() == inner.value)
  {
    ghost var total := SelfDrive(run.start.value, run.finish.value, 0.0, ticks);
    ghost var init := if run.started then Some(run.test.State()) else None;
    var p := 0.0;
    values := [];
    lines := [];
    var i := 0;
    while p < 1.0 && i < |ticks|
      invariant run.Valid() && run.finish.Some? && run.length == SELF_TEST_LENGTH
      invariant run.start == old(run.start) && run.finish == old(run.finish)
      invariant 0 <= i <= |ticks| && |values| == i
      invariant total == values + SelfDrive(run.start.value, run.finish.value, p, ticks[i..])
      invariant p == LastValue(0.0, values)
      invariant p >= 1.0 ==> run.started
      invariant lines == ProgressLines(values)
      invariant run.started <==> InnerAfter(run.finish.value, l, init, ticks[..i]).Some?
      invariant run.started ==> run.test.State() == InnerAfter(run.finish.value, l, init, ticks[..i]).value
      decreases |ticks| - i
    {
      p := SelfPollOnce(run, l, p, ticks, i, init);
      ProgressLinesSnoc(values, p);
      lines := lines + [ProgressLine(p * 100.0)];
      AppendAssoc(values, [p], SelfDrive(run.start.value, run.finish.value, p, ticks[i + 1..]));
      values := values + [p];
      i := i + 1;
    }
  }

  /** One turn of the self-test's polling loop: `continue` at the next tick. */
  method SelfPollOnce(run: SelfTestRun, l: Launch, p: real, ticks: seq<Tick>, i: nat, ghost init: Option<TestState>)
    returns (next: real)
    requires run.Valid() && run.finish.Some? && run.length == SELF_TEST_LENGTH && p < 1.0 && i < |ticks|
    requires run.started <==> InnerAfter(run.finish.value, l, init, ticks[..i]).Some?
    requires run.started ==> run.test.State() == InnerAfter(run.finish.value, l, init, ticks[..i]).value
    modifies run`started, run.test
    ensures run.Valid()
    ensures SelfDrive(run.start.value, run.finish.value, p, ticks[i..])
            == [next] + SelfDrive(run.start.value, run.finish.value, next, ticks[i + 1..])
    ensures next >= 1.0 ==> run.started
    ensures run.started <==> InnerAfter(run.finish.value, l, init, ticks[..i + 1]).Some?
    ensures run.started ==> run.test.State() == InnerAfter(run.finish.value, l, init, ticks[..i + 1]).value
  {
    assert ticks[i..][1..] == ticks[i + 1..];
    InnerSnoc(run.finish.value, l, init, ticks, i);
    next := run.Continue(ticks[i].now, l, ticks[i].poll);
  }

  /** `start` a fresh self-test, then poll it. */
  method StartAndPollSelfTest(run: SelfTestRun, env: SelfTestEnv)
    returns (first: real, values: seq<real>, lines: seq<Line>)
    requires run.Valid()
    modifies run, run.test
    ensures run.Valid() && first == 0.0
    ensures run.start == Some(env.t0) && run.finish == Some(env.t1 + SELF_TEST_LENGTH)
    ensures run.length == SELF_TEST_LENGTH && run.command == "/usr/sbin/smartctl -t short " + run.path
    ensures values == SelfDrive(env.t0, env.t1 + SELF_TEST_LENGTH, 0.0, env.ticks)
    ensures lines == ProgressLines(values)
    ensures LastValue(0.0, values) >= 1.0 ==> run.started
    ensures var inner := InnerAfter(env.t1 + SELF_TEST_LENGTH, env.launch,
                                    if old(run.started) then Some(old(run.test.State())) else None,
                                    env.ticks[..|values|]);
            && (run.started <==> inner.Some?)
            && (inner.Some? ==> run.test.State() == inner.value)
  {
    first := run.Start(env.t0, env.t1);
    ghost var deadline := env.t1 + SELF_TEST_LENGTH;
    assert run.start == Some(env.t0) && run.finish == Some(deadline);
    values, lines := PollSelfTest(run, env.launch, env.ticks);
    assert values == SelfDrive(env.t0, deadline, 0.0, env.ticks);
  }

  /** `run(dev, SmartSelfTest, count, options)`: as for the other tests, with the
      self-test's clock-driven progress. Its result is the inner SmartTest's,
      finished with the status and judged by the SMART bits. */
  method RunSelfTest(dev: Device, count: string, runId: Option<string>, env: SelfTestEnv,
                     f: Formats, escape: string -> string)
    returns (lines: seq<Line>, result: Option<TestResult>, upload: Option<(string, map<string, string>)>)
    ensures var values := SelfDrive(env.t0, env.t1 + SELF_TEST_LENGTH, 0.0, env.ticks);
            && (result.Some? <==> LastValue(0.0, values) >= 1.0)
            && lines == [TestLine(Description(SelfTest), Code(SelfTest), count), ProgressLine(0.0)]
                        + ProgressLines(values)
                        + (if result.None? then []
                           else [ResultLine(result.value.passed, env.status, Some(result.value.startTime), Some(env.finishAt))])
    ensures result.Some? ==>
              && result.value.status == Some(env.status) && result.value.finishTime == Some(env.finishAt)
              && result.value.passed == SmartPassed(env.status)
    ensures var values := SelfDrive(env.t0, env.t1 + SELF_TEST_LENGTH, 0.0, env.ticks);
            result.Some? ==>
              result.value == Finished(DrainedAll(NewResult(env.launch.later),
                                                  LatePolls(env.t1 + SELF_TEST_LENGTH, env.ticks[..|values|])),
                                       env.status, env.finishAt, SmartPassed(env.status))
    ensures result.Some? <==> upload.Some?
    ensures result.Some? ==> upload == Some(Multipart.PrepareQuery(escape, UploadParams(dev, SelfTest, count, runId, f, result.value)))
  {
    var run := new SelfTestRun(Path(dev));
    var progress, values, progressLines := StartAndPollSelfTest(run, env);
    lines := [TestLine(Description(SelfTest), Code(SelfTest), count), ProgressLine(0.0)] + progressLines;
    progress := if values == [] then progress else values[|values| - 1];
    if progress < 1.0 {
      result := None;
      upload := None;
      return;
    }
    InnerAfterLate(env.t1 + SELF_TEST_LENGTH, env.launch, env.ticks[..|values|]);
    var r := run.Finish(env.status, env.finishAt);
    lines := lines + [ResultLine(r.passed, env.status, Some(r.startTime), r.finishTime)];
    result := Some(r);
    upload := Some(Multipart.PrepareQuery(escape, UploadParams(dev, SelfTest, count, runId, f, r)));
  }
}
