/** The supervisor's view of one drive (class Device in drivewipe/wipe.rb): it
    buffers what the runner writes, cuts it into lines, and folds each line
    into what it shows about the drive. The screen drawing is not modelled. */
module Session {
  import opened Text
  import opened Patterns

  /** One entry of `@tests`: the hash a Test line creates. Times and status stay
      the strings the Result line carried. */
  datatype TestRecord = TestRecord(name: string, code: string, count: string, progress: real,
                                   passed: Option<bool>, status: Option<string>,
                                   startTime: Option<string>, finishTime: Option<string>)

  /** What the supervisor knows about the drive. `current` is the position in
      `tests` of the hash `@current_test` refers to (the same hash is in both). */
  datatype DriveView = DriveView(started: bool, done: bool, model: string, serial: string, size: string,
                       current: Option<nat>, plan: seq<string>, tests: seq<TestRecord>,
                       disposition: Option<string>, reason: Option<string>)

  const UNKNOWN := "Unknown"

  /** The view `initialize` sets up. */
  const INITIAL := DriveView(false, false, UNKNOWN, UNKNOWN, UNKNOWN, None, [], [], None, None)

  /** `@current_test` is either nil or one of `@tests`, and it is set once a test
      has started. */
  predicate Coherent(v: DriveView)
  {
    (v.current.Some? ==> v.current.value < |v.tests|) && (v.started <==> v.current.Some?)
  }

  /** Why `update` raises. */
  datatype ParseError =
      /** "Unknown input: '%s'": a line without a colon. */
    | NoColon(line: string)
      /** "Unknown input: %s - %s": a record type the supervisor does not know. */
    | UnknownType(kind: string, value: string)
      /** NoMethodError: a Result or Progress record before any Test record. */
    | NoCurrentTest

  function Message(e: ParseError): string
  {
    match e
    case NoColon(line) => "Unknown input: '" + line + "'"
    case UnknownType(kind, value) => "Unknown input: " + kind + " - " + value
    case NoCurrentTest => "undefined method `[]=' for nil:NilClass"
  }

  const TYPES: set<string> := {"Device", "Test", "Result", "Plan", "Progress", "Complete"}

  /** `[^']*` as a group. */
  const FIELD := Run(NotQuote, false, true)

  /** /m'([^']*)' s'([^']*)' z'([^']*)'/ */
  const DEVICE_FIELDS: seq<Tok> := [Lit("m'"), FIELD, Lit("' s'"), FIELD, Lit("' z'"), FIELD, Lit("'")]
  /** /^: n'([^']*)' s'([^']*)' c'([^']*)'/ */
  const TEST_FIELDS: seq<Tok> := [Lit(": n'"), FIELD, Lit("' s'"), FIELD, Lit("' c'"), FIELD, Lit("'")]
  /** /^: p'(true|false)' s'(\d+)' start'([^']+)' finish'([^']+)'/ */
  const RESULT_FIELDS: seq<Tok> :=
    [Lit(": p'"), Either("true", "false"), Lit("' s'"), Run(Digit, true, true),
     Lit("' start'"), Run(NotQuote, true, true), Lit("' finish'"), Run(NotQuote, true, true), Lit("'")]
  /** /^:\s+/ */
  const PLAN_LEAD: seq<Tok> := [Lit(":"), Run(Space, true, false)]
  /** /^:\s+([\d\.]+)%/ */
  const PROGRESS_FIELDS: seq<Tok> := [Lit(":"), Run(Space, true, false), Run(DigitOrDot, true, true), Lit("%")]
  /** /^: d'([^']*)' r'([^']*)'/ */
  const COMPLETE_FIELDS: seq<Tok> := [Lit(": d'"), FIELD, Lit("' r'"), FIELD, Lit("'")]

  /** `value.slice!(/^:\s+/)`: the first match, if any, is cut out. */
  function StripLead(value: string): (r: string)
    ensures |r| <= |value|
  {
    match Locate(value, PLAN_LEAD, true, 0)
    case None => value
    case Some(i) => value[..i] + value[MatchAt(value, i, PLAN_LEAD).value.end..]
  }

  predicate HasCurrent(v: DriveView)
  {
    v.current.Some? && v.current.value < |v.tests|
  }

  /** The groups of a pattern's tail, counted token by token. */
  function CountOf(toks: seq<Tok>, k: nat): nat
    requires k <= |toks|
    decreases |toks| - k
  {
    if k == |toks| then 0 else TokCount(toks[k]) + CountOf(toks, k + 1)
  }

  lemma {:induction false} CountFrom(toks: seq<Tok>, k: nat)
    requires k <= |toks|
    ensures GroupCount(toks[k..]) == CountOf(toks, k)
    decreases |toks| - k
  {
    if k < |toks| {
      assert toks[k..][1..] == toks[k + 1..];
      CountFrom(toks, k + 1);
    }
  }

  lemma DeviceGroups()
    ensures GroupCount(DEVICE_FIELDS) == 3
  {
    assert CountOf(DEVICE_FIELDS, 7) == 0;
    assert CountOf(DEVICE_FIELDS, 6) == 0;
    assert CountOf(DEVICE_FIELDS, 5) == 1;
    assert CountOf(DEVICE_FIELDS, 4) == 1;
    assert CountOf(DEVICE_FIELDS, 3) == 2;
    assert CountOf(DEVICE_FIELDS, 2) == 2;
    assert CountOf(DEVICE_FIELDS, 1) == 3;
    assert CountOf(DEVICE_FIELDS, 0) == 3;
    CountFrom(DEVICE_FIELDS, 0);
    assert DEVICE_FIELDS[0..] == DEVICE_FIELDS;
  }

  lemma TestGroups()
    ensures GroupCount(TEST_FIELDS) == 3
  {
    assert CountOf(TEST_FIELDS, 7) == 0;
    assert CountOf(TEST_FIELDS, 6) == 0;
    assert CountOf(TEST_FIELDS, 5) == 1;
    assert CountOf(TEST_FIELDS, 4) == 1;
    assert CountOf(TEST_FIELDS, 3) == 2;
    assert CountOf(TEST_FIELDS, 2) == 2;
    assert CountOf(TEST_FIELDS, 1) == 3;
    assert CountOf(TEST_FIELDS, 0) == 3;
    CountFrom(TEST_FIELDS, 0);
    assert TEST_FIELDS[0..] == TEST_FIELDS;
  }

  lemma ResultGroups()
    ensures GroupCount(RESULT_FIELDS) == 4
  {
    assert CountOf(RESULT_FIELDS, 9) == 0;
    assert CountOf(RESULT_FIELDS, 8) == 0;
    assert CountOf(RESULT_FIELDS, 7) == 1;
    assert CountOf(RESULT_FIELDS, 6) == 1;
    assert CountOf(RESULT_FIELDS, 5) == 2;
    assert CountOf(RESULT_FIELDS, 4) == 2;
    assert CountOf(RESULT_FIELDS, 3) == 3;
    assert CountOf(RESULT_FIELDS, 2) == 3;
    assert CountOf(RESULT_FIELDS, 1) == 4;
    assert CountOf(RESULT_FIELDS, 0) == 4;
    CountFrom(RESULT_FIELDS, 0);
    assert RESULT_FIELDS[0..] == RESULT_FIELDS;
  }

  lemma ProgressGroups()
    ensures GroupCount(PROGRESS_FIELDS) == 1
  {
    assert CountOf(PROGRESS_FIELDS, 4) == 0;
    assert CountOf(PROGRESS_FIELDS, 3) == 0;
    assert CountOf(PROGRESS_FIELDS, 2) == 1;
    assert CountOf(PROGRESS_FIELDS, 1) == 1;
    assert CountOf(PROGRESS_FIELDS, 0) == 1;
    CountFrom(PROGRESS_FIELDS, 0);
    assert PROGRESS_FIELDS[0..] == PROGRESS_FIELDS;
  }

  lemma CompleteGroups()
    ensures GroupCount(COMPLETE_FIELDS) == 2
  {
    assert CountOf(COMPLETE_FIELDS, 5) == 0;
    assert CountOf(COMPLETE_FIELDS, 4) == 0;
    assert CountOf(COMPLETE_FIELDS, 3) == 1;
    assert CountOf(COMPLETE_FIELDS, 2) == 1;
    assert CountOf(COMPLETE_FIELDS, 1) == 2;
    assert CountOf(COMPLETE_FIELDS, 0) == 2;
    CountFrom(COMPLETE_FIELDS, 0);
    assert COMPLETE_FIELDS[0..] == COMPLETE_FIELDS;
  }

  /** `when 'Device'`: model, serial and size from the first match anywhere in
      the value; nothing else changes. */
  function ParseDevice(v: DriveView, value: string): (r: DriveView)
    ensures !Matches(value, DEVICE_FIELDS, false) ==> r == v
    ensures r == v.(model := r.model, serial := r.serial, size := r.size)
  {
    DeviceGroups();
    match Search(value, DEVICE_FIELDS, false, 0)
    case None => v
    case Some(m) => v.(model := m.groups[0], serial := m.groups[1], size := m.groups[2])
  }

  /** `when 'Test'`: a new test with progress 0 and no verdict is appended to the
      tests and becomes the current one. */
  function ParseTest(v: DriveView, value: string): (r: DriveView)
    ensures !Matches(value, TEST_FIELDS, true) ==> r == v
    ensures Matches(value, TEST_FIELDS, true) ==>
              && r == v.(started := true, current := Some(|v.tests|), tests := r.tests)
              && |r.tests| == |v.tests| + 1 && r.tests[..|v.tests|] == v.tests
              && r.tests[|v.tests|].progress == 0.0 && r.tests[|v.tests|].passed.None?
              && r.tests[|v.tests|].status.None? && r.tests[|v.tests|].startTime.None?
              && r.tests[|v.tests|].finishTime.None?
  {
    TestGroups();
    match Search(value, TEST_FIELDS, true, 0)
    case None => v
    case Some(m) =>
      var t := TestRecord(m.groups[0], m.groups[1], m.groups[2], 0.0, None, None, None, None);
      v.(started := true, current := Some(|v.tests|), tests := v.tests + [t])
  }

  /** Only the current test changes, and nothing else in the view. */
  predicate OnlyCurrent(v: DriveView, w: DriveView)
  {
    && HasCurrent(v) && w == v.(tests := w.tests) && |w.tests| == |v.tests|
    && forall k | 0 <= k < |v.tests| && k != v.current.value :: w.tests[k] == v.tests[k]
  }

  /** `when 'Result'`: the verdict, status and times of the current test, which
      must exist. */
  function ParseResult(v: DriveView, value: string): (r: Result<DriveView, ParseError>)
    ensures !Matches(value, RESULT_FIELDS, true) ==> r == Ok(v)
    ensures Matches(value, RESULT_FIELDS, true) ==> (r.Err? <==> !HasCurrent(v))
    ensures r.Err? ==> r.error == NoCurrentTest
    ensures r.Ok? && Matches(value, RESULT_FIELDS, true) ==>
              && OnlyCurrent(v, r.value)
              && var t := v.tests[v.current.value];
                 var u := r.value.tests[v.current.value];
                 && u == t.(passed := u.passed, status := u.status, startTime := u.startTime, finishTime := u.finishTime)
                 && u.passed.Some? && u.status.Some? && u.startTime.Some? && u.finishTime.Some?
  {
    ResultGroups();
    match Search(value, RESULT_FIELDS, true, 0)
    case None => Ok(v)
    case Some(m) =>
      if !HasCurrent(v) then Err(NoCurrentTest)
      else
        var c := v.current.value;
        var t := v.tests[c].(passed := Some(m.groups[0] == "true"), status := Some(m.groups[1]),
                             startTime := Some(m.groups[2]), finishTime := Some(m.groups[3]));
        Ok(v.(tests := v.tests[c := t]))
  }

  /** `when 'Plan'`: the plan is the value after its leading colon and blanks,
      split at ", ". */
  function ParsePlan(v: DriveView, value: string): (r: DriveView)
    ensures r == v.(plan := r.plan)
  {
    v.(plan := Split(StripLead(value), ", "))
  }

  /** `when 'Progress'`: the current test's progress, which must exist. */
  function ParseProgress(v: DriveView, value: string): (r: Result<DriveView, ParseError>)
    ensures !Matches(value, PROGRESS_FIELDS, true) ==> r == Ok(v)
    ensures Matches(value, PROGRESS_FIELDS, true) ==> (r.Err? <==> !HasCurrent(v))
    ensures r.Err? ==> r.error == NoCurrentTest
    ensures r.Ok? && Matches(value, PROGRESS_FIELDS, true) ==>
              && OnlyCurrent(v, r.value)
              && var t := v.tests[v.current.value];
                 var u := r.value.tests[v.current.value];
                 u == t.(progress := u.progress) && u.progress >= 0.0
  {
    ProgressGroups();
    match Search(value, PROGRESS_FIELDS, true, 0)
    case None => Ok(v)
    case Some(m) =>
      if !HasCurrent(v) then Err(NoCurrentTest)
      else
        var c := v.current.value;
        Ok(v.(tests := v.tests[c := v.tests[c].(progress := ToF(m.groups[0]))]))
  }

  /** `when 'Complete'`: the disposition and the reason; the drive is done. */
  function ParseComplete(v: DriveView, value: string): (r: DriveView)
    ensures !Matches(value, COMPLETE_FIELDS, true) ==> r == v
    ensures Matches(value, COMPLETE_FIELDS, true) ==>
              && r == v.(done := true, disposition := r.disposition, reason := r.reason)
              && r.disposition.Some? && r.reason.Some?
  {
    CompleteGroups();
    match Search(value, COMPLETE_FIELDS, true, 0)
    case None => v
    case Some(m) => v.(disposition := Some(m.groups[0]), reason := Some(m.groups[1]), done := true)
  }

  /** `parse(type, value)`: only the six record types are known; a record
      never undoes `done` or `started`. */
  function ParseLine(v: DriveView, kind: string, value: string): Result<DriveView, ParseError>
  {
    if kind == "Device" then Ok(ParseDevice(v, value))
    else if kind == "Test" then Ok(ParseTest(v, value))
    else if kind == "Result" then ParseResult(v, value)
    else if kind == "Plan" then Ok(ParsePlan(v, value))
    else if kind == "Progress" then ParseProgress(v, value)
    else if kind == "Complete" then Ok(ParseComplete(v, value))
    else Err(UnknownType(kind, value))
  }

  /** Only the six record types are known; of those, only a Result or Progress
      record fails, for want of a current test; a record never undoes `done` or
      `started`. */
  lemma ParseKinds(v: DriveView, kind: string, value: string)
    ensures var r := ParseLine(v, kind, value);
            && (kind !in TYPES <==> r.Err? && r.error.UnknownType?)
            && (kind !in TYPES ==> r == Err(UnknownType(kind, value)))
            && (r.Err? && kind in TYPES ==> r.error == NoCurrentTest && (kind == "Result" || kind == "Progress"))
            && (r.Ok? ==> (v.done ==> r.value.done) && (v.started ==> r.value.started))
  {
  }

  /** Every record keeps the view coherent. */
  lemma ParseCoherent(v: DriveView, kind: string, value: string)
    requires Coherent(v)
    ensures ParseLine(v, kind, value).Ok? ==> Coherent(ParseLine(v, kind, value).value)
  {
  }

  /** The lines loop of `update`: while the buffer holds a newline, cut the first
      line off (newline included) and parse it at its first colon. The result is
      the view and the unfinished tail left in the buffer. */
  function Feed(v: DriveView, buff: string): (r: Result<(DriveView, string), ParseError>)
    decreases |buff|
  {
    match IndexOf(buff, '\n')
    case None => Ok((v, buff))
    case Some(idx) =>
      var line := buff[..idx + 1];
      match IndexOf(line, ':')
      case None => Err(NoColon(line))
      case Some(i) =>
        match ParseLine(v, line[..i], line[i..])
        case Err(e) => Err(e)
        case Ok(w) => Feed(w, buff[idx + 1..])
  }

  /** What `Feed` leaves unparsed is a tail of the buffer holding no newline. */
  lemma {:induction false} FeedTail(v: DriveView, buff: string)
    ensures var r := Feed(v, buff);
            r.Ok? ==> '\n' !in r.value.1 && |r.value.1| <= |buff| && r.value.1 == buff[|buff| - |r.value.1|..]
    decreases |buff|
  {
    match IndexOf(buff, '\n')
    case None =>
    case Some(idx) =>
      var line := buff[..idx + 1];
      match IndexOf(line, ':')
      case None =>
      case Some(i) =>
        match ParseLine(v, line[..i], line[i..])
        case Err(e) =>
        case Ok(w) =>
          FeedTail(w, buff[idx + 1..]);
          FeedLine(v, buff, idx, i);
  }

  /** Feeding more text after a feed. */
  function Then(r: Result<(DriveView, string), ParseError>, more: string): Result<(DriveView, string), ParseError>
  {
    match r
    case Err(e) => Err(e)
    case Ok((w, rest)) => Feed(w, rest + more)
  }

  /** What arrives in one read does not matter, only the order: feeding `a` and
      then `b` after the tail `a` left is feeding `a + b` at once, errors
      included. */
  lemma {:induction false} FeedAppend(v: DriveView, a: string, b: string)
    ensures Feed(v, a + b) == Then(Feed(v, a), b)
    decreases |a|
  {
    IndexOfAppend(a, b, '\n');
    match IndexOf(a, '\n')
    case None =>
      assert Then(Feed(v, a), b) == Feed(v, a + b);
    case Some(idx) =>
      var line := a[..idx + 1];
      assert (a + b)[..idx + 1] == line;
      assert (a + b)[idx + 1..] == a[idx + 1..] + b;
      match IndexOf(line, ':')
      case None =>
      case Some(i) =>
        match ParseLine(v, line[..i], line[i..])
        case Err(e) =>
        case Ok(w) => FeedAppend(w, a[idx + 1..], b);
  }

  /** The first `c` of `a + b` is the first of `a`, or else the first of `b`. */
  lemma {:induction false} IndexOfAppend(a: string, b: string, c: char)
    ensures IndexOf(a, c).Some? ==> IndexOf(a + b, c) == IndexOf(a, c)
    ensures IndexOf(a, c).None? && IndexOf(b, c).None? ==> IndexOf(a + b, c).None?
    ensures IndexOf(a, c).None? && IndexOf(b, c).Some? ==> IndexOf(a + b, c) == Some(|a| + IndexOf(b, c).value)
    decreases |a|
  {
    if a == [] {
      assert a + b == b;
    } else {
      assert (a + b)[0] == a[0];
      assert (a + b)[1..] == a[1..] + b;
      IndexOfAppend(a[1..], b, c);
    }
  }

  /** A drive, once done, stays done, and a started one stays started. */
  lemma {:induction false} FeedDone(v: DriveView, buff: string)
    ensures Feed(v, buff).Ok? ==> (v.done ==> Feed(v, buff).value.0.done)
                                  && (v.started ==> Feed(v, buff).value.0.started)
    decreases |buff|
  {
    match IndexOf(buff, '\n')
    case None =>
    case Some(idx) =>
      var line := buff[..idx + 1];
      match IndexOf(line, ':')
      case None =>
      case Some(i) =>
        ParseKinds(v, line[..i], line[i..]);
        FeedLine(v, buff, idx, i);
        match ParseLine(v, line[..i], line[i..])
        case Err(e) =>
        case Ok(w) => FeedDone(w, buff[idx + 1..]);
  }

  /** Feeding keeps the view coherent. */
  lemma {:induction false} FeedCoherent(v: DriveView, buff: string)
    requires Coherent(v)
    ensures Feed(v, buff).Ok? ==> Coherent(Feed(v, buff).value.0)
    decreases |buff|
  {
    match IndexOf(buff, '\n')
    case None =>
    case Some(idx) =>
      var line := buff[..idx + 1];
      match IndexOf(line, ':')
      case None =>
      case Some(i) =>
        ParseCoherent(v, line[..i], line[i..]);
        FeedLine(v, buff, idx, i);
        match ParseLine(v, line[..i], line[i..])
        case Err(e) =>
        case Ok(w) => FeedCoherent(w, buff[idx + 1..]);
  }

  // ---------------------------------------------------------------------------
  // The drive list

  /** The pattern `/^[sh]d/`. */
  const DISK: seq<Tok> := [Either("s", "h"), Lit("d")]

  /** `x =~ /^[sh]d/`. */
  predicate DiskName(x: string)
  {
    Matches(x, DISK, true)
  }

  /** An entry `drives` keeps. */
  predicate Kept(x: string)
  {
    x != "." && x != ".." && DiskName(x)
  }

  /** The entries `drives` keeps, in order. */
  function KeptOf(entries: seq<string>): (r: seq<string>)
    ensures |r| <= |entries|
  {
    if entries == [] then []
    else
      var n := |entries| - 1;
      KeptOf(entries[..n]) + (if Kept(entries[n]) then [entries[n]] else [])
  }

  /** The entries kept are those of the input that pass. */
  lemma {:induction false} KeptOfMembers(entries: seq<string>)
    ensures forall x :: x in KeptOf(entries) <==> x in entries && Kept(x)
    decreases |entries|
  {
    if entries != [] {
      var n := |entries| - 1;
      KeptOfMembers(entries[..n]);
      assert entries == entries[..n] + [entries[n]];
    }
  }

  /** The filter keeps order: the entries kept from a concatenation are those
      kept from each part, in turn. */
  lemma {:induction false} KeptOfAppend(a: seq<string>, b: seq<string>)
    ensures KeptOf(a + b) == KeptOf(a) + KeptOf(b)
    decreases |b|
  {
    if b == [] {
      assert a + b == a;
    } else {
      var n := |b| - 1;
      assert (a + b)[..|a + b| - 1] == a + b[..n];
      KeptOfAppend(a, b[..n]);
    }
  }

  /** For a name holding no newline: kept exactly when it begins with "sd" or "hd". */
  lemma DiskNames(x: string)
    requires '\n' !in x
    ensures Kept(x) <==> |x| >= 2 && (x[..2] == "sd" || x[..2] == "hd")
  {
    var toks := DISK;
    if |x| >= 2 && (x[..2] == "sd" || x[..2] == "hd") {
      var vals := [x[..1], "d"];
      assert x[..2] == x[..1] + "d";
      assert Fill(toks[1..], vals[1..]) == "d";
      assert Fill(toks, vals) == x[..2];
      assert x[0..] == x[..2] + x[2..];
      MatchFill(x, 0, toks, vals, x[2..]);
      assert Search(x, toks, true, 0).Some?;
    }
    if Kept(x) {
      var i := Locate(x, toks, true, 0).value;
      assert forall k | 0 <= k < |x| :: x[k] != '\n';
      assert i == 0;
      FirstTwo(x, toks);
    }
  }

  lemma FirstTwo(x: string, toks: seq<Tok>)
    requires toks == [Either("s", "h"), Lit("d")] && MatchAt(x, 0, toks).Some?
    ensures |x| >= 2 && (x[..2] == "sd" || x[..2] == "hd")
  {
    assert MatchTok(x, 0, toks[0], toks[1..]).Some?;
    var p := OccursAt(x, "s", 0) || OccursAt(x, "h", 0);
    assert p;
    assert MatchAt(x, 1, toks[1..]).Some?;
    assert MatchAt(x, 1, toks[1..]) == MatchTok(x, 1, Lit("d"), []);
    assert OccursAt(x, "d", 1);
    assert x[..2] == x[0..1] + x[1..2];
  }

  /** `drives`: of the entries of /sys/block, drop "." and "..", then drop the
      names that do not start with "sd" or "hd". */
  method Drives(entries: seq<string>) returns (devices: seq<string>)
    ensures devices == KeptOf(entries)
  {
    var named: seq<string> := [];
    for i := 0 to |entries|
      invariant KeptOf(named) == KeptOf(entries[..i])
      invariant forall k | 0 <= k < |named| :: named[k] != "." && named[k] != ".."
    {
      var x := entries[i];
      assert entries[..i + 1][..i] == entries[..i];
      if x != "." && x != ".." {
        assert (named + [x])[..|named|] == named;
        named := named + [x];
      }
    }
    assert entries[..|entries|] == entries;
    devices := [];
    for i := 0 to |named|
      invariant devices == KeptOf(named[..i])
    {
      var x := named[i];
      assert named[..i + 1][..i] == named[..i];
      if DiskName(x) {
        devices := devices + [x];
      }
    }
    assert named[..|named|] == named;
  }

  // ---------------------------------------------------------------------------
  // The object

  /** Class Device of the supervisor: one runner's output and what it says. */
  class Monitor {
    const name: string
    var started: bool
    var done: bool
    var model: string
    var serial: string
    var size: string
    var current: Option<nat>
    var testPlan: seq<string>
    var tests: seq<TestRecord>
    var disposition: Option<string>
    var reason: Option<string>
    /** What was read from the runner's stdout and not yet parsed. */
    var buffOut: string
    /** Everything read from the runner's stderr. */
    var buffErr: string

    function View(): DriveView
      reads this
    {
      DriveView(started, done, model, serial, size, current, testPlan, tests, disposition, reason)
    }

    /** `initialize`, before its first `update`. */
    constructor (name: string)
      ensures this.name == name && View() == INITIAL && buffOut == "" && buffErr == ""
    {
      this.name := name;
      started := false;
      done := false;
      model := UNKNOWN;
      serial := UNKNOWN;
      size := UNKNOWN;
      current := None;
      testPlan := [];
      tests := [];
      disposition := None;
      reason := None;
      buffOut := "";
      buffErr := "";
    }

    /** `done?` */
    function IsDone(): bool
      reads this
    {
      done
    }

    /** `parse(type, value)`: on an error nothing has changed. */
    method Parse(kind: string, value: string) returns (err: Option<ParseError>)
      modifies this`started, this`done, this`model, this`serial, this`size, this`current,
               this`testPlan, this`tests, this`disposition, this`reason
      ensures err.None? ==> ParseLine(old(View()), kind, value) == Ok(View())
      ensures err.Some? ==> ParseLine(old(View()), kind, value) == Err(err.value) && View() == old(View())
    {
      err := None;
      if kind == "Device" {
        ReadDevice(value);
      } else if kind == "Test" {
        ReadTest(value);
      } else if kind == "Result" {
        err := ReadResult(value);
      } else if kind == "Plan" {
        var rest := StripLead(value);
        testPlan := Split(rest, ", ");
      } else if kind == "Progress" {
        err := ReadProgress(value);
      } else if kind == "Complete" {
        ReadComplete(value);
      } else {
        err := Some(UnknownType(kind, value));
      }
    }

    method ReadDevice(value: string)
      modifies this`model, this`serial, this`size
      ensures View() == ParseDevice(old(View()), value)
    {
      DeviceGroups();
      var m := Search(value, DEVICE_FIELDS, false, 0);
      if m.Some? {
        model := m.value.groups[0];
        serial := m.value.groups[1];
        size := m.value.groups[2];
      }
    }

    method ReadTest(value: string)
      modifies this`started, this`current, this`tests
      ensures View() == ParseTest(old(View()), value)
    {
      TestGroups();
      var m := Search(value, TEST_FIELDS, true, 0);
      if m.Some? {
        started := true;
        var t := TestRecord(m.value.groups[0], m.value.groups[1], m.value.groups[2], 0.0, None, None, None, None);
        current := Some(|tests|);
        tests := tests + [t];
      }
    }

    method ReadResult(value: string) returns (err: Option<ParseError>)
      modifies this`tests
      ensures err.None? ==> ParseResult(old(View()), value) == Ok(View())
      ensures err.Some? ==> ParseResult(old(View()), value) == Err(err.value) && View() == old(View())
    {
      ResultGroups();
      err := None;
      var m := Search(value, RESULT_FIELDS, true, 0);
      if m.Some? {
        if current.None? || current.value >= |tests| {
          err := Some(NoCurrentTest);
          return;
        }
        var c := current.value;
        var g := m.value.groups;
        tests := tests[c := tests[c].(passed := Some(g[0] == "true"), status := Some(g[1]),
                                      startTime := Some(g[2]), finishTime := Some(g[3]))];
      }
    }

    method ReadProgress(value: string) returns (err: Option<ParseError>)
      modifies this`tests
      ensures err.None? ==> ParseProgress(old(View()), value) == Ok(View())
      ensures err.Some? ==> ParseProgress(old(View()), value) == Err(err.value) && View() == old(View())
    {
      ProgressGroups();
      err := None;
      var m := Search(value, PROGRESS_FIELDS, true, 0);
      if m.Some? {
        if current.None? || current.value >= |tests| {
          err := Some(NoCurrentTest);
          return;
        }
        var c := current.value;
        tests := tests[c := tests[c].(progress := ToF(m.value.groups[0]))];
      }
    }

    method ReadComplete(value: string)
      modifies this`disposition, this`reason, this`done
      ensures View() == ParseComplete(old(View()), value)
    {
      CompleteGroups();
      var m := Search(value, COMPLETE_FIELDS, true, 0);
      if m.Some? {
        disposition := Some(m.value.groups[0]);
        reason := Some(m.value.groups[1]);
        done := true;
      }
    }

    /** `update`: append what stdout gave, parse every complete line, then append
        what stderr gave. A line that raises ends the update. */
    method Update(outChunks: seq<string>, errChunks: seq<string>) returns (err: Option<ParseError>)
      modifies this
      ensures var r := Feed(old(View()), old(buffOut) + Concat(outChunks));
              && (err.None? <==> r.Ok?)
              && (r.Err? ==> err == Some(r.error))
              && (r.Ok? ==> View() == r.value.0 && buffOut == r.value.1
                            && buffErr == old(buffErr) + Concat(errChunks))
    {
      buffOut := Gather(buffOut, outChunks);
      err := ParseLines();
      if err.None? {
        buffErr := Gather(buffErr, errChunks);
      }
    }

    /** The buffer after appending each chunk read, in turn. */
    static method Gather(buff: string, chunks: seq<string>) returns (r: string)
      ensures r == buff + Concat(chunks)
    {
      r := buff;
      for i := 0 to |chunks|
        invariant r == buff + Concat(chunks[..i])
      {
        assert chunks[..i + 1][..i] == chunks[..i];
        r := r + chunks[i];
      }
      assert chunks[..|chunks|] == chunks;
    }

    /** The `while` loop of `update` over the lines of the stdout buffer. */
    method ParseLines() returns (err: Option<ParseError>)
      modifies this`started, this`done, this`model, this`serial, this`size, this`current,
               this`testPlan, this`tests, this`disposition, this`reason, this`buffOut
      ensures var r := Feed(old(View()), old(buffOut));
              && (err.None? <==> r.Ok?)
              && (r.Err? ==> err == Some(r.error))
              && (r.Ok? ==> View() == r.value.0 && buffOut == r.value.1)
    {
      ghost var total := Feed(View(), buffOut);
      var idx := IndexOf(buffOut, '\n');
      while idx.Some?
        invariant idx == IndexOf(buffOut, '\n')
        invariant Feed(View(), buffOut) == total
        decreases |buffOut|
      {
        var line := buffOut[..idx.value + 1];
        var colon := IndexOf(line, ':');
        if colon.None? {
          FeedNoColon(View(), buffOut, idx.value);
          err := Some(NoColon(line));
          return;
        }
        var rest := buffOut[idx.value + 1..];
        ghost var v0 := View();
        err := Parse(line[..colon.value], line[colon.value..]);
        if err.Some? {
          FeedLineErr(v0, buffOut, idx.value, colon.value, err.value);
          return;
        }
        FeedLineOk(v0, buffOut, idx.value, colon.value, View());
        buffOut := rest;
        idx := IndexOf(buffOut, '\n');
      }
      err := None;
    }
  }

  /** One step of `Feed`: a first line without a colon. */
  lemma FeedNoColon(v: DriveView, buff: string, idx: nat)
    requires IndexOf(buff, '\n') == Some(idx) && idx < |buff| && IndexOf(buff[..idx + 1], ':').None?
    ensures Feed(v, buff) == Err(NoColon(buff[..idx + 1]))
  {
  }

  /** One step of `Feed`: a first line with a colon at `i`. */
  lemma FeedLine(v: DriveView, buff: string, idx: nat, i: nat)
    requires IndexOf(buff, '\n') == Some(idx) && idx < |buff|
    requires IndexOf(buff[..idx + 1], ':') == Some(i) && i <= idx + 1
    ensures var line := buff[..idx + 1];
            Feed(v, buff) == match ParseLine(v, line[..i], line[i..])
                             case Err(e) => Err(e)
                             case Ok(w) => Feed(w, buff[idx + 1..])
  {
    var line := buff[..idx + 1];
    var r := ParseLine(v, line[..i], line[i..]);
    if r.Ok? {
      assert Feed(v, buff) == Feed(r.value, buff[idx + 1..]);
    } else {
      assert Feed(v, buff) == Err(r.error);
    }
  }

  /** One step of `Feed`: a first line that parses to `w`. */
  lemma FeedLineOk(v: DriveView, buff: string, idx: nat, i: nat, w: DriveView)
    requires IndexOf(buff, '\n') == Some(idx) && idx < |buff|
    requires IndexOf(buff[..idx + 1], ':') == Some(i) && i <= idx + 1
    requires ParseLine(v, buff[..idx + 1][..i], buff[..idx + 1][i..]) == Ok(w)
    ensures Feed(v, buff) == Feed(w, buff[idx + 1..])
  {
    FeedLine(v, buff, idx, i);
  }

  /** One step of `Feed`: a first line whose parse fails with `e`. */
  lemma FeedLineErr(v: DriveView, buff: string, idx: nat, i: nat, e: ParseError)
    requires IndexOf(buff, '\n') == Some(idx) && idx < |buff|
    requires IndexOf(buff[..idx + 1], ':') == Some(i) && i <= idx + 1
    requires ParseLine(v, buff[..idx + 1][..i], buff[..idx + 1][i..]) == Err(e)
    ensures Feed(v, buff) == Err(e)
  {
    FeedLine(v, buff, idx, i);
  }

  /** Two updates read as one: what the first leaves unparsed is completed by
      what the second reads. */
  lemma UpdateTwice(v: DriveView, buff: string, a: string, b: string)
    ensures Feed(v, buff + a + b) == Then(Feed(v, buff + a), b)
  {
    FeedAppend(v, buff + a, b);
  }
}
