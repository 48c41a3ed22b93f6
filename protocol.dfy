/** The lines the runner (drivewipe/wipe_device.rb) writes to its standard output
    and the supervisor (drivewipe/wipe.rb) reads back: one record per line, the
    record type before the first colon. Ruby's `Float#%` formatting ("%5.2f")
    and `Time#to_s` are not modelled; they are given as functions. */
module Protocol {
  import opened Text
  import opened Smart

  datatype Disposition = Wiped | Unwiped
  datatype Destination = Destroy | Harvest | Keep

  /** `disp.to_s.capitalize` for the two symbols the runner uses. */
  function DispositionText(d: Disposition): string
  {
    match d
    case Wiped => "Wiped"
    case Unwiped => "Unwiped"
  }

  function Colour(d: Destination): string
  {
    match d
    case Destroy => "Red"
    case Harvest => "Yellow"
    case Keep => "Green"
  }

  function Instruction(d: Destination): string
  {
    match d
    case Destroy => "Mark with large X for destruction"
    case Harvest => "Mark with small H for controller harvest"
    case Keep => "Mark with green dot for reuse"
  }

  datatype Line =
    | DeviceLine(model: Option<string>, serial: Option<string>, size: int)
    | TestLine(name: string, code: string, count: string)
      /** The percentage printed, `progress * 100`. */
    | ProgressLine(percent: real)
    | ResultLine(passed: bool, status: ExitCode, start: Option<real>, finish: Option<real>)
    | PlanLine(codes: seq<string>)
    | CompleteLine(disp: Disposition, dest: Destination, reason: string)

  /** The two formatters: `"%5.2f" % x` and `Time#to_s`. */
  datatype Formats = Formats(percent: real -> string, time: real -> string)

  /** String interpolation of a value that may be nil: nil shows as nothing. */
  function OptText(v: Option<string>): string
  {
    if v.Some? then v.value else ""
  }

  function OptTime(f: Formats, v: Option<real>): string
  {
    if v.Some? then f.time(v.value) else ""
  }

  /** `Integer#to_s`. */
  function IntText(n: int): (r: string)
    ensures |r| > 0
  {
    if n >= 0 then NatToString(n) else "-" + NatToString(-n)
  }

  function BoolText(b: bool): string
  {
    if b then "true" else "false"
  }

  /** `puts`: a newline is added unless the text already ends with one. */
  function Puts(s: string): (r: string)
    ensures |s| > 0 && s[|s| - 1] != '\n' ==> r == s + "\n"
  {
    if |s| > 0 && s[|s| - 1] == '\n' then s else s + "\n"
  }

  /** The record type a line starts with, before its colon. */
  function Kind(l: Line): string
  {
    match l
    case DeviceLine(_, _, _) => "Device"
    case TestLine(_, _, _) => "Test"
    case ProgressLine(_) => "Progress"
    case ResultLine(_, _, _, _) => "Result"
    case PlanLine(_) => "Plan"
    case CompleteLine(_, _, _) => "Complete"
  }

  /** The rest of a line, from the colon on. */
  function Fields(f: Formats, l: Line): string
  {
    match l
    case DeviceLine(m, s, z) =>
      ": m'" + OptText(m) + "' s'" + OptText(s) + "' z'" + IntText(z) + "'"
    case TestLine(n, c, k) =>
      ": n'" + n + "' s'" + c + "' c'" + k + "'"
    case ProgressLine(p) =>
      ": " + f.percent(p) + "%"
    case ResultLine(p, s, t0, t1) =>
      ": p'" + BoolText(p) + "' s'" + NatToString(s as int) + "'"
      + " start'" + OptTime(f, t0) + "' finish'" + OptTime(f, t1) + "'"
    case PlanLine(codes) =>
      ": " + Join(codes, ", ")
    case CompleteLine(d, dest, reason) =>
      ": d'" + DispositionText(d) + "' r'" + reason + "'"
      + " c'" + Colour(dest) + "' t'" + Instruction(dest) + "'"
  }

  /** The text of a line before `puts` (or, for Progress, `print`) ends it. */
  function Body(f: Formats, l: Line): string
  {
    Kind(l) + Fields(f, l)
  }

  /** What the runner writes for a line. Progress lines are printed with their own
      "\n"; the others go through `puts`. */
  function Render(f: Formats, l: Line): (r: string)
    ensures |r| > 0 && r[|r| - 1] == '\n'
  {
    if l.ProgressLine? then Body(f, l) + "\n" else Puts(Body(f, l))
  }

  /** The last of a plan's codes is not empty and does not end with a newline. */
  predicate PlanEndsClean(codes: seq<string>)
  {
    |codes| == 0 || (var c := codes[|codes| - 1]; c != [] && c[|c| - 1] != '\n')
  }

  /** Every line the runner writes is its text followed by exactly one newline
      (a plan whose last code ended with a newline would not get a second one). */
  lemma RenderEndsOnce(f: Formats, l: Line)
    requires l.PlanLine? ==> PlanEndsClean(l.codes)
    ensures Render(f, l) == Body(f, l) + "\n"
  {
    match l
    case PlanLine(codes) =>
      if |codes| > 0 {
        JoinLast(codes, ", ");
        var c := codes[|codes| - 1];
        var t := Body(f, l);
        assert t[|t| - 1] == c[|c| - 1];
      }
    case ProgressLine(_) =>
    case DeviceLine(m, s, z) =>
      QuotedPuts(Kind(l), ": m'" + OptText(m) + "' s'" + OptText(s) + "' z'" + IntText(z));
    case TestLine(n, c, k) =>
      QuotedPuts(Kind(l), ": n'" + n + "' s'" + c + "' c'" + k);
    case ResultLine(p, s, t0, t1) =>
      QuotedPuts(Kind(l), ": p'" + BoolText(p) + "' s'" + NatToString(s as int) + "'"
                          + " start'" + OptTime(f, t0) + "' finish'" + OptTime(f, t1));
    case CompleteLine(d, dest, reason) =>
      QuotedPuts(Kind(l), ": d'" + DispositionText(d) + "' r'" + reason + "'"
                          + " c'" + Colour(dest) + "' t'" + Instruction(dest));
  }

  /** A text ending with a quote gets its newline from `puts`. */
  lemma QuotedPuts(k: string, x: string)
    ensures Puts(k + (x + "'")) == k + (x + "'") + "\n"
  {
    var t := k + (x + "'");
    assert t[|t| - 1] == '\'';
  }

  /** A join of fields ends with the last field. */
  lemma {:induction false} JoinLast(xs: seq<string>, sep: string)
    requires |xs| > 0
    ensures |Join(xs, sep)| >= |xs[|xs| - 1]|
    ensures Join(xs, sep)[|Join(xs, sep)| - |xs[|xs| - 1]|..] == xs[|xs| - 1]
    decreases |xs|
  {
    if |xs| > 1 {
      JoinLast(xs[1..], sep);
      var j := Join(xs[1..], sep);
      var l := xs[|xs| - 1];
      assert xs[1..][|xs[1..]| - 1] == l;
      assert Join(xs, sep) == xs[0] + sep + j;
      assert (xs[0] + sep + j)[|xs[0] + sep + j| - |l|..] == j[|j| - |l|..];
    }
  }
}
