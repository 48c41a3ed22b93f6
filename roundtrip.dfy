/** The two programs together: every line the runner writes (drivewipe/wipe_device.rb)
    is read by the supervisor (drivewipe/wipe.rb) as the runner meant it, so the
    supervisor's view of a drive follows the runner's report of it. */
module RoundTrip {
  import opened Text
  import opened Patterns
  import opened Protocol
  import opened Session
  import WipeTests
  import Runner

  /** A value that can stand between the quotes of a record: no quote, no newline. */
  predicate Quotable(s: string)
  {
    forall k | 0 <= k < |s| :: s[k] != '\'' && s[k] != '\n'
  }

  /** The number of blanks `"%5.2f"` pads a number with. */
  function Padding(s: string): (n: nat)
    ensures n <= |s| && (forall k | 0 <= k < n :: s[k] == ' ') && (n < |s| ==> s[n] != ' ')
  {
    if s != [] && s[0] == ' ' then 1 + Padding(s[1..]) else 0
  }

  /** A percentage as `"%5.2f"` prints it: blanks, then at least one digit or point. */
  predicate PercentText(s: string)
  {
    Padding(s) < |s| && forall k | Padding(s) <= k < |s| :: IsDigit(s[k]) || s[k] == '.'
  }

  /** The number the supervisor reads from a printed percentage. */
  function PercentRead(s: string): real
    requires PercentText(s)
  {
    ToF(s[Padding(s)..])
  }

  /** Plan codes the supervisor splits back apart: none holds a comma or a
      newline, and the first does not begin with a blank (the colon's blanks
      would swallow it). */
  predicate Splittable(codes: seq<string>)
  {
    && (forall i | 0 <= i < |codes| :: forall k | 0 <= k < |codes[i]| :: codes[i][k] != ',' && codes[i][k] != '\n')
    && (codes != [] ==> codes[0] != [] && !In(Space, codes[0][0]))
  }

  /** The lines whose fields the supervisor's patterns carry whole. */
  predicate Carried(f: Formats, l: Line)
  {
    match l
    case DeviceLine(m, s, _) => Quotable(OptText(m)) && Quotable(OptText(s))
    case TestLine(n, c, k) => Quotable(n) && Quotable(c) && Quotable(k)
    case ProgressLine(p) => PercentText(f.percent(p))
    case ResultLine(_, _, t0, t1) =>
      && Quotable(OptTime(f, t0)) && Quotable(OptTime(f, t1)) && OptTime(f, t0) != [] && OptTime(f, t1) != []
    case PlanLine(codes) => Splittable(codes)
    case CompleteLine(_, _, reason) => Quotable(reason)
  }

  /** The view with the current test replaced. */
  function WithCurrent(v: DriveView, t: TestRecord): DriveView
    requires HasCurrent(v)
  {
    v.(tests := v.tests[v.current.value := t])
  }

  /** What a line of the runner means for the supervisor's view of the drive,
      stated on the line's own fields. A Result or Progress line before any Test
      line is the error the supervisor raises. */
  function Shown(f: Formats, v: DriveView, l: Line): Result<DriveView, ParseError>
    requires Carried(f, l)
  {
    match l
    case DeviceLine(m, s, z) => Ok(v.(model := OptText(m), serial := OptText(s), size := IntText(z)))
    case TestLine(n, c, k) =>
      Ok(v.(started := true, current := Some(|v.tests|),
            tests := v.tests + [TestRecord(n, c, k, 0.0, None, None, None, None)]))
    case ProgressLine(p) =>
      if !HasCurrent(v) then Err(NoCurrentTest)
      else Ok(Progressed(v, PercentRead(f.percent(p))))
    case ResultLine(ok, st, t0, t1) =>
      if !HasCurrent(v) then Err(NoCurrentTest)
      else Ok(WithCurrent(v, v.tests[v.current.value].(passed := Some(ok), status := Some(NatToString(st as int)),
                                                      startTime := Some(OptTime(f, t0)), finishTime := Some(OptTime(f, t1)))))
    case PlanLine(codes) => Ok(v.(plan := Marked(codes)))
    case CompleteLine(d, _, reason) =>
      Ok(v.(done := true, disposition := Some(DispositionText(d)), reason := Some(reason)))
  }

  // ---------------------------------------------------------------------------
  // One line

  /** What `Feed` gives for a single line that means `r`. */
  function Fed(r: Result<DriveView, ParseError>): Result<(DriveView, string), ParseError>
  {
    match r
    case Ok(w) => Ok((w, ""))
    case Err(e) => Err(e)
  }

  /** A buffer whose only newline ends it is parsed as one line, split at its first colon. */
  lemma FeedLast(v: DriveView, s: string, i: nat)
    requires IndexOf(s, '\n') == Some(|s| - 1) && IndexOf(s, ':') == Some(i) && i < |s|
    ensures Feed(v, s) == Fed(ParseLine(v, s[..i], s[i..]))
  {
    assert s[..|s|] == s;
    FeedLine(v, s, |s| - 1, i);
    assert s[|s|..] == "";
  }

  /** A record `kind` + `rest` (the rest from the colon on) alone in the buffer,
      newline included, is parsed once and leaves nothing behind. */
  lemma FeedSingle(v: DriveView, kind: string, rest: string)
    requires ':' !in kind && '\n' !in kind && '\n' !in rest && rest != [] && rest[0] == ':'
    ensures Feed(v, kind + rest + "\n") == Fed(ParseLine(v, kind, rest + "\n"))
  {
    var s := kind + rest + "\n";
    assert s[..|s| - 1] == kind + rest;
    IndexOfFirst(s, '\n', |s| - 1);
    assert s[..|kind|] == kind && s[|kind|..] == rest + "\n";
    IndexOfFirst(s, ':', |kind|);
    FeedLast(v, s, |kind|);
  }

  // ---------------------------------------------------------------------------
  // Each record

  /** A literal followed by a quoted field: the field is read up to its closing quote. */
  lemma FieldStep(s: string, i: nat, toks: seq<Tok>, lit: string, v: string, tail: string)
    requires |toks| >= 2 && toks[0] == Lit(lit) && toks[1].Run? && toks[1].cls == NotQuote && toks[1].capture
    requires i <= |s| && s[i..] == lit + (v + tail)
    requires (forall k | 0 <= k < |v| :: v[k] != '\'') && (toks[1].atLeastOne ==> v != [])
    requires tail != [] && tail[0] == '\''
    ensures MatchAt(s, i, toks) == Prefixed([v], MatchAt(s, i + |lit| + |v|, toks[2..]))
  {
    assert toks[1..][1..] == toks[2..];
    LitAt(s, i, toks, lit, v + tail);
    RunAt(s, i + |lit|, toks[1..], toks[2..], v, tail);
  }

  /** A literal followed by a run of digits, as a group. */
  lemma DigitFieldStep(s: string, i: nat, toks: seq<Tok>, lit: string, v: string, tail: string)
    requires |toks| >= 2 && toks[0] == Lit(lit) && toks[1] == Run(Digit, true, true)
    requires i <= |s| && s[i..] == lit + (v + tail)
    requires v != [] && AllDigits(v) && tail != [] && !IsDigit(tail[0])
    ensures MatchAt(s, i, toks) == Prefixed([v], MatchAt(s, i + |lit| + |v|, toks[2..]))
  {
    assert toks[1..][1..] == toks[2..];
    LitAt(s, i, toks, lit, v + tail);
    RunAt(s, i + |lit|, toks[1..], toks[2..], v, tail);
  }

  /** The closing literal of a pattern. */
  lemma LastLit(s: string, i: nat, toks: seq<Tok>, lit: string, tail: string)
    requires toks == [Lit(lit)] && i <= |s| && s[i..] == lit + tail
    ensures MatchAt(s, i, toks) == Some(Match([], i + |lit|))
  {
    assert s[i..][..|lit|] == lit;
    assert OccursAt(s, lit, i);
    LitStep(s, i, toks);
  }

  /** Two quoted fields after a literal, then a closing literal. */
  lemma Quoted2(s: string, i: nat, toks: seq<Tok>, one: bool, l0: string, l1: string, l2: string,
                a: string, b: string, tail: string)
    requires toks == [Lit(l0), Run(NotQuote, one, true), Lit(l1), Run(NotQuote, one, true), Lit(l2)]
    requires one ==> a != [] && b != []
    requires i <= |s| && s[i..] == l0 + (a + (l1 + (b + (l2 + tail))))
    requires l1 != [] && l1[0] == '\'' && l2 != [] && l2[0] == '\''
    requires (forall k | 0 <= k < |a| :: a[k] != '\'') && (forall k | 0 <= k < |b| :: b[k] != '\'')
    ensures MatchAt(s, i, toks) == Some(Match([a, b], i + |l0| + |a| + |l1| + |b| + |l2|))
  {
    var j := i + |l0| + |a|;
    assert s[j..] == l1 + (b + (l2 + tail)) by {
      assert s[i..][|l0| + |a|..] == l1 + (b + (l2 + tail));
    }
    Quoted1(s, j, toks[2..], one, l1, l2, b, tail);
    FieldStep(s, i, toks, l0, a, l1 + (b + (l2 + tail)));
    assert [a] + [b] == [a, b];
  }

  /** One quoted field after a literal, then a closing literal. */
  lemma Quoted1(s: string, i: nat, toks: seq<Tok>, one: bool, l0: string, l1: string, a: string, tail: string)
    requires toks == [Lit(l0), Run(NotQuote, one, true), Lit(l1)]
    requires one ==> a != []
    requires i <= |s| && s[i..] == l0 + (a + (l1 + tail))
    requires l1 != [] && l1[0] == '\''
    requires forall k | 0 <= k < |a| :: a[k] != '\''
    ensures MatchAt(s, i, toks) == Some(Match([a], i + |l0| + |a| + |l1|))
  {
    var j := i + |l0| + |a|;
    assert s[j..] == l1 + tail by {
      assert s[i..][|l0| + |a|..] == l1 + tail;
    }
    LastLit(s, j, toks[2..], l1, tail);
    FieldStep(s, i, toks, l0, a, l1 + tail);
    assert [a] + [] == [a];
  }

  /** Three quoted fields after a literal, then a closing literal. */
  lemma Quoted3(s: string, i: nat, toks: seq<Tok>, l0: string, l1: string, l2: string, l3: string,
                a: string, b: string, c: string, tail: string)
    requires toks == [Lit(l0), FIELD, Lit(l1), FIELD, Lit(l2), FIELD, Lit(l3)]
    requires i <= |s| && s[i..] == l0 + (a + (l1 + (b + (l2 + (c + (l3 + tail))))))
    requires l1 != [] && l1[0] == '\'' && l2 != [] && l2[0] == '\'' && l3 != [] && l3[0] == '\''
    requires (forall k | 0 <= k < |a| :: a[k] != '\'') && (forall k | 0 <= k < |b| :: b[k] != '\'')
    requires forall k | 0 <= k < |c| :: c[k] != '\''
    ensures MatchAt(s, i, toks) == Some(Match([a, b, c], i + |l0| + |a| + |l1| + |b| + |l2| + |c| + |l3|))
  {
    var j := i + |l0| + |a|;
    assert s[j..] == l1 + (b + (l2 + (c + (l3 + tail)))) by {
      assert s[i..][|l0| + |a|..] == l1 + (b + (l2 + (c + (l3 + tail))));
    }
    Quoted2(s, j, toks[2..], false, l1, l2, l3, b, c, tail);
    FieldStep(s, i, toks, l0, a, l1 + (b + (l2 + (c + (l3 + tail)))));
    assert [a] + [b, c] == [a, b, c];
  }

  /** The three quoted fields of a Test record are the test's name, code and count. */
  lemma TestRead(v: DriveView, n: string, c: string, k: string)
    requires Quotable(n) && Quotable(c) && Quotable(k)
    ensures ParseTest(v, ": n'" + n + "' s'" + c + "' c'" + k + "'" + "\n")
            == v.(started := true, current := Some(|v.tests|),
                  tests := v.tests + [TestRecord(n, c, k, 0.0, None, None, None, None)])
  {
    var value := ": n'" + (n + ("' s'" + (c + ("' c'" + (k + ("'" + "\n"))))));
    assert value == ": n'" + n + "' s'" + c + "' c'" + k + "'" + "\n";
    assert value[0..] == value;
    Quoted3(value, 0, TEST_FIELDS, ": n'", "' s'", "' c'", "'", n, c, k, "\n");
  }

  /** `Integer#to_s` has no quote and no newline. */
  lemma IntTextQuotable(z: int)
    ensures Quotable(IntText(z))
  {
    var d := NatToString(if z >= 0 then z else -z);
    assert forall k | 0 <= k < |d| :: IsDigit(d[k]);
  }

  /** A Device record's model, serial and size are found two characters in,
      after the colon and its blank. */
  lemma DeviceRead(v: DriveView, m: string, sr: string, z: string)
    requires Quotable(m) && Quotable(sr) && Quotable(z)
    ensures ParseDevice(v, ": m'" + m + "' s'" + sr + "' z'" + z + "'" + "\n")
            == v.(model := m, serial := sr, size := z)
  {
    var value := ": " + ("m'" + (m + ("' s'" + (sr + ("' z'" + (z + ("'" + "\n")))))));
    assert value == ": m'" + m + "' s'" + sr + "' z'" + z + "'" + "\n";
    assert value[2..] == "m'" + (m + ("' s'" + (sr + ("' z'" + (z + ("'" + "\n"))))));
    Quoted3(value, 2, DEVICE_FIELDS, "m'", "' s'", "' z'", "'", m, sr, z, "\n");
    assert !OccursAt(value, "m'", 0) && !OccursAt(value, "m'", 1);
    assert MatchAt(value, 0, DEVICE_FIELDS) == None;
    assert MatchAt(value, 1, DEVICE_FIELDS) == None;
    assert Search(value, DEVICE_FIELDS, false, 2) == MatchAt(value, 2, DEVICE_FIELDS);
    assert Search(value, DEVICE_FIELDS, false, 0) == MatchAt(value, 2, DEVICE_FIELDS);
  }

  /** A Complete record gives the disposition and the reason, and the drive is done. */
  lemma CompleteRead(v: DriveView, d: string, reason: string, c: string, t: string)
    requires Quotable(d) && Quotable(reason)
    ensures ParseComplete(v, ": d'" + d + "' r'" + reason + "'" + " c'" + c + "' t'" + t + "'" + "\n")
            == v.(done := true, disposition := Some(d), reason := Some(reason))
  {
    var tail := " c'" + c + "' t'" + t + "'" + "\n";
    var value := ": d'" + (d + ("' r'" + (reason + ("'" + tail))));
    assert value == ": d'" + d + "' r'" + reason + "'" + " c'" + c + "' t'" + t + "'" + "\n";
    assert value[0..] == value;
    Quoted2(value, 0, COMPLETE_FIELDS, false, ": d'", "' r'", "'", d, reason, tail);
  }

  /** A Progress record: the colon's blanks and the padding are skipped, and the
      digits read as the current test's progress. */
  lemma ProgressRead(v: DriveView, pct: string)
    requires PercentText(pct)
    ensures ParseProgress(v, ": " + pct + "%" + "\n")
            == if !HasCurrent(v) then Err(NoCurrentTest)
               else Ok(WithCurrent(v, v.tests[v.current.value].(progress := PercentRead(pct))))
  {
    var value := ": " + pct + "%" + "\n";
    PercentMatch(value, PROGRESS_FIELDS, pct);
    ProgressFound(v, value, pct[Padding(pct)..], |value| - 1);
  }

  lemma ProgressValue(a: string, b: string)
    ensures ": " + (a + b) + "%" + "\n" == ":" + ((" " + a) + (b + ("%" + "\n")))
  {
    assert ": " == ":" + " ";
  }

  /** A Progress record whose pattern matches from its start, capturing `u`. */
  lemma ProgressFound(v: DriveView, value: string, u: string, e: nat)
    requires MatchAt(value, 0, PROGRESS_FIELDS) == Some(Match([u], e))
    ensures ParseProgress(v, value)
            == if !HasCurrent(v) then Err(NoCurrentTest)
               else Ok(WithCurrent(v, v.tests[v.current.value].(progress := ToF(u))))
  {
    assert LineStart(value, 0);
    assert Search(value, PROGRESS_FIELDS, true, 0) == Some(Match([u], e));
  }

  /** The match of a Progress record carrying the printed percentage `pct`. */
  lemma PercentMatch(value: string, T: seq<Tok>, pct: string)
    requires T == [Lit(":"), Run(Space, true, false), Run(DigitOrDot, true, true), Lit("%")]
    requires PercentText(pct)
    requires value == ": " + pct + "%" + "\n"
    ensures MatchAt(value, 0, T) == Some(Match([pct[Padding(pct)..]], |value| - 1))
  {
    var n := Padding(pct);
    assert value == ":" + ((" " + pct[..n]) + (pct[n..] + ("%" + "\n"))) by {
      assert pct == pct[..n] + pct[n..];
      ProgressValue(pct[..n], pct[n..]);
    }
    ProgressMatch(value, T, pct[..n], pct[n..]);
  }

  /** The match of a Progress record, padding `pad` and digits `u`. */
  lemma ProgressMatch(value: string, T: seq<Tok>, pad: string, u: string)
    requires T == [Lit(":"), Run(Space, true, false), Run(DigitOrDot, true, true), Lit("%")]
    requires value == ":" + ((" " + pad) + (u + ("%" + "\n")))
    requires forall k | 0 <= k < |pad| :: pad[k] == ' '
    requires u != [] && forall k | 0 <= k < |u| :: IsDigit(u[k]) || u[k] == '.'
    ensures MatchAt(value, 0, T) == Some(Match([u], |value| - 1))
  {
    assert T[1..][1..] == T[2..];
    assert value[0..] == value;
    LitAt(value, 0, T, ":", (" " + pad) + (u + ("%" + "\n")));
    BlankStep(value, 1, T[1..], pad, u + ("%" + "\n"));
    SplitAt(value, 1, " " + pad, u + ("%" + "\n"));
    DigitsStep(value, 2 + |pad|, T[2..], u);
  }

  /** `\s+` over a blank and the padding after it, up to a character that is not blank. */
  lemma BlankStep(s: string, i: nat, toks: seq<Tok>, pad: string, after: string)
    requires toks != [] && toks[0] == Run(Space, true, false)
    requires i <= |s| && s[i..] == (" " + pad) + after
    requires forall k | 0 <= k < |pad| :: In(Space, pad[k])
    requires after == [] || !In(Space, after[0])
    ensures MatchAt(s, i, toks) == MatchAt(s, i + 1 + |pad|, toks[1..])
  {
    var w := " " + pad;
    SplitAt(s, i, w, after);
    assert FitsTok(toks[0], w, after) by {
      assert forall k | 0 < k < |w| :: w[k] == pad[k - 1];
    }
    RunStep(s, i, toks, w, after);
    PrefixedNone(MatchAt(s, i + |w|, toks[1..]));
  }

  lemma DigitsStep(value: string, j: nat, T: seq<Tok>, u: string)
    requires T == [Run(DigitOrDot, true, true), Lit("%")]
    requires j <= |value| && value[j..] == u + ("%" + "\n")
    requires u != [] && forall k | 0 <= k < |u| :: IsDigit(u[k]) || u[k] == '.'
    ensures MatchAt(value, j, T) == Some(Match([u], j + |u| + 1))
  {
    assert value[j..][..|u|] == u;
    RunStep(value, j, T, u, "%" + "\n");
    assert value[j + |u|..] == "%" + "\n" by {
      assert value[j..][|u|..] == "%" + "\n";
    }
    LastLit(value, j + |u|, T[1..], "%", "\n");
    assert [u] + [] == [u];
  }

  /** A Result record with both times: the verdict, the exit status and the two
      times of the current test. */
  lemma ResultRead(v: DriveView, p: bool, st: nat, a: string, b: string)
    requires Quotable(a) && Quotable(b) && a != [] && b != []
    ensures ParseResult(v, ": p'" + BoolText(p) + "' s'" + NatToString(st) + "'" + " start'" + a + "' finish'" + b + "'" + "\n")
            == if !HasCurrent(v) then Err(NoCurrentTest)
               else Ok(WithCurrent(v, v.tests[v.current.value].(passed := Some(p), status := Some(NatToString(st)),
                                                               startTime := Some(a), finishTime := Some(b))))
  {
    ResultSearch(p, st, a, b);
    assert (BoolText(p) == "true") == p;
  }

  lemma ResultSearch(p: bool, st: nat, a: string, b: string)
    requires Quotable(a) && Quotable(b) && a != [] && b != []
    ensures var m := Search(": p'" + BoolText(p) + "' s'" + NatToString(st) + "'" + " start'" + a + "' finish'" + b + "'" + "\n",
                            RESULT_FIELDS, true, 0);
            m.Some? && m.value.groups == [BoolText(p), NatToString(st), a, b]
  {
    var x := ": p'" + BoolText(p) + "' s'" + NatToString(st);
    var tail := "' start'" + (a + ("' finish'" + (b + ("'" + "\n"))));
    ResultValue(x, a, b);
    var value := x + tail;
    Reassoc(": p'", BoolText(p), "' s'", NatToString(st), tail);
    ResultMatch(value, RESULT_FIELDS, ": p'", "' s'", "' start'", "' finish'", "'",
                BoolText(p), NatToString(st), a, b, tail);
  }

  lemma Reassoc(a: string, b: string, c: string, d: string, e: string)
    ensures a + b + c + d + e == a + (b + (c + (d + e)))
  {
  }

  /** The runner writes the closing quote of the status and the start field's
      opening separately. */
  lemma ResultValue(x: string, a: string, b: string)
    ensures x + "'" + " start'" + a + "' finish'" + b + "'" + "\n"
            == x + ("' start'" + (a + ("' finish'" + (b + ("'" + "\n")))))
  {
    assert "'" + " start'" == "' start'";
  }

  /** The match of a Result record. */
  lemma ResultMatch(value: string, T: seq<Tok>, l0: string, ls: string, l1: string, l2: string, l3: string,
                    verdict: string, status: string, a: string, b: string, tail: string)
    requires T == [Lit(l0), Either("true", "false"), Lit(ls), Run(Digit, true, true),
                   Lit(l1), Run(NotQuote, true, true), Lit(l2), Run(NotQuote, true, true), Lit(l3)]
    requires ls != [] && l1 != [] && l1[0] == '\'' && l2 != [] && l2[0] == '\'' && l3 != [] && l3[0] == '\''
    requires verdict == "true" || verdict == "false"
    requires status != [] && AllDigits(status)
    requires Quotable(a) && Quotable(b) && a != [] && b != []
    requires tail == l1 + (a + (l2 + (b + (l3 + "\n"))))
    requires value == l0 + (verdict + (ls + (status + tail)))
    ensures MatchAt(value, 0, T) == Some(Match([verdict, status, a, b], |value| - 1))
  {
    assert T[1..][1..] == T[2..];
    assert value[0..] == value;
    LitAt(value, 0, T, l0, verdict + (ls + (status + tail)));
    EitherAt(value, |l0|, T[1..], T[2..], verdict, ls + (status + tail));
    StatusStep(value, |l0| + |verdict|, T[2..], ls, l1, l2, l3, status, a, b, tail);
    Combine(MatchAt(value, |l0| + |verdict|, T[2..]), [verdict], [status, a, b], |value| - 1);
    assert [verdict] + [status, a, b] == [verdict, status, a, b];
  }

  /** The Result pattern from the status on. */
  lemma StatusStep(value: string, i: nat, T: seq<Tok>, ls: string, l1: string, l2: string, l3: string,
                   status: string, a: string, b: string, tail: string)
    requires T == [Lit(ls), Run(Digit, true, true), Lit(l1), Run(NotQuote, true, true), Lit(l2),
                   Run(NotQuote, true, true), Lit(l3)]
    requires l1 != [] && l1[0] == '\'' && l2 != [] && l2[0] == '\'' && l3 != [] && l3[0] == '\''
    requires status != [] && AllDigits(status)
    requires Quotable(a) && Quotable(b) && a != [] && b != []
    requires tail == l1 + (a + (l2 + (b + (l3 + "\n"))))
    requires i <= |value| && value[i..] == ls + (status + tail)
    ensures MatchAt(value, i, T) == Some(Match([status, a, b], |value| - 1))
  {
    var j := i + |ls| + |status|;
    assert |tail| == |l1| + |a| + |l2| + |b| + |l3| + 1;
    assert |value| == j + |tail| by { assert |value[i..]| == |ls| + |status| + |tail|; }
    assert value[j..] == tail by { assert value[i..][|ls| + |status|..] == tail; }
    Quoted2(value, j, T[2..], true, l1, l2, l3, a, b, "\n");
    DigitFieldStep(value, i, T, ls, status, tail);
    assert [status] + [a, b] == [status, a, b];
  }

  /** The plan the supervisor keeps: the codes, the last with the line's newline. */
  function Marked(codes: seq<string>): (r: seq<string>)
    ensures |r| == |codes|
  {
    if codes == [] then [] else codes[..|codes| - 1] + [codes[|codes| - 1] + "\n"]
  }

  /** A Plan record: the codes come back, the last keeping the newline. */
  lemma PlanRead(v: DriveView, codes: seq<string>)
    requires Splittable(codes)
    ensures ParsePlan(v, ": " + Join(codes, ", ") + "\n") == v.(plan := Marked(codes))
  {
    StripPlanLead(codes);
    if codes == [] {
      assert FindFrom("", ", ", 0).None?;
      assert SplitAll("", ", ") == [""];
      assert DropTrailingEmpty([""]) == DropTrailingEmpty([]);
    } else {
      PlanSplit(codes);
    }
  }

  /** `split(', ')` gives the marked codes back. */
  lemma PlanSplit(codes: seq<string>)
    requires Splittable(codes) && codes != []
    ensures Split(Join(codes, ", ") + "\n", ", ") == Marked(codes)
  {
    var xs := Marked(codes);
    JoinMarked(codes, ", ");
    forall i | 0 <= i < |xs| ensures !Contains(xs[i], ", ") {
      assert forall k | 0 <= k < |xs[i]| :: xs[i][k] != ',' by {
        if i < |codes| - 1 {
          assert xs[i] == codes[i];
        } else {
          assert xs[i] == codes[i] + "\n";
        }
      }
      NoComma(xs[i]);
    }
    SeparatorBorderless();
    SplitJoin(xs, ", ");
    assert xs[|xs| - 1] != "";
  }

  lemma SeparatorBorderless()
    ensures Borderless(", ")
  {
    forall m | 0 < m < 2 ensures ", "[m..] != ", "[..2 - m] {
      assert ", "[m..][0] != ", "[..2 - m][0];
    }
  }

  /** `slice!(/^:\s+/)` on a Plan record leaves the joined codes and the newline. */
  lemma StripPlanLead(codes: seq<string>)
    requires Splittable(codes)
    ensures StripLead(": " + Join(codes, ", ") + "\n") == if codes == [] then "" else Join(codes, ", ") + "\n"
  {
    var j := Join(codes, ", ");
    var value := ":" + (" " + (j + "\n"));
    assert value == ": " + Join(codes, ", ") + "\n";
    var e := PlanLeadEnd(value, PLAN_LEAD, codes, j);
    assert Locate(value, PLAN_LEAD, true, 0) == Some(0);
  }

  /** Where the match of `^:\s+` ends in a Plan record. */
  lemma PlanLeadEnd(value: string, T: seq<Tok>, codes: seq<string>, j: string) returns (e: nat)
    requires T == [Lit(":"), Run(Space, true, false)]
    requires Splittable(codes) && j == Join(codes, ", ") && value == ":" + (" " + (j + "\n"))
    ensures MatchAt(value, 0, T) == Some(Match([], e)) && e <= |value|
    ensures value[e..] == if codes == [] then "" else j + "\n"
  {
    assert value[..1] == ":";
    LitStep(value, 0, T);
    if codes == [] {
      assert value[1..] == (" " + "\n") + "";
      BlankStep(value, 1, T[1..], "\n", "");
      e := 3;
    } else {
      JoinHead(codes, ", ");
      assert value[1..] == (" " + "") + (j + "\n");
      BlankStep(value, 1, T[1..], "", j + "\n");
      e := 2;
    }
  }

  /** A joined list begins with its first code. */
  lemma JoinHead(codes: seq<string>, sep: string)
    requires codes != [] && codes[0] != []
    ensures Join(codes, sep) != [] && Join(codes, sep)[0] == codes[0][0]
  {
  }

  /** Marking the last code marks the joined text. */
  lemma {:induction false} JoinMarked(codes: seq<string>, sep: string)
    requires codes != []
    ensures Join(Marked(codes), sep) == Join(codes, sep) + "\n"
    decreases |codes|
  {
    var xs := Marked(codes);
    if |codes| > 1 {
      JoinMarked(codes[1..], sep);
      assert xs[0] == codes[0];
      assert xs[1..] == Marked(codes[1..]);
    }
  }

  /** Text with no comma holds no ", ". */
  lemma NoComma(s: string)
    requires forall k | 0 <= k < |s| :: s[k] != ','
    ensures !Contains(s, ", ")
  {
    forall j | 0 <= j <= |s| ensures !OccursAt(s, ", ", j) {
      if j + 2 <= |s| {
        assert s[j..j + 2][0] == s[j];
      }
    }
  }

  // ---------------------------------------------------------------------------
  // Each line, whole

  /** Every line the runner writes, alone in the supervisor's buffer, is read
      as the runner meant it and leaves nothing behind. */
  lemma LineRead(f: Formats, v: DriveView, l: Line)
    requires Carried(f, l)
    ensures Feed(v, Render(f, l)) == Fed(Shown(f, v, l))
  {
    FieldsOneLine(f, l);
    KindPlain(l);
    RenderOneLine(f, l);
    FeedSingle(v, Kind(l), Fields(f, l));
    FieldsRead(f, v, l);
  }

  lemma KindPlain(l: Line)
    ensures ':' !in Kind(l) && '\n' !in Kind(l)
  {
  }

  /** A line whose text holds no newline is written with exactly one. */
  lemma RenderOneLine(f: Formats, l: Line)
    requires Fields(f, l) != [] && '\n' !in Fields(f, l)
    ensures Render(f, l) == Kind(l) + Fields(f, l) + "\n"
  {
    var b := Body(f, l);
    assert b[|b| - 1] == Fields(f, l)[|Fields(f, l)| - 1];
  }

  /** The fields of a line start with the colon and hold no newline. */
  lemma FieldsOneLine(f: Formats, l: Line)
    requires Carried(f, l)
    ensures Fields(f, l) != [] && Fields(f, l)[0] == ':' && '\n' !in Fields(f, l)
  {
    match l
    case DeviceLine(m, sr, z) =>
      IntTextQuotable(z);
      NoNewline7(": m'", OptText(m), "' s'", OptText(sr), "' z'", IntText(z), "'");
    case TestLine(n, c, k) =>
      NoNewline7(": n'", n, "' s'", c, "' c'", k, "'");
    case ProgressLine(p) =>
      assert '\n' !in f.percent(p);
    case ResultLine(p, st, t0, t1) => ResultOneLine(f, l);
    case PlanLine(codes) => JoinNoNewline(codes, ", ");
    case CompleteLine(d, dest, reason) => CompleteOneLine(f, l);
  }

  lemma ResultOneLine(f: Formats, l: Line)
    requires l.ResultLine? && Carried(f, l)
    ensures Fields(f, l) != [] && Fields(f, l)[0] == ':' && '\n' !in Fields(f, l)
  {
    var d := NatToString(l.status as int);
    var a := OptTime(f, l.start);
    var b := OptTime(f, l.finish);
    assert forall k | 0 <= k < |d| :: IsDigit(d[k]);
    var x := ": p'" + BoolText(l.passed) + "' s'" + d + "'" + " start'" + a;
    NoNewline7(": p'", BoolText(l.passed), "' s'", d, "'", " start'", a);
    NoNewline7(x, "' finish'", b, "'", "", "", "");
    assert Fields(f, l) == x + "' finish'" + b + "'" + "" + "" + "";
  }

  lemma CompleteOneLine(f: Formats, l: Line)
    requires l.CompleteLine? && Carried(f, l)
    ensures Fields(f, l) != [] && Fields(f, l)[0] == ':' && '\n' !in Fields(f, l)
  {
    CompleteTextsClean(l.disp, l.dest);
    CompleteFieldsClean(DispositionText(l.disp), l.reason, Colour(l.dest), Instruction(l.dest));
  }

  /** The fixed texts of a Complete record hold no newline. */
  lemma CompleteTextsClean(d: Disposition, dest: Destination)
    ensures '\n' !in DispositionText(d) && '\n' !in Colour(dest) && '\n' !in Instruction(dest)
  {
    InstructionClean(dest);
  }

  lemma InstructionClean(dest: Destination)
    ensures '\n' !in Instruction(dest)
  {
    var t := Instruction(dest);
    assert forall k | 0 <= k < |t| :: t[k] != '\n';
  }

  /** A Complete record's fields, from the colon on, with no newline in any field. */
  lemma CompleteFieldsClean(d: string, r: string, c: string, t: string)
    requires '\n' !in d && Quotable(r) && '\n' !in c && '\n' !in t
    ensures var x := ": d'" + d + "' r'" + r + "'" + " c'" + c + "' t'" + t + "'";
            x != [] && x[0] == ':' && '\n' !in x
  {
    var x := ": d'" + d + "' r'" + r + "'" + " c'" + c;
    NoNewline7(": d'", d, "' r'", r, "'", " c'", c);
    NoNewline7(x, "' t'", t, "'", "", "", "");
    assert x + "' t'" + t + "'" == x + "' t'" + t + "'" + "" + "" + "";
  }

  lemma NoNewline7(a: string, b: string, c: string, d: string, e: string, g: string, h: string)
    requires '\n' !in a && '\n' !in b && '\n' !in c && '\n' !in d && '\n' !in e && '\n' !in g && '\n' !in h
    ensures '\n' !in a + b + c + d + e + g + h
  {
  }

  /** Codes without a newline joined by ", " hold none. */
  lemma {:induction false} JoinNoNewline(codes: seq<string>, sep: string)
    requires forall i | 0 <= i < |codes| :: forall k | 0 <= k < |codes[i]| :: codes[i][k] != ',' && codes[i][k] != '\n'
    requires '\n' !in sep
    ensures '\n' !in Join(codes, sep)
    decreases |codes|
  {
    if |codes| > 1 {
      JoinNoNewline(codes[1..], sep);
      assert '\n' !in codes[0];
    } else if |codes| == 1 {
      assert '\n' !in codes[0];
    }
  }

  /** The record type picks the right reading, and the reading is what the line means. */
  lemma FieldsRead(f: Formats, v: DriveView, l: Line)
    requires Carried(f, l)
    ensures ParseLine(v, Kind(l), Fields(f, l) + "\n") == Shown(f, v, l)
  {
    match l
    case DeviceLine(m, sr, z) => DeviceLineRead(f, v, m, sr, z);
    case TestLine(n, c, k) => TestLineRead(f, v, n, c, k);
    case ProgressLine(p) => ProgressLineRead(f, v, p);
    case ResultLine(p, st, t0, t1) => ResultLineRead(f, v, p, st, t0, t1);
    case PlanLine(codes) => PlanLineRead(f, v, codes);
    case CompleteLine(d, dest, reason) => CompleteLineRead(f, v, d, dest, reason);
  }

  lemma DeviceLineRead(f: Formats, v: DriveView, m: Option<string>, sr: Option<string>, z: int)
    requires Carried(f, DeviceLine(m, sr, z))
    ensures var l := DeviceLine(m, sr, z);
            ParseLine(v, Kind(l), Fields(f, l) + "\n") == Shown(f, v, l)
  {
    IntTextQuotable(z);
    DeviceRead(v, OptText(m), OptText(sr), IntText(z));
  }

  lemma TestLineRead(f: Formats, v: DriveView, n: string, c: string, k: string)
    requires Carried(f, TestLine(n, c, k))
    ensures var l := TestLine(n, c, k);
            ParseLine(v, Kind(l), Fields(f, l) + "\n") == Shown(f, v, l)
  {
    TestRead(v, n, c, k);
  }

  lemma ProgressLineRead(f: Formats, v: DriveView, p: real)
    requires Carried(f, ProgressLine(p))
    ensures var l := ProgressLine(p);
            ParseLine(v, Kind(l), Fields(f, l) + "\n") == Shown(f, v, l)
  {
    ProgressRead(v, f.percent(p));
  }

  lemma ResultLineRead(f: Formats, v: DriveView, p: bool, st: Smart.ExitCode, t0: Option<real>, t1: Option<real>)
    requires Carried(f, ResultLine(p, st, t0, t1))
    ensures var l := ResultLine(p, st, t0, t1);
            ParseLine(v, Kind(l), Fields(f, l) + "\n") == Shown(f, v, l)
  {
    ResultRead(v, p, st as int, OptTime(f, t0), OptTime(f, t1));
  }

  lemma PlanLineRead(f: Formats, v: DriveView, codes: seq<string>)
    requires Carried(f, PlanLine(codes))
    ensures var l := PlanLine(codes);
            ParseLine(v, Kind(l), Fields(f, l) + "\n") == Shown(f, v, l)
  {
    PlanRead(v, codes);
  }

  lemma CompleteLineRead(f: Formats, v: DriveView, d: Disposition, dest: Destination, reason: string)
    requires Carried(f, CompleteLine(d, dest, reason))
    ensures var l := CompleteLine(d, dest, reason);
            ParseLine(v, Kind(l), Fields(f, l) + "\n") == Shown(f, v, l)
  {
    CompleteRead(v, DispositionText(d), reason, Colour(dest), Instruction(dest));
  }

  // ---------------------------------------------------------------------------
  // A whole transcript

  predicate AllCarried(f: Formats, ls: seq<Line>)
  {
    forall i | 0 <= i < |ls| :: Carried(f, ls[i])
  }

  /** What the runner writes for its lines, one chunk per line. */
  function Rendered(f: Formats, ls: seq<Line>): (r: seq<string>)
    ensures |r| == |ls| && forall i | 0 <= i < |ls| :: r[i] == Render(f, ls[i])
  {
    seq(|ls|, i requires 0 <= i < |ls| => Render(f, ls[i]))
  }

  /** The meaning of the lines, one after the other; the first error stops it. */
  function Replay(f: Formats, v: DriveView, ls: seq<Line>): Result<DriveView, ParseError>
    requires AllCarried(f, ls)
  {
    if ls == [] then Ok(v)
    else
      assert AllCarried(f, ls[..|ls| - 1]);
      match Replay(f, v, ls[..|ls| - 1])
      case Err(e) => Err(e)
      case Ok(w) => Shown(f, w, ls[|ls| - 1])
  }

  /** The supervisor, fed everything the runner wrote, ends where the lines'
      meanings, taken in order, lead, with nothing left unparsed; it does not
      matter how the text was cut into reads. */
  lemma {:induction false} TranscriptRead(f: Formats, v: DriveView, ls: seq<Line>)
    requires AllCarried(f, ls)
    ensures Feed(v, Concat(Rendered(f, ls))) == Fed(Replay(f, v, ls))
    decreases |ls|
  {
    if ls == [] {
      assert Rendered(f, ls) == [];
    } else {
      var n := |ls| - 1;
      assert AllCarried(f, ls[..n]);
      TranscriptRead(f, v, ls[..n]);
      RenderedSnoc(f, ls);
      var prev := Replay(f, v, ls[..n]);
      if prev.Ok? {
        LineRead(f, prev.value, ls[n]);
        FedThen(v, Concat(Rendered(f, ls[..n])), Render(f, ls[n]), prev, Shown(f, prev.value, ls[n]));
      } else {
        FedThen(v, Concat(Rendered(f, ls[..n])), Render(f, ls[n]), prev, prev);
      }
    }
  }

  /** Feeding the text of a line after text that meant `r` means the line's `s`. */
  lemma FedThen(v: DriveView, a: string, b: string, r: Result<DriveView, ParseError>, s: Result<DriveView, ParseError>)
    requires Feed(v, a) == Fed(r)
    requires r.Ok? ==> Feed(r.value, b) == Fed(s)
    ensures Feed(v, a + b) == Fed(if r.Ok? then s else r)
  {
    FeedAppend(v, a, b);
    if r.Ok? {
      assert "" + b == b;
    }
  }

  /** The text of the lines is the text of all but the last, then the last. */
  lemma RenderedSnoc(f: Formats, ls: seq<Line>)
    requires ls != []
    ensures Concat(Rendered(f, ls)) == Concat(Rendered(f, ls[..|ls| - 1])) + Render(f, ls[|ls| - 1])
  {
    var r := Rendered(f, ls);
    assert r[..|ls| - 1] == Rendered(f, ls[..|ls| - 1]);
  }

  /** Replaying two runs of lines is replaying the first, then the second from
      where the first left the view. */
  lemma {:induction false} ReplayAppend(f: Formats, v: DriveView, a: seq<Line>, b: seq<Line>)
    requires AllCarried(f, a) && AllCarried(f, b)
    ensures AllCarried(f, a + b)
    ensures Replay(f, v, a + b) == match Replay(f, v, a)
                                   case Err(e) => Err(e)
                                   case Ok(w) => Replay(f, w, b)
    decreases |b|
  {
    if b == [] {
      assert a + b == a;
    } else {
      var n := |b| - 1;
      assert (a + b)[..|a + b| - 1] == a + b[..n];
      assert AllCarried(f, b[..n]);
      ReplayAppend(f, v, a, b[..n]);
    }
  }

  // ---------------------------------------------------------------------------
  // One test, as `run` reports it

  /** `Time#to_s` gives a non-empty text without quote or newline. */
  ghost predicate TimesReadable(f: Formats)
  {
    forall x :: Quotable(f.time(x)) && f.time(x) != []
  }

  /** Formatters whose output the supervisor reads back: `"%5.2f"` of a number
      that is not negative gives blanks and digits, and the times are readable. */
  ghost predicate Readable(f: Formats)
  {
    && (forall x | x >= 0.0 :: PercentText(f.percent(x)))
    && TimesReadable(f)
  }

  /** Values `continue` can return: none is negative. */
  predicate NonNegative(values: seq<real>)
  {
    forall i | 0 <= i < |values| :: values[i] >= 0.0
  }

  /** The percentage `run` printed last: 0 before any poll. */
  function LastPercent(values: seq<real>): (r: real)
    ensures NonNegative(values) ==> r >= 0.0
  {
    if values == [] then 0.0 else values[|values| - 1] * 100.0
  }

  /** The lines `run` writes for one test, with the Result line when it ended. */
  function TestLines(kind: WipeTests.Kind, count: string, values: seq<real>,
                     result: Option<(bool, Smart.ExitCode, real, real)>): seq<Line>
  {
    [TestLine(WipeTests.Description(kind), WipeTests.Code(kind), count), ProgressLine(0.0)]
    + Runner.ProgressLines(values)
    + (if result.None? then []
       else [ResultLine(result.value.0, result.value.1, Some(result.value.2), Some(result.value.3))])
  }

  /** The record the supervisor holds for that test. */
  function Reported(f: Formats, kind: WipeTests.Kind, count: string, values: seq<real>,
                    result: Option<(bool, Smart.ExitCode, real, real)>): TestRecord
    requires Readable(f) && NonNegative(values)
  {
    var t := TestRecord(WipeTests.Description(kind), WipeTests.Code(kind), count,
                        PercentRead(f.percent(LastPercent(values))), None, None, None, None);
    if result.None? then t
    else t.(passed := Some(result.value.0), status := Some(NatToString(result.value.1 as int)),
            startTime := Some(f.time(result.value.2)), finishTime := Some(f.time(result.value.3)))
  }

  /** The view once a test has been announced and given the record `t`. */
  function Announced(v: DriveView, t: TestRecord): (r: DriveView)
    ensures HasCurrent(r)
  {
    v.(started := true, current := Some(|v.tests|), tests := v.tests + [t])
  }

  /** After the lines of one test the supervisor holds one more test, the current
      one, with the name, code and count `run` announced, the last percentage it
      printed and, when the test ended, its verdict, exit status and times;
      nothing it knew before is lost. */
  lemma TestReported(f: Formats, v: DriveView, kind: WipeTests.Kind, count: string, values: seq<real>,
                     result: Option<(bool, Smart.ExitCode, real, real)>)
    requires Readable(f) && NonNegative(values) && Quotable(count)
    ensures AllCarried(f, TestLines(kind, count, values, result))
    ensures Replay(f, v, TestLines(kind, count, values, result))
            == Ok(Announced(v, Reported(f, kind, count, values, result)))
  {
    var lines := [TestLine(WipeTests.Description(kind), WipeTests.Code(kind), count), ProgressLine(0.0)]
                 + Runner.ProgressLines(values);
    var t := Reported(f, kind, count, values, None);
    ProgressReported(f, v, kind, count, values);
    if result.None? {
      assert TestLines(kind, count, values, result) == lines;
    } else {
      var r := result.value;
      var l := ResultLine(r.0, r.1, Some(r.2), Some(r.3));
      assert TestLines(kind, count, values, result) == lines + [l];
      ResultAnnounced(f, v, t, r.0, r.1, r.2, r.3);
      ReplaySnoc(f, v, lines, l);
    }
  }

  /** A Result line read for an announced test fills in that test's verdict. */
  lemma ResultAnnounced(f: Formats, v: DriveView, t: TestRecord, ok: bool, st: Smart.ExitCode, t0: real, t1: real)
    requires TimesReadable(f)
    ensures Carried(f, ResultLine(ok, st, Some(t0), Some(t1)))
    ensures Shown(f, Announced(v, t), ResultLine(ok, st, Some(t0), Some(t1)))
            == Ok(Announced(v, t.(passed := Some(ok), status := Some(NatToString(st as int)),
                                  startTime := Some(f.time(t0)), finishTime := Some(f.time(t1)))))
  {
    assert Quotable(f.time(t0)) && f.time(t0) != [];
    assert Quotable(f.time(t1)) && f.time(t1) != [];
    var w := Announced(v, t);
    assert w.tests[w.current.value] == t;
    assert (v.tests + [t])[|v.tests| := t.(passed := Some(ok), status := Some(NatToString(st as int)),
                                            startTime := Some(f.time(t0)), finishTime := Some(f.time(t1)))]
           == v.tests + [t.(passed := Some(ok), status := Some(NatToString(st as int)),
                            startTime := Some(f.time(t0)), finishTime := Some(f.time(t1)))];
  }

  /** Before its Result line, a test shows the last percentage printed. */
  lemma ProgressReported(f: Formats, v: DriveView, kind: WipeTests.Kind, count: string, values: seq<real>)
    requires Readable(f) && NonNegative(values) && Quotable(count)
    ensures var lines := [TestLine(WipeTests.Description(kind), WipeTests.Code(kind), count), ProgressLine(0.0)]
                         + Runner.ProgressLines(values);
            && AllCarried(f, lines)
            && Replay(f, v, lines) == Ok(Announced(v, Reported(f, kind, count, values, None)))
  {
    NamesQuotable(kind);
    TestProgress(f, v, WipeTests.Description(kind), WipeTests.Code(kind), count, values);
  }

  /** A test's name and code can be quoted in a record. */
  lemma NamesQuotable(kind: WipeTests.Kind)
    ensures Quotable(WipeTests.Description(kind)) && Quotable(WipeTests.Code(kind))
  {
    DescriptionQuotable(kind);
    CodeQuotable(kind);
  }

  lemma DescriptionQuotable(kind: WipeTests.Kind)
    ensures Quotable(WipeTests.Description(kind))
  {
    var t := WipeTests.Description(kind);
    assert forall k | 0 <= k < |t| :: t[k] != '\'' && t[k] != '\n';
  }

  lemma CodeQuotable(kind: WipeTests.Kind)
    ensures Quotable(WipeTests.Code(kind))
  {
    match kind
    case BadBlocks =>
    case Format =>
    case Partition =>
    case SmartCheck =>
    case SelfTest =>
  }

  lemma TestProgress(f: Formats, v: DriveView, n: string, c: string, k: string, values: seq<real>)
    requires Readable(f) && NonNegative(values) && Quotable(n) && Quotable(c) && Quotable(k)
    ensures AllCarried(f, [TestLine(n, c, k), ProgressLine(0.0)] + Runner.ProgressLines(values))
    ensures Replay(f, v, [TestLine(n, c, k), ProgressLine(0.0)] + Runner.ProgressLines(values))
            == Ok(Announced(v, TestRecord(n, c, k, PercentRead(f.percent(LastPercent(values))), None, None, None, None)))
  {
    var head := [TestLine(n, c, k), ProgressLine(0.0)];
    var ps := Runner.ProgressLines(values);
    var t0 := TestRecord(n, c, k, PercentRead(f.percent(0.0)), None, None, None, None);
    HeadReplay(f, v, n, c, k);
    ProgressReplay(f, Announced(v, t0), values);
    ReplayAppend(f, v, head, ps);
    if values != [] {
      ProgressedAnnounced(v, t0, PercentRead(f.percent(LastPercent(values))));
    }
  }

  /** A Test line and the first Progress line: the new test at the first percentage. */
  lemma HeadReplay(f: Formats, v: DriveView, n: string, c: string, k: string)
    requires Readable(f) && Quotable(n) && Quotable(c) && Quotable(k)
    ensures AllCarried(f, [TestLine(n, c, k), ProgressLine(0.0)])
    ensures Replay(f, v, [TestLine(n, c, k), ProgressLine(0.0)])
            == Ok(Announced(v, TestRecord(n, c, k, PercentRead(f.percent(0.0)), None, None, None, None)))
  {
    var t := TestRecord(n, c, k, 0.0, None, None, None, None);
    var p0 := PercentRead(f.percent(0.0));
    assert PercentText(f.percent(0.0));
    ReplaySnoc(f, v, [], TestLine(n, c, k));
    assert [] + [TestLine(n, c, k)] == [TestLine(n, c, k)];
    assert Replay(f, v, [TestLine(n, c, k)]) == Ok(Announced(v, t));
    ReplaySnoc(f, v, [TestLine(n, c, k)], ProgressLine(0.0));
    assert [TestLine(n, c, k)] + [ProgressLine(0.0)] == [TestLine(n, c, k), ProgressLine(0.0)];
    ProgressedAnnounced(v, t, p0);
  }

  /** Moving the progress of the test just announced. */
  lemma ProgressedAnnounced(v: DriveView, t: TestRecord, p: real)
    ensures Progressed(Announced(v, t), p) == Announced(v, t.(progress := p))
  {
    assert (v.tests + [t])[|v.tests| := t.(progress := p)] == v.tests + [t.(progress := p)];
  }

  /** Progress lines only move the current test's progress, to the last one printed. */
  lemma {:induction false} ProgressReplay(f: Formats, w: DriveView, values: seq<real>)
    requires Readable(f) && NonNegative(values) && HasCurrent(w)
    ensures AllCarried(f, Runner.ProgressLines(values))
    ensures Replay(f, w, Runner.ProgressLines(values))
            == Ok(if values == [] then w else Progressed(w, PercentRead(f.percent(LastPercent(values)))))
    decreases |values|
  {
    var ps := Runner.ProgressLines(values);
    if values != [] {
      var n := |values| - 1;
      var x := values[n] * 100.0;
      assert ps[..n] == Runner.ProgressLines(values[..n]);
      ProgressReplay(f, w, values[..n]);
      var q := PercentRead(f.percent(x));
      if n == 0 {
        ProgressStep(f, w, ps, x, w);
      } else {
        var p := PercentRead(f.percent(LastPercent(values[..n])));
        ProgressStep(f, w, ps, x, Progressed(w, p));
        ProgressedTwice(w, p, q);
      }
    }
  }

  /** One more Progress line moves the current test's progress to its percentage. */
  lemma ProgressStep(f: Formats, w: DriveView, ls: seq<Line>, x: real, prev: DriveView)
    requires Readable(f) && x >= 0.0 && ls != [] && ls[|ls| - 1] == ProgressLine(x)
    requires AllCarried(f, ls[..|ls| - 1])
    requires Replay(f, w, ls[..|ls| - 1]) == Ok(prev) && HasCurrent(prev)
    ensures AllCarried(f, ls)
    ensures Replay(f, w, ls) == Ok(Progressed(prev, PercentRead(f.percent(x))))
  {
    assert PercentText(f.percent(x));
    assert forall i | 0 <= i < |ls| - 1 :: ls[i] == ls[..|ls| - 1][i];
  }

  /** The current test's progress set to `p`. */
  function Progressed(w: DriveView, p: real): (r: DriveView)
    requires HasCurrent(w)
    ensures HasCurrent(r) && r.current == w.current
  {
    WithCurrent(w, w.tests[w.current.value].(progress := p))
  }

  lemma ProgressedTwice(w: DriveView, p: real, q: real)
    requires HasCurrent(w)
    ensures Progressed(Progressed(w, p), q) == Progressed(w, q)
  {
  }

  /** Replaying one more line. */
  lemma ReplaySnoc(f: Formats, v: DriveView, ls: seq<Line>, x: Line)
    requires AllCarried(f, ls) && Carried(f, x)
    ensures AllCarried(f, ls + [x])
    ensures Replay(f, v, ls + [x]) == match Replay(f, v, ls)
                                     case Err(e) => Err(e)
                                     case Ok(w) => Shown(f, w, x)
  {
    assert (ls + [x])[..|ls|] == ls;
  }
}
