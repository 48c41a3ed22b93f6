/** The handful of Ruby regular expressions the two programs match their lines
    against, written as sequences of tokens: literal text, a greedy run of one
    character class (`[^']*`, `[^']+`, `\d+`, `[\d\.]+`, `\s+`), and a two-way
    alternation (`(true|false)`, `[sh]`).

    Greedy runs are matched without backtracking. In every pattern of the two
    programs a run is followed by a character outside its class, so giving
    characters back could never let the rest match: the greedy match is the
    match Ruby finds. Alternation keeps Ruby's order: the second branch is tried
    when the first does not lead to a match. */
module Patterns {
  import opened Text

  datatype Class = NotQuote | Digit | DigitOrDot | Space

  /** Ruby 1.8's `\s` is `[ \t\r\n\f]`. */
  predicate In(c: Class, ch: char)
  {
    match c
    case NotQuote => ch != '\''
    case Digit => IsDigit(ch)
    case DigitOrDot => IsDigit(ch) || ch == '.'
    case Space => ch == ' ' || ch == '\t' || ch == '\r' || ch == '\n' || ch == '\U{000C}'
  }

  datatype Tok =
    | Lit(text: string)
      /** `cls*` or, when `atLeastOne`, `cls+`; a group when `capture`. */
    | Run(cls: Class, atLeastOne: bool, capture: bool)
      /** `(first|second)`, always a group. */
    | Either(first: string, second: string)

  /** The groups of a match, in order, and the position after it. */
  datatype Match = Match(groups: seq<string>, end: nat)

  /** The length of the run of `cls` characters starting at `i`. */
  function RunLen(s: string, i: nat, cls: Class): (n: nat)
    requires i <= |s|
    ensures i + n <= |s| && (forall k | i <= k < i + n :: In(cls, s[k]))
    ensures i + n < |s| ==> !In(cls, s[i + n])
    decreases |s| - i
  {
    if i == |s| || !In(cls, s[i]) then 0 else 1 + RunLen(s, i + 1, cls)
  }

  function Prefixed(g: seq<string>, r: Option<Match>): Option<Match>
  {
    match r
    case None => None
    case Some(m) => Some(Match(g + m.groups, m.end))
  }

  /** The number of groups a token captures. */
  function TokCount(t: Tok): nat
  {
    match t
    case Lit(_) => 0
    case Run(_, _, cap) => if cap then 1 else 0
    case Either(_, _) => 1
  }

  /** The number of groups a pattern captures: every match has that many. */
  function GroupCount(toks: seq<Tok>): nat
  {
    if toks == [] then 0 else TokCount(toks[0]) + GroupCount(toks[1..])
  }

  /** The match of `toks` starting exactly at `i`, if any. */
  function MatchAt(s: string, i: nat, toks: seq<Tok>): (r: Option<Match>)
    requires i <= |s|
    ensures r.Some? ==> i <= r.value.end <= |s| && |r.value.groups| == GroupCount(toks)
    decreases |toks|, 1
  {
    if toks == [] then Some(Match([], i)) else MatchTok(s, i, toks[0], toks[1..])
  }

  /** The match of `t` followed by `more`, starting exactly at `i`. */
  function MatchTok(s: string, i: nat, t: Tok, more: seq<Tok>): (r: Option<Match>)
    requires i <= |s|
    ensures r.Some? ==> i <= r.value.end <= |s| && |r.value.groups| == TokCount(t) + GroupCount(more)
    decreases |more| + 1, 0
  {
    match t
    case Lit(x) =>
      if OccursAt(s, x, i) then MatchAt(s, i + |x|, more) else None
    case Run(cls, one, cap) =>
      var n := RunLen(s, i, cls);
      if one && n == 0 then None
      else Prefixed(if cap then [s[i..i + n]] else [], MatchAt(s, i + n, more))
    case Either(a, b) =>
      var r := if OccursAt(s, a, i) then Prefixed([a], MatchAt(s, i + |a|, more)) else None;
      if r.Some? then r
      else if OccursAt(s, b, i) then Prefixed([b], MatchAt(s, i + |b|, more))
      else None
  }

  /** Where `^` matches: the start of the string or just after a newline. */
  predicate LineStart(s: string, i: nat)
    requires i <= |s|
  {
    i == 0 || s[i - 1] == '\n'
  }

  /** `String#match`: the leftmost position at or after `from` where the pattern
      matches; with `anchored` (a pattern that begins with `^`) only line starts
      are tried. */
  function Search(s: string, toks: seq<Tok>, anchored: bool, from: nat): (r: Option<Match>)
    requires from <= |s|
    ensures r.Some? ==> |r.value.groups| == GroupCount(toks)
    decreases |s| - from
  {
    if (!anchored || LineStart(s, from)) && MatchAt(s, from, toks).Some? then MatchAt(s, from, toks)
    else if from == |s| then None
    else Search(s, toks, anchored, from + 1)
  }

  /** A match `Search` finds is one the pattern makes at a position it may
      start at; when it finds none, the pattern matches at no such position. */
  lemma {:induction false} SearchFinds(s: string, toks: seq<Tok>, anchored: bool, from: nat)
    requires from <= |s|
    ensures var r := Search(s, toks, anchored, from);
            && (r.Some? ==> exists i | from <= i <= |s| :: (!anchored || LineStart(s, i)) && MatchAt(s, i, toks) == r)
            && (r.None? ==> forall i | from <= i <= |s| :: !(!anchored || LineStart(s, i)) || MatchAt(s, i, toks).None?)
    decreases |s| - from
  {
    if !((!anchored || LineStart(s, from)) && MatchAt(s, from, toks).Some?) && from < |s| {
      SearchFinds(s, toks, anchored, from + 1);
    }
  }

  /** Where `Search` finds its match. */
  function Locate(s: string, toks: seq<Tok>, anchored: bool, from: nat): (r: Option<nat>)
    requires from <= |s|
    ensures r.Some? ==> from <= r.value <= |s| && (!anchored || LineStart(s, r.value))
    ensures Search(s, toks, anchored, from) == if r.Some? then MatchAt(s, r.value, toks) else None
    ensures r.Some? ==> MatchAt(s, r.value, toks).Some?
    decreases |s| - from
  {
    if (!anchored || LineStart(s, from)) && MatchAt(s, from, toks).Some? then Some(from)
    else if from == |s| then None
    else Locate(s, toks, anchored, from + 1)
  }

  /** `s =~ pattern` as a condition. */
  predicate Matches(s: string, toks: seq<Tok>, anchored: bool)
  {
    Search(s, toks, anchored, 0).Some?
  }

  // ---------------------------------------------------------------------------
  // Text that matches

  /** The text a pattern matches when each run or alternation is given `vals[k]`. */
  function Fill(toks: seq<Tok>, vals: seq<string>): string
    requires |vals| == |toks|
  {
    if toks == [] then ""
    else TokText(toks[0], vals[0]) + Fill(toks[1..], vals[1..])
  }

  /** The group a token's value contributes, if any. */
  function TokGroups(t: Tok, v: string): seq<string>
  {
    match t
    case Lit(_) => []
    case Run(_, _, cap) => if cap then [v] else []
    case Either(_, _) => [v]
  }

  /** The text a token matches when given `v`. */
  function TokText(t: Tok, v: string): string
  {
    if t.Lit? then t.text else v
  }

  /** The groups that text yields. */
  function Groups(toks: seq<Tok>, vals: seq<string>): seq<string>
    requires |vals| == |toks|
  {
    if toks == [] then [] else TokGroups(toks[0], vals[0]) + Groups(toks[1..], vals[1..])
  }

  /** `v` is a value for `t` that the matcher reads back whole when `after`
      follows it: a run's value is made of its class, is not empty when it must
      not be, and is followed by a character outside the class; an alternation's
      value is one of its two branches, which start differently. */
  predicate FitsTok(t: Tok, v: string, after: string)
  {
    match t
    case Lit(_) => true
    case Run(cls, one, _) =>
      (forall k | 0 <= k < |v| :: In(cls, v[k])) && (one ==> v != [])
      && (after == [] || !In(cls, after[0]))
    case Either(a, b) => (v == a || v == b) && a != [] && b != [] && a[0] != b[0]
  }

  predicate Fits(toks: seq<Tok>, vals: seq<string>, rest: string)
    requires |vals| == |toks|
  {
    toks == []
    || (FitsTok(toks[0], vals[0], Fill(toks[1..], vals[1..]) + rest) && Fits(toks[1..], vals[1..], rest))
  }

  lemma RunLenExact(s: string, i: nat, cls: Class, n: nat)
    requires i + n <= |s| && (forall k | i <= k < i + n :: In(cls, s[k]))
    requires i + n < |s| ==> !In(cls, s[i + n])
    ensures RunLen(s, i, cls) == n
    decreases n
  {
    if n > 0 {
      RunLenExact(s, i + 1, cls, n - 1);
    }
  }

  lemma PrefixedNone(r: Option<Match>)
    ensures Prefixed([], r) == r
  {
    if r.Some? {
      assert [] + r.value.groups == r.value.groups;
    }
  }

  /** Matching a pattern whose first token is given a fitting value `v`, followed
      in `s` by `after`, steps over `v` and adds its group. */
  lemma HeadStep(s: string, i: nat, toks: seq<Tok>, v: string, after: string)
    requires toks != [] && i + |TokText(toks[0], v)| <= |s|
    requires s[i..i + |TokText(toks[0], v)|] == TokText(toks[0], v)
    requires after == s[i + |TokText(toks[0], v)|..] && FitsTok(toks[0], v, after)
    ensures MatchAt(s, i, toks)
            == Prefixed(TokGroups(toks[0], v), MatchAt(s, i + |TokText(toks[0], v)|, toks[1..]))
  {
    match toks[0]
    case Lit(t) =>
      assert OccursAt(s, t, i);
      LitStep(s, i, toks);
      PrefixedNone(MatchAt(s, i + |t|, toks[1..]));
    case Run(cls, one, cap) => RunStep(s, i, toks, v, after);
    case Either(a, b) => EitherStep(s, i, toks, v);
  }

  lemma LitStep(s: string, i: nat, toks: seq<Tok>)
    requires toks != [] && toks[0].Lit? && OccursAt(s, toks[0].text, i)
    ensures MatchAt(s, i, toks) == MatchAt(s, i + |toks[0].text|, toks[1..])
  {
  }

  lemma RunStep(s: string, i: nat, toks: seq<Tok>, v: string, after: string)
    requires toks != [] && toks[0].Run? && i + |v| <= |s| && s[i..i + |v|] == v
    requires after == s[i + |v|..] && FitsTok(toks[0], v, after)
    ensures MatchAt(s, i, toks)
            == Prefixed(if toks[0].capture then [v] else [], MatchAt(s, i + |v|, toks[1..]))
  {
    assert forall k | i <= k < i + |v| :: s[k] == v[k - i];
    assert i + |v| < |s| ==> s[i + |v|] == after[0];
    RunLenExact(s, i, toks[0].cls, |v|);
  }

  lemma EitherStep(s: string, i: nat, toks: seq<Tok>, v: string)
    requires toks != [] && toks[0].Either? && i + |v| <= |s| && s[i..i + |v|] == v
    requires FitsTok(toks[0], v, [])
    ensures MatchAt(s, i, toks) == Prefixed([v], MatchAt(s, i + |v|, toks[1..]))
  {
    var a := toks[0].first;
    var b := toks[0].second;
    if v == b {
      assert !OccursAt(s, a, i) by {
        if i + |a| <= |s| { assert s[i..i + |a|][0] == b[0]; }
      }
    }
  }

  lemma Unfold(toks: seq<Tok>, vals: seq<string>)
    requires toks != [] && |vals| == |toks|
    ensures Groups(toks, vals) == TokGroups(toks[0], vals[0]) + Groups(toks[1..], vals[1..])
    ensures Fill(toks, vals) == TokText(toks[0], vals[0]) + Fill(toks[1..], vals[1..])
  {
  }

  lemma Combine(m: Option<Match>, g: seq<string>, gs: seq<string>, e: nat)
    requires m == Some(Match(gs, e))
    ensures Prefixed(g, m) == Some(Match(g + gs, e))
  {
  }

  /** Where `a + b` stands at `i`, `a` stands there and `b` follows it. */
  lemma SplitAt(s: string, i: nat, a: string, b: string)
    requires i <= |s| && s[i..] == a + b
    ensures OccursAt(s, a, i) && i + |a| <= |s| && s[i + |a|..] == b
  {
    assert s[i..][..|a|] == a;
    assert s[i..][|a|..] == b;
  }

  /** A literal token standing at `i` is passed over. */
  lemma LitAt(s: string, i: nat, toks: seq<Tok>, lit: string, rest: string)
    requires toks != [] && toks[0] == Lit(lit) && i <= |s| && s[i..] == lit + rest
    ensures i + |lit| <= |s| && s[i + |lit|..] == rest
    ensures MatchAt(s, i, toks) == MatchAt(s, i + |lit|, toks[1..])
  {
    SplitAt(s, i, lit, rest);
    LitStep(s, i, toks);
  }

  /** A capturing run whose value stands at `i` and fits what follows takes
      exactly that value, as a group, and the match goes on with `more`. */
  lemma RunAt(s: string, i: nat, toks: seq<Tok>, more: seq<Tok>, v: string, tail: string)
    requires toks != [] && toks[0].Run? && toks[0].capture && toks[1..] == more
    requires i <= |s| && s[i..] == v + tail && FitsTok(toks[0], v, tail)
    ensures MatchAt(s, i, toks) == Prefixed([v], MatchAt(s, i + |v|, more))
  {
    SplitAt(s, i, v, tail);
    RunStep(s, i, toks, v, tail);
  }

  /** An alternation whose value stands at `i` takes that value, as a group, and
      the match goes on with `more`. */
  lemma EitherAt(s: string, i: nat, toks: seq<Tok>, more: seq<Tok>, v: string, tail: string)
    requires toks != [] && toks[0].Either? && toks[1..] == more
    requires i <= |s| && s[i..] == v + tail && FitsTok(toks[0], v, [])
    ensures i + |v| <= |s| && s[i + |v|..] == tail
    ensures MatchAt(s, i, toks) == Prefixed([v], MatchAt(s, i + |v|, more))
  {
    SplitAt(s, i, v, tail);
    EitherStep(s, i, toks, v);
  }

  /** Where `h + f + rest` stands, `h` stands, then `f + rest`. */
  lemma HeadAt(s: string, i: nat, h: string, f: string, rest: string)
    requires i <= |s| && s[i..] == (h + f) + rest
    ensures OccursAt(s, h, i) && i + |h| <= |s| && s[i + |h|..] == f + rest
  {
    assert (h + f) + rest == h + (f + rest);
    assert s[i..][..|h|] == h;
    assert s[i..][|h|..] == f + rest;
  }

  /** The text `Fill` builds, wherever it stands in `s` and whatever follows it,
      matches the pattern there, gives back the values as groups and ends where
      the text ends. */
  lemma {:induction false} MatchFill(s: string, i: nat, toks: seq<Tok>, vals: seq<string>, rest: string)
    requires |vals| == |toks| && Fits(toks, vals, rest)
    requires i <= |s| && s[i..] == Fill(toks, vals) + rest
    ensures MatchAt(s, i, toks) == Some(Match(Groups(toks, vals), i + |Fill(toks, vals)|))
    decreases |toks|
  {
    if toks != [] {
      FitsHead(toks, vals, rest);
      FillAt(s, i, toks, vals, rest);
      MatchFill(s, i + |TokText(toks[0], vals[0])|, toks[1..], vals[1..], rest);
      MatchFillCons(s, i, toks, vals, Fill(toks[1..], vals[1..]) + rest);
    }
  }

  lemma FitsHead(toks: seq<Tok>, vals: seq<string>, rest: string)
    requires toks != [] && |vals| == |toks| && Fits(toks, vals, rest)
    ensures Fits(toks[1..], vals[1..], rest)
    ensures FitsTok(toks[0], vals[0], Fill(toks[1..], vals[1..]) + rest)
  {
  }

  /** Where the filled text stands at `i`, its head's text stands there and
      the rest of the text follows it. */
  lemma FillAt(s: string, i: nat, toks: seq<Tok>, vals: seq<string>, rest: string)
    requires toks != [] && |vals| == |toks|
    requires i <= |s| && s[i..] == Fill(toks, vals) + rest
    ensures OccursAt(s, TokText(toks[0], vals[0]), i)
    ensures i + |TokText(toks[0], vals[0])| <= |s|
    ensures s[i + |TokText(toks[0], vals[0])|..] == Fill(toks[1..], vals[1..]) + rest
  {
    Unfold(toks, vals);
    HeadAt(s, i, TokText(toks[0], vals[0]), Fill(toks[1..], vals[1..]), rest);
  }

  /** The inductive step of `MatchFill`, stated in its own terms. */
  lemma MatchFillCons(s: string, i: nat, toks: seq<Tok>, vals: seq<string>, after: string)
    requires toks != [] && |vals| == |toks| && OccursAt(s, TokText(toks[0], vals[0]), i)
    requires after == s[i + |TokText(toks[0], vals[0])|..] && FitsTok(toks[0], vals[0], after)
    requires MatchAt(s, i + |TokText(toks[0], vals[0])|, toks[1..])
             == Some(Match(Groups(toks[1..], vals[1..]), i + |TokText(toks[0], vals[0])| + |Fill(toks[1..], vals[1..])|))
    ensures MatchAt(s, i, toks) == Some(Match(Groups(toks, vals), i + |Fill(toks, vals)|))
  {
    Unfold(toks, vals);
    MatchFillStep(s, i, toks, vals[0], after, Groups(toks[1..], vals[1..]),
                  i + |TokText(toks[0], vals[0])| + |Fill(toks[1..], vals[1..])|);
  }

  /** A fitting value for the first token, then a match of the rest. */
  lemma MatchFillStep(s: string, i: nat, toks: seq<Tok>, v: string, after: string, gs: seq<string>, e: nat)
    requires toks != [] && OccursAt(s, TokText(toks[0], v), i)
    requires after == s[i + |TokText(toks[0], v)|..] && FitsTok(toks[0], v, after)
    requires MatchAt(s, i + |TokText(toks[0], v)|, toks[1..]) == Some(Match(gs, e))
    ensures MatchAt(s, i, toks) == Some(Match(TokGroups(toks[0], v) + gs, e))
  {
    HeadStep(s, i, toks, v, after);
    Combine(MatchAt(s, i + |TokText(toks[0], v)|, toks[1..]), TokGroups(toks[0], v), gs, e);
  }
}
