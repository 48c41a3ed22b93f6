/** Multipart::Post (lib/multipart.rb, repeated at the top of wipe_device.rb): the
    body and header of a multipart/form-data upload, in the layout of section
    5.1.1 of RFC 2046 (each part after `--boundary` and a CRLF, the close
    delimiter `--boundary--` last) with the Content-Disposition header of section
    4.2 of RFC 7578. `CGI::escape` is a function parameter. */
module Multipart {
  import opened Text

  const VERSION := "1.0.0"
  const USERAGENT := "Multipart::Post v" + VERSION
  const BOUNDARY := "0123456789ABLEWASIEREISAWELBA9876543210"
  const CONTENT_TYPE := "multipart/form-data; boundary=" + BOUNDARY
  const HEADER: map<string, string> := map["Content-Type" := CONTENT_TYPE, "User-Agent" := USERAGENT]

  /** The delimiter line's text, before its CRLF. */
  const DELIMITER := "--" + BOUNDARY
  const CRLF := "\r\n"

  const DISPOSITION := "Content-Disposition: form-data; name=\""
  const FILENAME := "; filename=\""
  const FILE_HEAD := "\r\nContent-Type: application/octet-stream\r\n\r\n"

  /** A parameter value: one that answers both `path` and `read` (a file, or the
      runner's LogString) becomes a file part, anything else a string part. */
  datatype Value = Plain(text: string) | File(path: string, content: string)

  datatype Param = Param(key: string, value: Value)

  /** `StringParam#to_multipart`. */
  function StringPart(escape: string -> string, k: string, v: string): string
  {
    DISPOSITION + escape(k) + "\"" + CRLF + CRLF + v + CRLF
  }

  /** `FileParam#to_multipart`: the filename goes in unescaped. */
  function FilePart(escape: string -> string, k: string, filename: string, content: string): string
  {
    DISPOSITION + escape(k) + "\"" + FILENAME + filename + "\"" + FILE_HEAD + content + CRLF
  }

  /** The part `prepare_query` builds for one parameter. */
  function ToMultipart(escape: string -> string, p: Param): string
  {
    match p.value
    case Plain(v) => StringPart(escape, p.key, v)
    case File(f, c) => FilePart(escape, p.key, f, c)
  }

  /** A part after the CRLF that ends its delimiter line. */
  function Piece(escape: string -> string, p: Param): string
  {
    CRLF + ToMultipart(escape, p)
  }

  /** The collected `"--" + BOUNDARY + "\r\n" + part` strings, joined. */
  function Collected(escape: string -> string, ps: seq<Param>): string
  {
    if ps == [] then "" else DELIMITER + Piece(escape, ps[0]) + Collected(escape, ps[1..])
  }

  /** The body `prepare_query` returns: the parts in parameter order, then the
      close delimiter, with no CRLF after it. */
  function Body(escape: string -> string, ps: seq<Param>): string
  {
    Collected(escape, ps) + DELIMITER + "--"
  }

  /** `Post.prepare_query`: the body and the constant header. */
  function PrepareQuery(escape: string -> string, ps: seq<Param>): (r: (string, map<string, string>))
    ensures r.1.Keys == {"Content-Type", "User-Agent"}
    ensures r.1["Content-Type"] == "multipart/form-data; boundary=" + BOUNDARY
    ensures r.1["User-Agent"] == "Multipart::Post v1.0.0"
    ensures ps == [] ==> r.0 == "--" + BOUNDARY + "--"
  {
    (Body(escape, ps), HEADER)
  }

  // ---------------------------------------------------------------------------
  // Reading a body back

  /** What a receiver reads out of one part. */
  datatype Field = Field(name: string, filename: Option<string>, content: string)

  predicate StartsWith(s: string, p: string) { |p| <= |s| && s[..|p|] == p }
  predicate EndsWith(s: string, p: string) { |p| <= |s| && s[|s| - |p|..] == p }

  /** Read one part: the quoted name, then either a blank line and the content up
      to the final CRLF, or a quoted filename, the content type, a blank line and
      the content. */
  function ParsePart(t: string): Option<Field>
  {
    if StartsWith(t, DISPOSITION) then ParseNamed(t[|DISPOSITION|..]) else None
  }

  /** After `name="`: the name runs to the next double quote. */
  function ParseNamed(r: string): Option<Field>
  {
    match IndexOf(r, '"')
    case None => None
    case Some(i) => ParseAfterName(r[..i], r[i + 1..])
  }

  function ParseAfterName(name: string, after: string): Option<Field>
  {
    if StartsWith(after, CRLF + CRLF) && |after| >= 6 && EndsWith(after, CRLF) then
      Some(Field(name, None, after[4..|after| - 2]))
    else if StartsWith(after, FILENAME) then ParseFilename(name, after[|FILENAME|..])
    else None
  }

  /** After `filename="`: the filename runs to the next double quote. */
  function ParseFilename(name: string, r: string): Option<Field>
  {
    match IndexOf(r, '"')
    case None => None
    case Some(j) => ParseFileContent(name, r[..j], r[j + 1..])
  }

  function ParseFileContent(name: string, filename: string, a: string): Option<Field>
  {
    if StartsWith(a, FILE_HEAD) && |a| >= |FILE_HEAD| + 2 && EndsWith(a, CRLF) then
      Some(Field(name, Some(filename), a[|FILE_HEAD|..|a| - 2]))
    else None
  }

  /** What the receiver should read for a parameter. */
  function Expected(escape: string -> string, p: Param): Field
  {
    match p.value
    case Plain(v) => Field(escape(p.key), None, v)
    case File(f, c) => Field(escape(p.key), Some(f), c)
  }

  /** What the receiver should read for each parameter, in order. */
  function ExpectedAll(escape: string -> string, ps: seq<Param>): (r: seq<Field>)
    ensures |r| == |ps|
    ensures forall i | 0 <= i < |ps| :: r[i] == Expected(escape, ps[i])
  {
    if ps == [] then [] else [Expected(escape, ps[0])] + ExpectedAll(escape, ps[1..])
  }

  /** The first double quote of `n + "\"" + rest`, when `n` holds none, ends `n`. */
  lemma QuoteEnds(n: string, rest: string)
    requires '"' !in n
    ensures IndexOf(n + "\"" + rest, '"') == Some(|n|)
    ensures (n + "\"" + rest)[..|n|] == n && (n + "\"" + rest)[|n| + 1..] == rest
  {
    var s := n + "\"" + rest;
    assert s[..|n|] == n;
    assert s[|n|] == '"';
    assert '"' in s;
  }

  lemma NamedPart(n: string, after: string)
    requires '"' !in n
    ensures ParseNamed(n + "\"" + after) == ParseAfterName(n, after)
  {
    QuoteEnds(n, after);
  }

  lemma FilenamePart(n: string, f: string, a: string)
    requires '"' !in f
    ensures ParseFilename(n, f + "\"" + a) == ParseFileContent(n, f, a)
  {
    QuoteEnds(f, a);
  }

  lemma PlainAfterName(n: string, v: string)
    ensures ParseAfterName(n, CRLF + CRLF + v + CRLF) == Some(Field(n, None, v))
  {
    var after := CRLF + CRLF + v + CRLF;
    assert after[..4] == CRLF + CRLF;
    assert after[|after| - 2..] == CRLF;
    assert after[4..|after| - 2] == v;
  }

  lemma FileAfterName(n: string, f: string, c: string)
    requires '"' !in f
    ensures ParseAfterName(n, FILENAME + (f + "\"" + (FILE_HEAD + c + CRLF))) == Some(Field(n, Some(f), c))
  {
    var a := FILE_HEAD + c + CRLF;
    var r := f + "\"" + a;
    var after := FILENAME + r;
    assert !StartsWith(after, CRLF + CRLF) by { assert after[0] == ';'; }
    assert after[..|FILENAME|] == FILENAME && after[|FILENAME|..] == r;
    FilenamePart(n, f, a);
    assert a[..|FILE_HEAD|] == FILE_HEAD;
    assert a[|a| - 2..] == CRLF;
    assert a[|FILE_HEAD|..|a| - 2] == c;
  }

  lemma DispositionPart(n: string, after: string)
    requires '"' !in n
    ensures ParsePart(DISPOSITION + (n + "\"" + after)) == ParseAfterName(n, after)
  {
    var t := DISPOSITION + (n + "\"" + after);
    assert t[..|DISPOSITION|] == DISPOSITION && t[|DISPOSITION|..] == n + "\"" + after;
    NamedPart(n, after);
  }

  /** A part reads back as its parameter, and as a file exactly when the parameter
      was one, provided the escaped name and the filename hold no double quote. */
  lemma PartRoundTrip(escape: string -> string, p: Param)
    requires '"' !in escape(p.key)
    requires p.value.File? ==> '"' !in p.value.path
    ensures ParsePart(ToMultipart(escape, p)) == Some(Expected(escape, p))
  {
    var n := escape(p.key);
    match p.value
    case Plain(v) =>
      var after := CRLF + CRLF + v + CRLF;
      assert ToMultipart(escape, p) == DISPOSITION + (n + "\"" + after);
      DispositionPart(n, after);
      PlainAfterName(n, v);
    case File(f, c) =>
      var after := FILENAME + (f + "\"" + (FILE_HEAD + c + CRLF));
      assert ToMultipart(escape, p) == DISPOSITION + (n + "\"" + after);
      DispositionPart(n, after);
      FileAfterName(n, f, c);
  }

  /** The pieces between delimiters: an empty preamble, each part after its CRLF,
      and the `--` of the close delimiter. */
  function Pieces(escape: string -> string, ps: seq<Param>): (r: seq<string>)
    ensures |r| == |ps|
    ensures forall i | 0 <= i < |ps| :: r[i] == Piece(escape, ps[i])
  {
    if ps == [] then [] else [Piece(escape, ps[0])] + Pieces(escape, ps[1..])
  }

  lemma JoinCons(x: string, ys: seq<string>, sep: string)
    requires |ys| > 0
    ensures Join([x] + ys, sep) == x + sep + Join(ys, sep)
  {
    assert ([x] + ys)[1..] == ys;
  }

  /** Each string preceded by the separator `d`. */
  function Prefixed(d: string, xs: seq<string>): string
  {
    if xs == [] then "" else d + xs[0] + Prefixed(d, xs[1..])
  }

  lemma {:induction false} PrefixedJoin(d: string, xs: seq<string>, last: string)
    ensures d + Join(xs + [last], d) == Prefixed(d, xs) + d + last
    decreases |xs|
  {
    if xs == [] {
      assert xs + [last] == [last];
    } else {
      var tail := xs[1..] + [last];
      assert xs + [last] == [xs[0]] + tail;
      JoinCons(xs[0], tail, d);
      PrefixedJoin(d, xs[1..], last);
      var j := Join(tail, d);
      var p := Prefixed(d, xs[1..]);
      assert d + j == p + d + last;
      calc {
        d + (xs[0] + d + j);
        d + xs[0] + (d + j);
        d + xs[0] + (p + d + last);
        d + xs[0] + p + d + last;
      }
    }
  }

  lemma {:induction false} CollectedPrefixed(escape: string -> string, ps: seq<Param>)
    ensures Collected(escape, ps) == Prefixed(DELIMITER, Pieces(escape, ps))
    decreases |ps|
  {
    if ps != [] {
      assert Pieces(escape, ps)[1..] == Pieces(escape, ps[1..]);
      CollectedPrefixed(escape, ps[1..]);
    }
  }

  /** The body is the pieces joined by the delimiter. */
  lemma BodyJoin(escape: string -> string, ps: seq<Param>)
    ensures Body(escape, ps) == Join([""] + Pieces(escape, ps) + ["--"], DELIMITER)
  {
    var d := DELIMITER;
    var xs := Pieces(escape, ps);
    var all := [""] + xs + ["--"];
    assert all == [""] + (xs + ["--"]);
    JoinCons("", xs + ["--"], d);
    assert Join(all, d) == d + Join(xs + ["--"], d);
    PrefixedJoin(d, xs, "--");
    CollectedPrefixed(escape, ps);
  }

  lemma DelimiterBorderless()
    ensures Borderless(DELIMITER)
  {
    var t := DELIMITER;
    assert forall k | 2 <= k < |t| :: t[k] != '-';
    forall m | 0 < m < |t| ensures t[m..] != t[..|t| - m] {
      if m == 1 {
        assert t[m..][1] != t[..|t| - m][1];
      } else {
        assert t[m..][0] != t[..|t| - m][0];
      }
    }
  }

  lemma ShortNoDelimiter(s: string)
    requires |s| < |DELIMITER|
    ensures !Contains(s, DELIMITER)
  {
  }

  /** Read a whole body: the pieces between delimiters must be an empty preamble,
      parts each after a CRLF, and the final `--`. */
  function ParseBody(body: string): Option<seq<Field>>
  {
    var pieces := SplitAll(body, DELIMITER);
    if |pieces| < 2 || pieces[0] != "" || pieces[|pieces| - 1] != "--" then None
    else ParseParts(pieces[1..|pieces| - 1])
  }

  function ParseParts(xs: seq<string>): Option<seq<Field>>
  {
    if xs == [] then Some([])
    else if !StartsWith(xs[0], CRLF) then None
    else
      match (ParsePart(xs[0][2..]), ParseParts(xs[1..]))
      case (Some(f), Some(fs)) => Some([f] + fs)
      case _ => None
  }

  /** A parameter the receiver can read back unambiguously. */
  predicate Readable(escape: string -> string, p: Param)
  {
    '"' !in escape(p.key) && (p.value.File? ==> '"' !in p.value.path)
    && !Contains(Piece(escape, p), DELIMITER)
  }

  lemma {:induction false} PartsRoundTrip(escape: string -> string, ps: seq<Param>)
    requires forall i | 0 <= i < |ps| :: Readable(escape, ps[i])
    ensures ParseParts(Pieces(escape, ps)) == Some(ExpectedAll(escape, ps))
    decreases |ps|
  {
    if ps != [] {
      var xs := Pieces(escape, ps);
      assert StartsWith(xs[0], CRLF);
      assert xs[0][2..] == ToMultipart(escape, ps[0]);
      PartRoundTrip(escape, ps[0]);
      assert xs[1..] == Pieces(escape, ps[1..]);
      PartsRoundTrip(escape, ps[1..]);
    }
  }

  /** The receiver finds one part per parameter, in parameter order, each read back
      as the parameter it came from, as long as no part holds the delimiter
      (section 5.1.1 of RFC 2046 asks the sender to ensure that) and names hold no
      double quote. */
  lemma BodyRoundTrip(escape: string -> string, ps: seq<Param>)
    requires forall i | 0 <= i < |ps| :: Readable(escape, ps[i])
    ensures |SplitAll(Body(escape, ps), DELIMITER)| == |ps| + 2
    ensures ParseBody(Body(escape, ps)) == Some(ExpectedAll(escape, ps))
  {
    var xs := [""] + Pieces(escape, ps) + ["--"];
    BodyJoin(escape, ps);
    DelimiterBorderless();
    forall i | 0 <= i < |xs| ensures !Contains(xs[i], DELIMITER) {
      if i == 0 || i == |xs| - 1 {
        ShortNoDelimiter(xs[i]);
      }
    }
    SplitJoin(xs, DELIMITER);
    assert xs[1..|xs| - 1] == Pieces(escape, ps);
    PartsRoundTrip(escape, ps);
  }
}
