// JSON Pointers (sections 3 and 4 of RFC 6901) as the paths of configuration operations.
module Pointer {
  import opened Text

  datatype Parsed = Segments(segments: seq<string>) | RootPath | NotAPointer | BadEscape

  /** strings.ReplaceAll for a pattern of one character. */
  function ReplaceAll(s: string, c: char, other: string): string {
    if s == "" then "" else (if s[0] == c then other else [s[0]]) + ReplaceAll(s[1..], c, other)
  }

  function EscapeChar(c: char): string {
    if c == '~' then "~0" else if c == '/' then "~1" else [c]
  }

  /** The escaped form of a segment, character by character. */
  function Escape(s: string): string {
    if s == "" then "" else EscapeChar(s[0]) + Escape(s[1..])
  }

  lemma {:induction false} ReplaceAllConcat(a: string, b: string, c: char, other: string)
    ensures ReplaceAll(a + b, c, other) == ReplaceAll(a, c, other) + ReplaceAll(b, c, other)
  {
    if a == "" {
      assert a + b == b;
    } else {
      assert (a + b)[1..] == a[1..] + b;
      ReplaceAllConcat(a[1..], b, c, other);
    }
  }

  /** Replacing every '~' before every '/' escapes each character once. */
  lemma {:induction false} ReplacedIsEscaped(s: string)
    ensures ReplaceAll(ReplaceAll(s, '~', "~0"), '/', "~1") == Escape(s)
  {
    if s != "" {
      var head := if s[0] == '~' then "~0" else [s[0]];
      ReplaceAllConcat(head, ReplaceAll(s[1..], '~', "~0"), '/', "~1");
      ReplacedIsEscaped(s[1..]);
      assert ReplaceAll(head, '/', "~1") == EscapeChar(s[0]) by {
        assert ReplaceAll("", '/', "~1") == "";
        assert head[1..] == "" || head[1..] == "0";
        assert "0"[1..] == "";
      }
    }
  }

  function Unescape(s: string): Option<string> {
    if s == "" then Some("")
    else if s[0] != '~' then
      match Unescape(s[1..])
      case None => None
      case Some(rest) => Some([s[0]] + rest)
    else if |s| < 2 || (s[1] != '0' && s[1] != '1') then None
    else
      match Unescape(s[2..])
      case None => None
      case Some(rest) => Some([if s[1] == '0' then '~' else '/'] + rest)
  }

  predicate StartsWell(s: string) {
    s != "" && (s[0] != '~' || (|s| > 1 && (s[1] == '0' || s[1] == '1')))
  }

  lemma UnescapeStep(s: string)
    requires StartsWell(s)
    ensures var n, c := if s[0] == '~' then 2 else 1, if s[0] != '~' then s[0] else if s[1] == '0' then '~' else '/';
            Unescape(s) == match Unescape(s[n..]) case None => None case Some(rest) => Some([c] + rest)
  {
  }

  /** strings.ReplaceAll for '~' and a digit. */
  function ReplaceCode(s: string, digit: char, c: char): string {
    if |s| < 2 then s
    else if s[0] == '~' && s[1] == digit then [c] + ReplaceCode(s[2..], digit, c)
    else [s[0]] + ReplaceCode(s[1..], digit, c)
  }

  lemma ReplaceCodeNext(c: char, rest: string, digit: char, d: char)
    requires c != '~' || rest == "" || rest[0] != digit
    ensures ReplaceCode([c] + rest, digit, d) == [c] + ReplaceCode(rest, digit, d)
  {
    assert ([c] + rest)[1..] == rest;
  }

  lemma ReplaceCodes(digit: char, rest: string)
    requires digit == '0' || digit == '1'
    ensures ReplaceCode(ReplaceCode(['~', digit] + rest, '1', '/'), '0', '~')
            == [if digit == '0' then '~' else '/'] + ReplaceCode(ReplaceCode(rest, '1', '/'), '0', '~')
  {
    var s, once := ['~', digit] + rest, ReplaceCode(rest, '1', '/');
    assert s[2..] == rest;
    if digit == '1' {
      assert ReplaceCode(s, '1', '/') == ['/'] + once;
      ReplaceCodeNext('/', once, '0', '~');
    } else {
      assert s == ['~'] + (['0'] + rest);
      ReplaceCodeNext('0', rest, '1', '/');
      ReplaceCodeNext('~', ['0'] + rest, '1', '/');
      assert ReplaceCode(s, '1', '/') == ['~'] + (['0'] + once) == ['~', '0'] + once;
      assert (['~', '0'] + once)[2..] == once;
    }
  }

  /** Section 4 of RFC 6901: "~1" becomes '/' first and "~0" becomes '~' after that. */
  lemma {:induction false} UnescapesInOrder(s: string)
    requires Unescape(s).Some?
    ensures Unescape(s).value == ReplaceCode(ReplaceCode(s, '1', '/'), '0', '~')
  {
    if s != "" {
      UnescapeStep(s);
      if s[0] != '~' {
        UnescapesInOrder(s[1..]);
        assert s == [s[0]] + s[1..];
        ReplaceCodeNext(s[0], s[1..], '1', '/');
        ReplaceCodeNext(s[0], ReplaceCode(s[1..], '1', '/'), '0', '~');
      } else {
        UnescapesInOrder(s[2..]);
        assert s == ['~', s[1]] + s[2..];
        ReplaceCodes(s[1], s[2..]);
      }
    }
  }

  lemma {:induction false} UnescapeEscape(s: string)
    ensures Unescape(Escape(s)) == Some(s) && '/' !in Escape(s)
  {
    if s != "" {
      UnescapeEscape(s[1..]);
      var head, rest := EscapeChar(s[0]), Escape(s[1..]);
      assert (head + rest)[|head|..] == rest;
      assert s == [s[0]] + s[1..];
    }
  }

  lemma {:induction false} EscapeUnescape(s: string)
    requires '/' !in s && Unescape(s).Some?
    ensures Escape(Unescape(s).value) == s
  {
    if s != "" {
      var n := if s[0] == '~' then 2 else 1;
      EscapeUnescape(s[n..]);
      var u := Unescape(s).value;
      assert u[1..] == Unescape(s[n..]).value;
      assert s == s[..n] + s[n..];
      assert EscapeChar(u[0]) == s[..n];
    }
  }

  /** strings.Split at '/'. */
  function Split(s: string): (r: seq<string>)
    ensures |r| > 0
    ensures forall i :: 0 <= i < |r| ==> '/' !in r[i]
  {
    if s == "" then [""]
    else
      var rest := Split(s[1..]);
      if s[0] == '/' then [""] + rest else [[s[0]] + rest[0]] + rest[1..]
  }

  /** Every segment with a '/' in front of it. */
  function Slashed(segments: seq<string>): string {
    if segments == [] then "" else "/" + segments[0] + Slashed(segments[1..])
  }

  function Escaped(segments: seq<string>): (r: seq<string>)
    ensures |r| == |segments|
    ensures forall i :: 0 <= i < |r| ==> r[i] == Escape(segments[i])
  {
    if segments == [] then [] else [Escape(segments[0])] + Escaped(segments[1..])
  }

  function Join(segments: seq<string>): string {
    Slashed(Escaped(segments))
  }

  lemma {:induction false} SlashedSplit(s: string)
    ensures Slashed(Split(s)) == "/" + s
  {
    if s != "" {
      SlashedSplit(s[1..]);
      var rest := Split(s[1..]);
      if s[0] == '/' {
        assert ([""] + rest)[1..] == rest;
      } else {
        assert Slashed(rest) == "/" + rest[0] + Slashed(rest[1..]);
        assert rest[0] + Slashed(rest[1..]) == Slashed(rest)[1..] == s[1..];
        assert ([[s[0]] + rest[0]] + rest[1..])[1..] == rest[1..];
      }
      assert s == [s[0]] + s[1..];
    }
  }

  lemma {:induction false} SplitPrepends(a: string, rest: string)
    requires '/' !in a
    ensures Split(a + rest) == [a + Split(rest)[0]] + Split(rest)[1..]
  {
    if a == "" {
      assert a + rest == rest && a + Split(rest)[0] == Split(rest)[0];
    } else {
      assert (a + rest)[1..] == a[1..] + rest;
      SplitPrepends(a[1..], rest);
      assert a + Split(rest)[0] == [a[0]] + (a[1..] + Split(rest)[0]);
    }
  }

  lemma {:induction false} SplitSlashed(segments: seq<string>)
    requires segments != [] && forall i :: 0 <= i < |segments| ==> '/' !in segments[i]
    ensures Slashed(segments)[0] == '/' && Split(Slashed(segments)[1..]) == segments
  {
    var tail := Slashed(segments[1..]);
    assert Slashed(segments)[1..] == segments[0] + tail;
    SplitPrepends(segments[0], tail);
    if |segments| > 1 {
      SplitSlashed(segments[1..]);
      assert Split(tail) == [""] + segments[1..];
    }
    assert segments[0] + "" == segments[0];
  }

  /** All segments unescaped, or nothing. */
  function UnescapeAll(raw: seq<string>): (r: Option<seq<string>>)
    ensures r.Some? <==> forall i :: 0 <= i < |raw| ==> Unescape(raw[i]).Some?
    ensures r.Some? ==> |r.value| == |raw| && forall i :: 0 <= i < |raw| ==> Unescape(raw[i]) == Some(r.value[i])
  {
    if raw == [] then Some([])
    else
      match (Unescape(raw[0]), UnescapeAll(raw[1..]))
      case (Some(first), Some(rest)) => Some([first] + rest)
      case _ => None
  }

  function Parse(path: string): Parsed {
    if path == "" then RootPath
    else if path[0] != '/' then NotAPointer
    else
      match UnescapeAll(Split(path[1..]))
      case None => BadEscape
      case Some(segments) => Segments(segments)
  }

  /** Parsing inverts printing on every non-empty path. */
  lemma ParseInvertsJoin(segments: seq<string>)
    requires segments != []
    ensures Parse(Join(segments)) == Segments(segments)
  {
    var escaped := Escaped(segments);
    forall i | 0 <= i < |segments| ensures '/' !in escaped[i] && Unescape(escaped[i]) == Some(segments[i]) {
      UnescapeEscape(segments[i]);
    }
    SplitSlashed(escaped);
    assert UnescapeAll(escaped).value == segments;
  }

  /** Printing inverts parsing on every accepted path, so no two paths name one place. */
  lemma JoinInvertsParse(path: string)
    requires Parse(path).Segments?
    ensures Parse(path).segments != [] && Join(Parse(path).segments) == path
  {
    var raw, segments := Split(path[1..]), Parse(path).segments;
    forall i | 0 <= i < |raw| ensures Escape(segments[i]) == raw[i] {
      assert Unescape(raw[i]) == Some(segments[i]);
      EscapeUnescape(raw[i]);
    }
    assert Escaped(segments) == raw;
    SlashedSplit(path[1..]);
    assert path == "/" + path[1..];
  }

  /** The grammar of section 3 of RFC 6901: '~' only before '0' or '1'. */
  ghost predicate WellEscaped(s: string) {
    forall i :: 0 <= i < |s| && s[i] == '~' ==> i + 1 < |s| && (s[i + 1] == '0' || s[i + 1] == '1')
  }

  lemma {:induction false} UnescapeIff(s: string)
    ensures Unescape(s).Some? <==> WellEscaped(s)
  {
    if s != "" && (s[0] != '~' || (|s| > 1 && (s[1] == '0' || s[1] == '1'))) {
      var n := if s[0] == '~' then 2 else 1;
      UnescapeIff(s[n..]);
      WellEscapedDrops(s, n);
    }
  }

  lemma WellEscapedDrops(s: string, n: nat)
    requires n <= |s|
    requires forall i :: 0 <= i < n && s[i] == '~' ==> i + 1 < |s| && (s[i + 1] == '0' || s[i + 1] == '1')
    ensures WellEscaped(s) <==> WellEscaped(s[n..])
  {
    var t := s[n..];
    forall i | WellEscaped(t) && 0 <= i < |s| && s[i] == '~'
      ensures i + 1 < |s| && (s[i + 1] == '0' || s[i + 1] == '1')
    {
      if i >= n {
        assert t[i - n] == s[i];
      }
    }
    forall i | WellEscaped(s) && 0 <= i < |t| && t[i] == '~'
      ensures i + 1 < |t| && (t[i + 1] == '0' || t[i + 1] == '1')
    {
      assert s[n + i] == t[i];
    }
  }

  /** An escape never reaches across a '/'. */
  lemma {:induction false} SplitUnescapes(s: string)
    ensures Unescape(s).Some? <==> UnescapeAll(Split(s)).Some?
  {
    if s != "" {
      if s[0] == '~' && (|s| < 2 || (s[1] != '0' && s[1] != '1')) {
        HeadAgrees(s[1..]);
        assert Split(s)[0][0] == '~';
        assert Unescape(Split(s)[0]).None?;
      } else if s[0] == '/' {
        SplitUnescapes(s[1..]);
        assert Split(s)[1..] == Split(s[1..]);
      } else {
        var n := if s[0] == '~' then 2 else 1;
        var rest := Split(s[n..]);
        SplitUnescapes(s[n..]);
        assert s == s[..n] + s[n..];
        SplitPrepends(s[..n], s[n..]);
        assert (s[..n] + rest[0])[n..] == rest[0];
        assert Unescape(Split(s)[0]).Some? <==> Unescape(rest[0]).Some?;
        assert Split(s)[1..] == rest[1..];
      }
    }
  }

  lemma HeadAgrees(s: string)
    ensures s == "" || s[0] == '/' ==> Split(s)[0] == ""
    ensures s != "" && s[0] != '/' ==> Split(s)[0] != "" && Split(s)[0][0] == s[0]
  {
  }

  /** Exactly the non-empty pointers of the RFC are accepted. */
  lemma AcceptedIff(path: string)
    ensures Parse(path).Segments? <==> path != "" && path[0] == '/' && WellEscaped(path)
  {
    if path != "" && path[0] == '/' {
      SplitUnescapes(path[1..]);
      UnescapeIff(path[1..]);
      WellEscapedDrops(path, 1);
    }
  }

  lemma {:induction false} SlashedConcat(a: seq<string>, b: seq<string>)
    ensures Slashed(a + b) == Slashed(a) + Slashed(b)
  {
    if a == [] {
      assert a + b == b;
    } else {
      assert (a + b)[1..] == a[1..] + b;
      SlashedConcat(a[1..], b);
    }
  }

  method JoinPath(segments: seq<string>) returns (path: string)
    ensures path == Join(segments)
  {
    path := "";
    for index := 0 to |segments|
      invariant path == Slashed(Escaped(segments)[..index])
    {
      var segment := ReplaceAll(segments[index], '~', "~0");
      segment := ReplaceAll(segment, '/', "~1");
      ReplacedIsEscaped(segments[index]);
      path := path + "/" + segment;
      assert Escaped(segments)[..index + 1] == Escaped(segments)[..index] + [segment];
      SlashedConcat(Escaped(segments)[..index], [segment]);
    }
    assert Escaped(segments)[..|segments|] == Escaped(segments);
  }

  lemma StartsAlike(a: string, b: string)
    requires StartsWell(a)
    ensures var n := if a[0] == '~' then 2 else 1;
            && StartsWell(a + b) && (a + b)[0] == a[0] && (n == 2 ==> (a + b)[1] == a[1])
            && (a + b)[n..] == a[n..] + b
  {
  }

  lemma {:induction false} UnescapeConcat(a: string, b: string)
    requires Unescape(a).Some?
    ensures Unescape(a + b) == match Unescape(b) case None => None case Some(rest) => Some(Unescape(a).value + rest)
  {
    if a == "" {
      assert a + b == b;
      assert Unescape(b).Some? ==> "" + Unescape(b).value == Unescape(b).value;
    } else {
      var n := if a[0] == '~' then 2 else 1;
      StartsAlike(a, b);
      UnescapeConcat(a[n..], b);
      UnescapeStep(a);
      UnescapeStep(a + b);
      if Unescape(b).Some? {
        var u, rest := Unescape(a).value, Unescape(a[n..]).value;
        assert [u[0]] + (rest + Unescape(b).value) == u + Unescape(b).value;
      }
    }
  }

  lemma UnescapeUnit(s: string)
    requires if |s| == 1 then s[0] != '~' else |s| == 2 && s[0] == '~' && (s[1] == '0' || s[1] == '1')
    ensures Unescape(s) == Some([if |s| == 1 then s[0] else if s[1] == '0' then '~' else '/'])
  {
    var rest := s[|s|..];
    assert rest == "" && Unescape(rest) == Some("");
    assert forall c: char :: [c] + "" == [c];
  }

  /** The inner scan of parsePointer. */
  method UnescapeSegment(segment: string) returns (text: Option<string>)
    ensures text == Unescape(segment)
  {
    var built, offset := "", 0;
    while offset < |segment|
      invariant 0 <= offset <= |segment|
      invariant Unescape(segment[..offset]) == Some(built)
    {
      var start := offset;
      ghost var done := segment[..offset];
      assert segment == done + segment[offset..];
      UnescapeConcat(done, segment[offset..]);
      if segment[offset] != '~' {
        built := built + [segment[offset]];
      } else {
        if offset + 1 >= |segment| {
          return None;
        }
        offset := offset + 1;
        if segment[offset] == '0' {
          built := built + ['~'];
        } else if segment[offset] == '1' {
          built := built + ['/'];
        } else {
          return None;
        }
      }
      offset := offset + 1;
      assert segment[..offset] == done + segment[start..offset];
      UnescapeConcat(done, segment[start..offset]);
      UnescapeUnit(segment[start..offset]);
    }
    assert segment[..offset] == segment;
    return Some(built);
  }

  method ParsePointer(path: string) returns (r: Parsed)
    ensures r == Parse(path)
  {
    if path == "" {
      return RootPath;
    }
    if path[0] != '/' {
      return NotAPointer;
    }
    var raw := Split(path[1..]);
    var segments: seq<string> := [];
    for index := 0 to |raw|
      invariant |segments| == index
      invariant forall i :: 0 <= i < index ==> Unescape(raw[i]) == Some(segments[i])
    {
      var text := UnescapeSegment(raw[index]);
      if text.None? {
        return BadEscape;
      }
      segments := segments + [text.value];
    }
    assert UnescapeAll(raw).Some? && UnescapeAll(raw).value == segments;
    return Segments(segments);
  }
}
