// The pattern language of access rules and service routes, and the choice of the access rule for a request.
module PathPatterns {
  import opened Text

  /** How the pattern "/" is read: the root path alone, or every absolute path. */
  datatype RootMode = RootExact | RootSubtree

  datatype MethodPath = MethodPath(verb: string, path: string)

  predicate ValidPath(pattern: string) {
    HasPrefix(pattern, "/") && !HasSuffix(pattern, "/*")
  }

  predicate MatchPath(path: string, pattern: string, mode: RootMode) {
    if path == "" || pattern == "" then false
    else if pattern == "/" then (mode.RootSubtree? && HasPrefix(path, "/")) || path == "/"
    else if HasSuffix(pattern, "/") then HasPrefix(path, pattern)
    else path == pattern
  }

  /** Two patterns of one length that match the same path are one pattern, whatever their root modes. */
  lemma MatchesOfOneLength(path: string, p: string, q: string, m: RootMode, n: RootMode)
    requires MatchPath(path, p, m) && MatchPath(path, q, n)
    requires |p| == |q|
    ensures p == q
  {
    assert p == path[..|p|] && q == path[..|q|];
  }

  /** A non-root pattern matches itself and, when it is a subtree, exactly the paths it begins. */
  lemma MatchMeaning(path: string, pattern: string, mode: RootMode)
    requires pattern != "" && pattern != "/"
    ensures MatchPath(path, pattern, mode) <==>
            path == pattern || (HasSuffix(pattern, "/") && HasPrefix(path, pattern))
  {
  }

  predicate TokenChar(c: char) {
    'A' <= c <= 'Z' || '0' <= c <= '9' || c in "!#$%&'*+-.^_`|~"
  }

  predicate ValidToken(s: string) {
    s != "" && forall i :: 0 <= i < |s| ==> TokenChar(s[i])
  }

  /** Section 5.6.2 of RFC 9110 has it the other way round: any visible character that is no delimiter. Lower-case
      letters do not count here. */
  lemma TokenCharIff(c: char)
    ensures TokenChar(c) <==> '!' <= c <= '~' && c !in "\"(),/:;<=>?@[\\]{}" && !('a' <= c <= 'z')
  {
  }

  /** validHTTPToken: the scan of the bytes of a method. */
  method ScanToken(value: string) returns (ok: bool)
    ensures ok <==> ValidToken(value)
  {
    if value == "" {
      return false;
    }
    for index := 0 to |value|
      invariant forall i :: 0 <= i < index ==> TokenChar(value[i])
    {
      if !TokenChar(value[index]) {
        return false;
      }
    }
    return true;
  }

  /** The part before the first ':' and the part after it. */
  function Cut(s: string): (r: Option<(string, string)>)
    ensures r.None? <==> ':' !in s
    ensures r.Some? ==> s == r.value.0 + ":" + r.value.1 && ':' !in r.value.0
  {
    if s == "" then None
    else if s[0] == ':' then
      assert s == "" + ":" + s[1..];
      Some(("", s[1..]))
    else
      match Cut(s[1..])
      case None => None
      case Some((before, after)) =>
        assert s == ([s[0]] + before) + ":" + after;
        Some(([s[0]] + before, after))
  }

  lemma {:induction false} CutAtFirst(before: string, after: string)
    requires ':' !in before
    ensures Cut(before + ":" + after) == Some((before, after))
  {
    var whole := before + ":" + after;
    if before == "" {
      assert whole[1..] == after;
    } else {
      assert whole[1..] == before[1..] + ":" + after;
      assert whole[0] == before[0] && [before[0]] + before[1..] == before;
      CutAtFirst(before[1..], after);
    }
  }

  function ParseMethodPath(key: string): Option<MethodPath> {
    if HasPrefix(key, "/") then
      if ValidPath(key) then Some(MethodPath("", key)) else None
    else
      match Cut(key)
      case None => None
      case Some((verb, path)) =>
        if verb == "" || !HasPrefix(path, "/") then None
        else if verb != ToUpper(verb) || !ValidToken(verb) then None
        else if !ValidPath(path) then None
        else Some(MethodPath(verb, path))
  }

  function FormatMethodPath(verb: string, path: string): Option<string> {
    var verb := Trim(verb);
    if verb == "" then
      match ParseMethodPath(path)
      case None => None
      case Some(parsed) => if parsed.verb != "" then None else Some(parsed.path)
    else
      var key := verb + ":" + path;
      if ParseMethodPath(key).None? then None else Some(key)
  }

  predicate ValidRule(r: MethodPath) {
    (r.verb == "" || ValidToken(r.verb)) && ValidPath(r.path)
  }

  lemma TokenFacts(verb: string)
    requires ValidToken(verb)
    ensures ':' !in verb && !HasPrefix(verb, "/") && Trimmed(verb) && ToUpper(verb) == verb
  {
    assert forall i :: 0 <= i < |verb| ==> TokenChar(verb[i]);
    TokenCharFacts();
    TrimmedIff(verb);
    assert ToUpper(verb) == verb;
  }

  lemma TokenCharFacts()
    ensures forall c :: TokenChar(c) ==> !IsSpace(c) && c != ':' && c != '/' && UpperChar(c) == c
  {
  }

  /** The printed form of a rule. */
  function Key(r: MethodPath): string {
    if r.verb == "" then r.path else r.verb + ":" + r.path
  }

  /** Parsing inverts printing, on exactly the valid rules: the accepted keys and the rules correspond one to one. */
  lemma ParseIffKey(key: string, r: MethodPath)
    ensures ParseMethodPath(key) == Some(r) <==> ValidRule(r) && key == Key(r)
  {
    if ValidRule(r) && key == Key(r) && r.verb != "" {
      TokenFacts(r.verb);
      assert key[0] == r.verb[0];
      CutAtFirst(r.verb, r.path);
    }
  }

  /** No two keys of the access table are the same rule. */
  lemma ParseInjective(k1: string, k2: string)
    requires ParseMethodPath(k1).Some? && ParseMethodPath(k1) == ParseMethodPath(k2)
    ensures k1 == k2
  {
    ParseIffKey(k1, ParseMethodPath(k1).value);
    ParseIffKey(k2, ParseMethodPath(k2).value);
  }

  lemma FormatInvertsParse(key: string)
    requires ParseMethodPath(key).Some?
    ensures FormatMethodPath(ParseMethodPath(key).value.verb, ParseMethodPath(key).value.path) == Some(key)
  {
    var r := ParseMethodPath(key).value;
    ParseIffKey(key, r);
    if r.verb != "" {
      TokenFacts(r.verb);
    }
  }

  /** What is printed reads back as the rule that was asked for iff the trimmed method is empty or a token. */
  lemma ParseInvertsFormatIff(verb: string, path: string)
    requires FormatMethodPath(verb, path).Some?
    ensures ParseMethodPath(FormatMethodPath(verb, path).value) == Some(MethodPath(Trim(verb), path))
            <==> Trim(verb) == "" || ValidToken(Trim(verb))
  {
    var key := FormatMethodPath(verb, path).value;
    var r := MethodPath(Trim(verb), path);
    ParseIffKey(key, r);
    if ValidToken(Trim(verb)) {
      TokenFacts(Trim(verb));
      CutAtFirst(Trim(verb), path);
      assert key[0] == Trim(verb)[0];
    }
  }

  lemma TrimmedAround(before: string, middle: string, after: string)
    requires Trimmed(before) && Trimmed(after) && before != "" && after != ""
    ensures Trimmed(before + middle + after)
  {
    TrimmedIff(before);
    TrimmedIff(after);
    TrimmedIff(before + middle + after);
  }

  /** A method that is itself a rule prints, with any ending, as a key of another method and another path. */
  lemma FormatMixesUpMethodAndPath(verb: string, path: string, ending: string)
    requires ValidToken(verb) && HasPrefix(path, "/") && Trimmed(path) && !HasSuffix(path + ":" + ending, "/*")
    ensures FormatMethodPath(verb + ":" + path, ending) == Some(verb + ":" + path + ":" + ending)
    ensures ParseMethodPath(verb + ":" + path + ":" + ending) == Some(MethodPath(verb, path + ":" + ending))
  {
    TokenFacts(verb);
    TrimmedAround(verb, ":", path);
    KeyOfPair(verb, path, ending);
  }

  lemma KeyOfPair(verb: string, path: string, ending: string)
    requires ValidToken(verb) && HasPrefix(path, "/") && !HasSuffix(path + ":" + ending, "/*")
    ensures ParseMethodPath(verb + ":" + path + ":" + ending) == Some(MethodPath(verb, path + ":" + ending))
  {
    var rule := MethodPath(verb, path + ":" + ending);
    assert verb + ":" + path + ":" + ending == Key(rule);
    assert rule.path[0] == path[0];
    ParseIffKey(Key(rule), rule);
  }

  function MethodRank(request: string, rule: string): int {
    if rule == request then 2
    else if request == "HEAD" && rule == "GET" then 1
    else if rule == "" then 0
    else -1
  }

  predicate MatchRule(verb: string, path: string, rule: MethodPath, mode: RootMode) {
    MethodRank(verb, rule.verb) >= 0 && MatchPath(path, rule.path, mode)
  }

  type Allow = map<string, seq<string>>

  predicate Applies(verb: string, path: string, key: string) {
    ParseMethodPath(key).Some? && MatchRule(verb, path, ParseMethodPath(key).value, RootExact)
  }

  /** Rule a is at least as specific as rule b: a longer path, or as long and no worse a method. */
  predicate AtLeast(verb: string, a: MethodPath, b: MethodPath) {
    |a.path| > |b.path| || (|a.path| == |b.path| && MethodRank(verb, a.verb) >= MethodRank(verb, b.verb))
  }

  ghost predicate IsBest(verb: string, path: string, allow: Allow, key: string) {
    && key in allow && Applies(verb, path, key)
    && forall other :: other in allow && Applies(verb, path, other) ==>
         AtLeast(verb, ParseMethodPath(key).value, ParseMethodPath(other).value)
  }

  /** There is only one best rule, so the order in which the table is visited cannot matter. */
  lemma BestIsUnique(verb: string, path: string, allow: Allow, k1: string, k2: string)
    requires IsBest(verb, path, allow, k1) && IsBest(verb, path, allow, k2)
    ensures k1 == k2
  {
    var r1, r2 := ParseMethodPath(k1).value, ParseMethodPath(k2).value;
    assert AtLeast(verb, r1, r2) && AtLeast(verb, r2, r1);
    MatchesOfOneLength(path, r1.path, r2.path, RootExact, RootExact);
    assert r1.verb == r2.verb;
    ParseInjective(k1, k2);
  }

  /** A rule applies to a request iff it is for its method, for all methods, or for GET when HEAD is asked, and its
      path is that of the request or, if it ends in a slash, begins it; "/" is the root alone. */
  lemma AppliesIff(verb: string, path: string, rule: MethodPath)
    requires ValidRule(rule)
    ensures Applies(verb, path, Key(rule)) <==>
            && (rule.verb == verb || rule.verb == "" || (verb == "HEAD" && rule.verb == "GET"))
            && (path == rule.path || (rule.path != "/" && HasSuffix(rule.path, "/") && HasPrefix(path, rule.path)))
  {
    ParseIffKey(Key(rule), rule);
  }

  /** The path of every other rule that applies is a beginning of that of the best. */
  lemma BestIsMostSpecific(verb: string, path: string, allow: Allow, key: string, rule: MethodPath, other: MethodPath)
    requires IsBest(verb, path, allow, key) && ParseMethodPath(key) == Some(rule)
    requires ValidRule(other) && Key(other) in allow && Applies(verb, path, Key(other))
    ensures other.path <= rule.path
  {
    ParseIffKey(key, rule);
    ParseIffKey(Key(other), other);
    AppliesIff(verb, path, rule);
    AppliesIff(verb, path, other);
    assert AtLeast(verb, rule, other);
    assert other.path == path[..|other.path|] && rule.path == path[..|rule.path|];
    assert path[..|rule.path|][..|other.path|] == path[..|other.path|];
  }

  lemma NoneIsBetterHere(verb: string, path: string, allow: Allow, key: string, rule: MethodPath, other: MethodPath)
    requires IsBest(verb, path, allow, key) && ParseMethodPath(key) == Some(rule)
    requires ValidRule(other) && Key(other) in allow && other.path == rule.path && MethodRank(verb, other.verb) >= 0
    ensures MethodRank(verb, rule.verb) >= MethodRank(verb, other.verb)
  {
    ParseIffKey(Key(other), other);
    assert AtLeast(verb, rule, other);
  }

  /** Of the rules for one path, that for the very method comes first, then, for HEAD, that for GET, and last the one
      for all methods. */
  lemma BestHasItsMethod(verb: string, path: string, allow: Allow, key: string, rule: MethodPath)
    requires IsBest(verb, path, allow, key) && ParseMethodPath(key) == Some(rule)
    ensures ValidToken(verb) && Key(MethodPath(verb, rule.path)) in allow ==> rule.verb == verb
    ensures verb == "HEAD" && Key(MethodPath("GET", rule.path)) in allow ==> rule.verb != ""
  {
    ParseIffKey(key, rule);
    if ValidToken(verb) && Key(MethodPath(verb, rule.path)) in allow {
      NoneIsBetterHere(verb, path, allow, key, rule, MethodPath(verb, rule.path));
    }
    if verb == "HEAD" && Key(MethodPath("GET", rule.path)) in allow {
      NoneIsBetterHere(verb, path, allow, key, rule, MethodPath("GET", rule.path));
    }
  }

  /** matchRouteAccess: one pass over the table, in any order. */
  method MatchRouteAccess(verb: string, path: string, allow: Allow)
    returns (best: string, groups: seq<string>, found: bool)
    ensures found <==> exists key :: key in allow && Applies(verb, path, key)
    ensures found ==> IsBest(verb, path, allow, best) && groups == allow[best]
    ensures !found ==> best == "" && groups == []
  {
    best, groups := "", [];
    var bestPathLength, bestRank := -1, -1;
    var left := allow.Keys;
    while left != {}
      invariant left <= allow.Keys
      invariant best == "" ==> groups == [] && bestPathLength == -1 && bestRank == -1
      invariant best != "" ==> && best in allow && Applies(verb, path, best) && groups == allow[best]
                               && bestPathLength == |ParseMethodPath(best).value.path|
                               && bestRank == MethodRank(verb, ParseMethodPath(best).value.verb)
      invariant forall other :: other in allow && other !in left && Applies(verb, path, other) ==>
                  best != "" && AtLeast(verb, ParseMethodPath(best).value, ParseMethodPath(other).value)
    {
      var key :| key in left;
      left := left - {key};
      var parsed := ParseMethodPath(key);
      if parsed.None? || !MatchRule(verb, path, parsed.value, RootExact) {
        continue;
      }
      var pathLength, rank := |parsed.value.path|, MethodRank(verb, parsed.value.verb);
      if pathLength < bestPathLength || (pathLength == bestPathLength && rank <= bestRank) {
        continue;
      }
      best, bestPathLength, bestRank, groups := key, pathLength, rank, allow[key];
    }
    found := best != "";
  }
}
