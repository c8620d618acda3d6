// The few string operations the kernel relies on, over ASCII text.
module Text {

  datatype Option<+T> = None | Some(value: T)

  predicate IsSpace(c: char) {
    c == ' ' || '\t' <= c <= '\r'
  }

  function TrimLeft(s: string): (r: string)
    ensures |r| <= |s|
    ensures r != "" ==> !IsSpace(r[0])
  {
    if s != "" && IsSpace(s[0]) then TrimLeft(s[1..]) else s
  }

  function TrimRight(s: string): (r: string)
    ensures r <= s
    ensures r != "" ==> !IsSpace(r[|r| - 1])
  {
    if s != "" && IsSpace(s[|s| - 1]) then TrimRight(s[..|s| - 1]) else s
  }

  /** strings.TrimSpace. */
  function Trim(s: string): (r: string)
    ensures r == "" || (!IsSpace(r[0]) && !IsSpace(r[|r| - 1]))
  {
    TrimRight(TrimLeft(s))
  }

  predicate Trimmed(s: string) {
    Trim(s) == s
  }

  lemma TrimmedIff(s: string)
    ensures Trimmed(s) <==> s == "" || (!IsSpace(s[0]) && !IsSpace(s[|s| - 1]))
  {
  }

  lemma TrimIdempotent(s: string)
    ensures Trimmed(Trim(s))
  {
    TrimmedIff(Trim(s));
  }

  function UpperChar(c: char): char {
    if 'a' <= c <= 'z' then (c as int - 32) as char else c
  }

  /** strings.ToUpper. */
  function ToUpper(s: string): (r: string)
    ensures |r| == |s|
    ensures forall i :: 0 <= i < |s| ==> r[i] == UpperChar(s[i])
  {
    if s == "" then "" else [UpperChar(s[0])] + ToUpper(s[1..])
  }

  /** route.normalizeMethod. */
  function NormalizeMethod(verb: string): string {
    ToUpper(Trim(verb))
  }

  lemma UpperIdempotent(s: string)
    ensures ToUpper(ToUpper(s)) == ToUpper(s)
  {
    assert forall c :: UpperChar(UpperChar(c)) == UpperChar(c);
  }

  lemma UpperKeepsTrimmed(s: string)
    requires s == "" || (!IsSpace(s[0]) && !IsSpace(s[|s| - 1]))
    ensures Trimmed(ToUpper(s))
  {
    var u := ToUpper(s);
    assert s != "" ==> u[0] == UpperChar(s[0]) && u[|u| - 1] == UpperChar(s[|s| - 1]);
    UpperSpace();
    TrimmedIff(u);
  }

  lemma UpperSpace()
    ensures forall c :: IsSpace(UpperChar(c)) <==> IsSpace(c)
  {
  }

  lemma NormalizeIdempotent(verb: string)
    ensures NormalizeMethod(NormalizeMethod(verb)) == NormalizeMethod(verb)
  {
    var t := Trim(verb);
    UpperKeepsTrimmed(t);
    UpperIdempotent(t);
  }

  predicate HasPrefix(s: string, prefix: string) {
    prefix <= s
  }

  predicate HasSuffix(s: string, suffix: string) {
    |suffix| <= |s| && s[|s| - |suffix|..] == suffix
  }
}
