/** The little text handling the core depends on. */
module Text {

  /** The white space of Go's strings.TrimSpace, in the Basic Multilingual Plane. */
  predicate IsSpace(c: char) {
    || '\t' <= c <= '\r' || c == ' ' || c == '\U{85}' || c == '\U{A0}' || c == '\U{1680}'
    || '\U{2000}' <= c <= '\U{200A}' || c == '\U{2028}' || c == '\U{2029}' || c == '\U{202F}'
    || c == '\U{205F}' || c == '\U{3000}'
  }

  /** Where the text starts once leading white space is gone. */
  function Start(s: string): (n: nat)
    ensures n <= |s|
    ensures forall k | 0 <= k < n :: IsSpace(s[k])
    ensures n < |s| ==> !IsSpace(s[n])
  {
    if s != "" && IsSpace(s[0]) then 1 + Start(s[1..]) else 0
  }

  /** Where the text ends once trailing white space is gone. */
  function End(s: string): (n: nat)
    ensures n <= |s|
    ensures forall k | n <= k < |s| :: IsSpace(s[k])
    ensures n > 0 ==> !IsSpace(s[n - 1])
  {
    if s != "" && IsSpace(s[|s| - 1]) then End(s[..|s| - 1]) else |s|
  }

  /** Removes leading and trailing white space. */
  function TrimSpace(s: string): (r: string)
    ensures r == "" <==> forall k | 0 <= k < |s| :: IsSpace(s[k])
    ensures r != "" ==> !IsSpace(r[0]) && !IsSpace(r[|r| - 1])
  {
    var i, j := Start(s), End(s);
    if i < j then s[i..j] else ""
  }

  lemma {:induction false} TrimmedStays(s: string)
    requires s == "" || (!IsSpace(s[0]) && !IsSpace(s[|s| - 1]))
    ensures TrimSpace(s) == s
  {
    if s != "" {
      assert Start(s) == 0 && End(s) == |s|;
      assert s[0..|s|] == s;
    }
  }

  lemma TrimIsIdempotent(s: string)
    ensures TrimSpace(TrimSpace(s)) == TrimSpace(s)
  {
    TrimmedStays(TrimSpace(s));
  }
}
