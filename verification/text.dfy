/** Character-level helpers with Python's string semantics. */
module Text {

  /** Python's `str.isspace()`: the characters `str.strip()` removes. */
  predicate IsSpace(c: char) {
    || ('\U{9}' <= c <= '\U{D}')
    || ('\U{1C}' <= c <= '\U{20}')
    || c == '\U{85}' || c == '\U{A0}' || c == '\U{1680}'
    || ('\U{2000}' <= c <= '\U{200A}')
    || c == '\U{2028}' || c == '\U{2029}' || c == '\U{202F}' || c == '\U{205F}' || c == '\U{3000}'
  }

  /** `s.lstrip()`: drops leading whitespace. */
  function StripLeading(s: string): (r: string)
    ensures |r| <= |s| && r == s[|s| - |r|..]
    ensures r == [] || !IsSpace(r[0])
    ensures forall i :: 0 <= i < |s| - |r| ==> IsSpace(s[i])
  {
    if s == [] || !IsSpace(s[0]) then s else StripLeading(s[1..])
  }

  /** `s.rstrip()`: drops trailing whitespace. */
  function StripTrailing(s: string): (r: string)
    ensures |r| <= |s| && r == s[..|r|]
    ensures r == [] || !IsSpace(r[|r| - 1])
    ensures forall i :: |r| <= i < |s| ==> IsSpace(s[i])
  {
    if s == [] || !IsSpace(s[|s| - 1]) then s else StripTrailing(s[..|s| - 1])
  }

  /** `s.strip()`. */
  function Strip(s: string): string {
    StripTrailing(StripLeading(s))
  }

  /** A string whose first character is not whitespace keeps that character first when
      trailing whitespace is removed. */
  lemma StripTrailingKeepsHead(s: string)
    requires s != [] && !IsSpace(s[0])
    ensures StripTrailing(s) != [] && StripTrailing(s)[0] == s[0]
  {
  }

  /** The first character of `Strip(s)`, if any, is the first non-whitespace character
      of `s`; `Strip(s)` is empty exactly when `s` is all whitespace. */
  lemma StripHead(s: string)
    ensures Strip(s) == [] <==> forall i :: 0 <= i < |s| ==> IsSpace(s[i])
    ensures Strip(s) != [] ==>
      var k := |s| - |StripLeading(s)|;
      k < |s| && Strip(s)[0] == s[k] && !IsSpace(s[k])
  {
    var l := StripLeading(s);
    if l != [] {
      StripTrailingKeepsHead(l);
      assert l[0] == s[|s| - |l|];
    }
  }

  /** Python's slice `s[:n]`. */
  function Take(s: string, n: nat): (r: string)
    ensures |r| == if |s| <= n then |s| else n
    ensures r == s[..|r|]
  {
    if |s| <= n then s else s[..n]
  }
}
