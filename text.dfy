/**
 * String helpers with the meaning the .NET framework gives them: `char.IsWhiteSpace`,
 * `string.IsNullOrWhiteSpace`, ordinal case-insensitive prefix tests and lower-casing.
 * Case folding is modelled on ASCII letters only.
 */
module Text {

  /** The characters `char.IsWhiteSpace` accepts (Unicode categories Zs, Zl, Zp and the C0/C1 spaces). */
  predicate IsWhiteSpace(c: char)
  {
    ('\t' <= c <= '\r') || c == ' ' || c == '\U{0085}' || c == '\U{00A0}' || c == '\U{1680}' ||
    ('\U{2000}' <= c <= '\U{200A}') || c == '\U{2028}' || c == '\U{2029}' || c == '\U{202F}' ||
    c == '\U{205F}' || c == '\U{3000}'
  }

  /** `string.IsNullOrWhiteSpace` on a non-null string: empty or made of white space only. */
  predicate IsBlank(s: string)
  {
    forall i :: 0 <= i < |s| ==> IsWhiteSpace(s[i])
  }

  predicate IsUpperAscii(c: char) { 'A' <= c <= 'Z' }

  predicate IsLowerAscii(c: char) { 'a' <= c <= 'z' }

  function UpperAscii(c: char): char
  {
    if IsLowerAscii(c) then (c as int - 'a' as int + 'A' as int) as char else c
  }

  function LowerAscii(c: char): char
  {
    if IsUpperAscii(c) then (c as int - 'A' as int + 'a' as int) as char else c
  }

  function ToUpper(s: string): string
  {
    seq(|s|, i requires 0 <= i < |s| => UpperAscii(s[i]))
  }

  /** `string.ToLower`: the result has no upper-case letter and keeps every other character. */
  function ToLower(s: string): (r: string)
    ensures |r| == |s|
    ensures forall i :: 0 <= i < |r| ==> !IsUpperAscii(r[i])
    ensures forall i :: 0 <= i < |r| && !IsUpperAscii(s[i]) ==> r[i] == s[i]
  {
    seq(|s|, i requires 0 <= i < |s| => LowerAscii(s[i]))
  }

  /** Lower-casing never turns a blank string into a non-blank one or back. */
  lemma ToLowerKeepsBlankness(s: string)
    ensures IsBlank(ToLower(s)) <==> IsBlank(s)
  {
    var r := ToLower(s);
    forall i | 0 <= i < |s|
      ensures IsWhiteSpace(r[i]) <==> IsWhiteSpace(s[i])
    {
      if IsUpperAscii(s[i]) {
        assert !IsWhiteSpace(s[i]) && IsLowerAscii(r[i]) && !IsWhiteSpace(r[i]);
      }
    }
  }

  predicate StartsWith(s: string, prefix: string)
  {
    |prefix| <= |s| && s[..|prefix|] == prefix
  }

  /** `s.StartsWith(prefix, StringComparison.OrdinalIgnoreCase)`: both sides are upper-cased and compared. */
  predicate StartsWithIgnoreCase(s: string, prefix: string)
  {
    |prefix| <= |s| && ToUpper(s[..|prefix|]) == ToUpper(prefix)
  }

  /** A case-insensitive prefix test fixes the first character up to case. */
  lemma StartsWithIgnoreCaseHead(s: string, prefix: string)
    ensures StartsWithIgnoreCase(s, prefix) && |prefix| >= 1 ==> UpperAscii(s[0]) == UpperAscii(prefix[0])
  {
    if StartsWithIgnoreCase(s, prefix) && |prefix| >= 1 {
      assert ToUpper(s[..|prefix|])[0] == UpperAscii(s[0]);
    }
  }

  /** A case-insensitive prefix test for a longer prefix implies it for every shorter one. */
  lemma StartsWithIgnoreCaseShorter(s: string, prefix: string, rest: string)
    requires StartsWithIgnoreCase(s, prefix + rest)
    ensures StartsWithIgnoreCase(s, prefix)
  {
    var n := |prefix|;
    forall i | 0 <= i < n
      ensures ToUpper(s[..n])[i] == ToUpper(prefix)[i]
    {
      assert ToUpper(s[..n + |rest|])[i] == ToUpper(prefix + rest)[i];
    }
  }

  /** The part of `s` before its first `#`: the URL string with its fragment cut off. */
  function CutAtHash(s: string): (r: string)
    ensures StartsWith(s, r)
    ensures '#' !in r
    ensures r == s <==> '#' !in s
    ensures r != s ==> s[|r|] == '#'
  {
    if s == [] then []
    else if s[0] == '#' then []
    else [s[0]] + CutAtHash(s[1..])
  }
}
