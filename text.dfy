/**
 * The string operations of the .NET base library that the adapters rely on:
 * white-space tests, ordinal case folding, substring search and `Split`.
 * Case folding is modelled for ASCII letters only.
 */
module Text {

  /** `char.IsWhiteSpace`: the Unicode separators plus the C0/C1 controls U+0009..U+000D and U+0085. */
  predicate IsWhiteSpace(c: char)
  {
    || c == ' '
    || ('\t' <= c <= '\r')
    || c == '\U{0085}' || c == '\U{00A0}' || c == '\U{1680}'
    || ('\U{2000}' <= c <= '\U{200A}')
    || c == '\U{2028}' || c == '\U{2029}' || c == '\U{202F}' || c == '\U{205F}' || c == '\U{3000}'
  }

  /** `string.IsNullOrWhiteSpace` (a null string is not modelled; the empty string stands for it). */
  predicate IsNullOrWhiteSpace(s: string)
  {
    forall i :: 0 <= i < |s| ==> IsWhiteSpace(s[i])
  }

  predicate IsLowerAscii(c: char) { 'a' <= c <= 'z' }
  predicate IsUpperAscii(c: char) { 'A' <= c <= 'Z' }

  function UpperChar(c: char): (u: char)
    ensures !IsLowerAscii(u)
    ensures IsLowerAscii(c) ==> u as int == c as int - 32
    ensures !IsLowerAscii(c) ==> u == c
  {
    if IsLowerAscii(c) then (c as int - 32) as char else c
  }

  function LowerChar(c: char): (l: char)
    ensures !IsUpperAscii(l)
    ensures IsUpperAscii(c) ==> l as int == c as int + 32
    ensures !IsUpperAscii(c) ==> l == c
  {
    if IsUpperAscii(c) then (c as int + 32) as char else c
  }

  /** `string.ToUpper()`: every ASCII lower-case letter replaced by its capital, position by position. */
  function ToUpper(s: string): (r: string)
    ensures |r| == |s|
    ensures forall i :: 0 <= i < |s| ==> r[i] == UpperChar(s[i])
  {
    if s == [] then [] else [UpperChar(s[0])] + ToUpper(s[1..])
  }

  /** `string.ToLower()`: every ASCII capital replaced by its lower-case letter, position by position. */
  function ToLower(s: string): (r: string)
    ensures |r| == |s|
    ensures forall i :: 0 <= i < |s| ==> r[i] == LowerChar(s[i])
  {
    if s == [] then [] else [LowerChar(s[0])] + ToLower(s[1..])
  }

  /** Ordinal case-insensitive equality (`StringComparison.OrdinalIgnoreCase`). */
  predicate EqualsIgnoreCase(a: string, b: string)
  {
    ToUpper(a) == ToUpper(b)
  }

  /** `s.IndexOf(p, StringComparison.OrdinalIgnoreCase) >= 0`. */
  predicate ContainsIgnoreCase(s: string, p: string)
  {
    exists i :: 0 <= i <= |s| - |p| && MatchesAt(s, p, i)
  }

  /** `p` occurs at position `i` of `s`, ignoring case. */
  predicate MatchesAt(s: string, p: string, i: int)
  {
    0 <= i <= |s| - |p| && EqualsIgnoreCase(s[i..i + |p|], p)
  }

  lemma ToUpperIdempotent(s: string)
    ensures ToUpper(ToUpper(s)) == ToUpper(s)
  {
  }

  lemma BlankToUpper(s: string)
    ensures IsNullOrWhiteSpace(ToUpper(s)) <==> IsNullOrWhiteSpace(s)
  {
    assert forall i :: 0 <= i < |s| ==> (IsWhiteSpace(ToUpper(s)[i]) <==> IsWhiteSpace(s[i]));
  }

  /** `s.Split(sep)`: the maximal runs of `s` between occurrences of `sep`. */
  function Split(s: string, sep: char): (parts: seq<string>)
    ensures |parts| >= 1
    ensures forall k :: 0 <= k < |parts| ==> sep !in parts[k]
  {
    if s == [] then [""]
    else
      var rest := Split(s[1..], sep);
      if s[0] == sep then [""] + rest
      else [[s[0]] + rest[0]] + rest[1..]
  }

  /** `string.Join(sep, parts)`, the inverse of `Split`. */
  function Join(parts: seq<string>, sep: char): string
    requires |parts| >= 1
  {
    if |parts| == 1 then parts[0] else parts[0] + [sep] + Join(parts[1..], sep)
  }

  /** Splitting loses nothing: joining the pieces with the separator gives the input back. */
  lemma {:induction false} JoinSplit(s: string, sep: char)
    ensures Join(Split(s, sep), sep) == s
  {
    if s != [] {
      JoinSplit(s[1..], sep);
      var rest := Split(s[1..], sep);
      if s[0] == sep {
        assert Split(s, sep) == [""] + rest;
        assert ([""] + rest)[1..] == rest;
      } else {
        var parts := Split(s, sep);
        assert parts == [[s[0]] + rest[0]] + rest[1..];
        if |rest| == 1 {
          assert parts == [[s[0]] + rest[0]];
        } else {
          assert parts[1..] == rest[1..];
          assert Join(rest, sep) == rest[0] + [sep] + Join(rest[1..], sep);
        }
      }
    }
  }

  /** A "name:symbol" channel key with no other separator splits into exactly those two names. */
  lemma {:induction false} SplitPair(a: string, b: string, sep: char)
    requires sep !in a && sep !in b
    ensures Split(a + [sep] + b, sep) == [a, b]
  {
    if a == [] {
      assert a + [sep] + b == [sep] + b;
      SplitNoSep(b, sep);
    } else {
      assert (a + [sep] + b)[1..] == a[1..] + [sep] + b;
      SplitPair(a[1..], b, sep);
      assert [a[0]] + a[1..] == a;
    }
  }

  lemma {:induction false} SplitNoSep(s: string, sep: char)
    requires sep !in s
    ensures Split(s, sep) == [s]
  {
    if s != [] {
      SplitNoSep(s[1..], sep);
      assert [s[0]] + s[1..] == s;
    }
  }
}
