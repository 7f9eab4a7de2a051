/**
 * The string operations the resolver relies on: `Trim`, `ToUpper`, `StartsWith` and
 * `Substring`, restricted to ASCII letters and ASCII white space. Lengths and indices count
 * characters (Unicode scalar values), not UTF-16 code units.
 */
module Text {
  import opened Wrappers

  /** The exception .NET raises when an index or a length falls outside a string. */
  datatype Exception = ArgumentOutOfRange

  /** The ASCII white-space characters: space, tab, line feed, vertical tab, form feed, carriage return. */
  predicate IsWhiteSpace(c: char)
  {
    c == ' ' || c == '\t' || c == '\n' || c == '\U{B}' || c == '\U{C}' || c == '\r'
  }

  predicate IsLower(c: char)
  {
    'a' <= c <= 'z'
  }

  /** No character of `s` is a lower-case ASCII letter. */
  predicate NoLower(s: string)
  {
    forall i :: 0 <= i < |s| ==> !IsLower(s[i])
  }

  function UpperChar(c: char): (u: char)
    ensures !IsLower(u)
    ensures !IsLower(c) ==> u == c
    ensures IsLower(c) ==> u as int == c as int - 32
    ensures IsWhiteSpace(u) <==> IsWhiteSpace(c)
  {
    if IsLower(c) then (c as int - 32) as char else c
  }

  /** ASCII upper-casing, character by character. */
  function ToUpper(s: string): (r: string)
    ensures |r| == |s|
    ensures NoLower(r)
    ensures forall i :: 0 <= i < |s| ==> r[i] == UpperChar(s[i])
  {
    seq(|s|, i requires 0 <= i < |s| => UpperChar(s[i]))
  }

  /** The number of white-space characters at the start of `s`. */
  function LeadingWhiteSpace(s: string): (n: nat)
    ensures n <= |s|
    ensures forall i :: 0 <= i < n ==> IsWhiteSpace(s[i])
    ensures n < |s| ==> !IsWhiteSpace(s[n])
  {
    if |s| > 0 && IsWhiteSpace(s[0]) then 1 + LeadingWhiteSpace(s[1..]) else 0
  }

  /** The number of white-space characters at the end of `s`. */
  function TrailingWhiteSpace(s: string): (n: nat)
    ensures n <= |s|
    ensures forall i :: |s| - n <= i < |s| ==> IsWhiteSpace(s[i])
    ensures n < |s| ==> !IsWhiteSpace(s[|s| - 1 - n])
  {
    if |s| > 0 && IsWhiteSpace(s[|s| - 1]) then 1 + TrailingWhiteSpace(s[..|s| - 1]) else 0
  }

  /** `s` without its leading and trailing white space. */
  function Trim(s: string): (r: string)
    ensures |r| > 0 ==> !IsWhiteSpace(r[0]) && !IsWhiteSpace(r[|r| - 1])
    ensures LeadingWhiteSpace(s) + |r| <= |s|
    ensures r == s[LeadingWhiteSpace(s)..LeadingWhiteSpace(s) + |r|]
    ensures forall i :: LeadingWhiteSpace(s) + |r| <= i < |s| ==> IsWhiteSpace(s[i])
  {
    var t := s[LeadingWhiteSpace(s)..];
    t[..|t| - TrailingWhiteSpace(t)]
  }

  /** Trimming a string with no white space at either end leaves it as it is. */
  lemma TrimUnpadded(s: string)
    requires |s| > 0 ==> !IsWhiteSpace(s[0]) && !IsWhiteSpace(s[|s| - 1])
    ensures Trim(s) == s
  {
    assert LeadingWhiteSpace(s) == 0;
    assert TrailingWhiteSpace(s) == 0;
  }

  /** Trimming a string padded with one space on each side removes exactly those spaces. */
  lemma TrimSpaced(s: string)
    requires |s| > 0 && !IsWhiteSpace(s[0]) && !IsWhiteSpace(s[|s| - 1])
    ensures Trim(" " + s + " ") == s
  {
    var padded := " " + s + " ";
    assert padded[1..] == s + " ";
    assert LeadingWhiteSpace(s + " ") == 0;
    assert LeadingWhiteSpace(padded) == 1;
    assert (s + " ")[..|s|] == s;
    assert TrailingWhiteSpace(s) == 0;
    assert TrailingWhiteSpace(s + " ") == 1;
  }

  /** Upper-casing a string with no lower-case letters leaves it as it is. */
  lemma ToUpperNoLower(s: string)
    requires NoLower(s)
    ensures ToUpper(s) == s
  {
  }

  /** Whether `s` begins with `prefix`: `s` is `prefix` followed by something. */
  predicate StartsWith(s: string, prefix: string): (b: bool)
    ensures b <==> exists rest :: s == prefix + rest
  {
    assert |prefix| <= |s| && s[..|prefix|] == prefix ==> s == prefix + s[|prefix|..];
    |prefix| <= |s| && s[..|prefix|] == prefix
  }

  /**
   * `s.Substring(start, length)`: the `length` characters from `start` on, or the
   * exception raised when that range does not lie inside `s`.
   */
  function Substring(s: string, start: nat, length: nat): (r: Result<string, Exception>)
    ensures r.Success? <==> start + length <= |s|
    ensures r.Success? ==> |r.value| == length && s == s[..start] + r.value + s[start + length..]
  {
    if start + length <= |s| then Success(s[start..start + length]) else Failure(ArgumentOutOfRange)
  }
}
