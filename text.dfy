/**
 * String helpers shared by the model: JavaScript's whitespace class, `String.prototype.trim`,
 * decimal rendering of whole numbers (template literals `${n}`), `Array.prototype.join`
 * and the double quotes put around shell arguments.
 */
module Text {

  /**
   * Whitespace as JavaScript sees it: the regular-expression class `\s` and the characters
   * `String.prototype.trim` removes are the same set (WhiteSpace and LineTerminator).
   */
  predicate IsSpace(c: char) {
    || c == '\t' || c == '\n' || c == '\U{B}' || c == '\U{C}' || c == '\r' || c == ' '
    || c == '\U{A0}' || c == '\U{1680}' || ('\U{2000}' <= c <= '\U{200A}')
    || c == '\U{2028}' || c == '\U{2029}' || c == '\U{202F}' || c == '\U{205F}'
    || c == '\U{3000}' || c == '\U{FEFF}'
  }

  /** `w` occurs in `text` starting at index `i`. */
  predicate StartsAt(text: string, i: nat, w: string) {
    i + |w| <= |text| && text[i..i + |w|] == w
  }

  /** `s` ends with `w`. */
  predicate EndsWith(s: string, w: string) {
    |w| <= |s| && s[|s| - |w|..] == w
  }

  /** Number of whitespace characters at the start of `s`. */
  function LeadingSpaces(s: string): (k: nat)
    ensures k <= |s|
    ensures forall i :: 0 <= i < k ==> IsSpace(s[i])
    ensures k == |s| || !IsSpace(s[k])
  {
    if s == [] || !IsSpace(s[0]) then 0 else 1 + LeadingSpaces(s[1..])
  }

  /** Number of whitespace characters at the end of `s`. */
  function TrailingSpaces(s: string): (k: nat)
    ensures k <= |s|
    ensures forall i :: |s| - k <= i < |s| ==> IsSpace(s[i])
    ensures k == |s| || !IsSpace(s[|s| - 1 - k])
  {
    if s == [] || !IsSpace(s[|s| - 1]) then 0 else 1 + TrailingSpaces(s[..|s| - 1])
  }

  /**
   * `String.prototype.trim`: the result is the slice of `s` that starts at its first
   * non-whitespace character and ends at its last one; everything cut off is whitespace.
   */
  function Trim(s: string): (r: string)
    ensures LeadingSpaces(s) + |r| <= |s|
    ensures r == [] || (!IsSpace(r[0]) && !IsSpace(r[|r| - 1]))
    ensures r == s[LeadingSpaces(s)..LeadingSpaces(s) + |r|]
    ensures forall i :: 0 <= i < LeadingSpaces(s) ==> IsSpace(s[i])
    ensures forall i :: LeadingSpaces(s) + |r| <= i < |s| ==> IsSpace(s[i])
  {
    var start := LeadingSpaces(s);
    var rest := s[start..];
    var stop := start + |rest| - TrailingSpaces(rest);
    assert forall i :: stop <= i < |s| ==> s[i] == rest[i - start];
    s[start..stop]
  }

  /** Trimming a text whose padding is all whitespace and whose core starts and ends with a
      visible character gives back the core. */
  lemma TrimPadded(pre: string, core: string, post: string)
    requires forall i :: 0 <= i < |pre| ==> IsSpace(pre[i])
    requires forall i :: 0 <= i < |post| ==> IsSpace(post[i])
    requires core != [] && !IsSpace(core[0]) && !IsSpace(core[|core| - 1])
    ensures Trim(pre + core + post) == core
  {
    var s := pre + core + post;
    assert forall i :: 0 <= i < |pre| ==> s[i] == pre[i];
    assert forall i :: 0 <= i < |post| ==> s[|pre| + |core| + i] == post[i];
    assert s[|pre|] == core[0];
    assert s[|pre| + |core| - 1] == core[|core| - 1];
    assert LeadingSpaces(s) == |pre|;
    assert s[|pre|..|pre| + |core|] == core;
  }

  /** The decimal digit for `d`. */
  function Digit(d: nat): char
    requires d < 10
  {
    (48 + d) as char
  }

  /** Every character of `s` is a decimal digit. */
  predicate AllDigits(s: string) {
    forall i :: 0 <= i < |s| ==> '0' <= s[i] <= '9'
  }

  /** The number a string of decimal digits spells, most significant digit first. */
  function DigitsValue(s: string): nat
    requires AllDigits(s)
  {
    if s == [] then 0 else 10 * DigitsValue(s[..|s| - 1]) + (s[|s| - 1] as int - '0' as int)
  }

  /** Decimal rendering of a whole number, as a template literal writes it: the digits spell
      `n`, with no sign and no leading zero. */
  function NatToString(n: nat): (s: string)
    ensures |s| >= 1
    ensures (n < 10) <==> |s| == 1
    ensures AllDigits(s)
    ensures DigitsValue(s) == n
    ensures |s| > 1 ==> s[0] != '0'
  {
    if n < 10 then [Digit(n)]
    else
      var front := NatToString(n / 10);
      var s := front + [Digit(n % 10)];
      assert s[..|s| - 1] == front;
      s
  }

  /** Distinct numbers are rendered as distinct strings: the rendering has an inverse. */
  lemma NatToStringInjective(a: nat, b: nat)
    requires NatToString(a) == NatToString(b)
    ensures a == b
  {
    assert a == DigitsValue(NatToString(a)) == DigitsValue(NatToString(b)) == b;
  }

  /** `Array.prototype.join(sep)` over strings: `""` for no element, and `sep` between
      neighbours. */
  function JoinWith(parts: seq<string>, sep: string): string {
    if |parts| == 0 then ""
    else if |parts| == 1 then parts[0]
    else parts[0] + sep + JoinWith(parts[1..], sep)
  }

  /** Joining one more element appends the separator and that element. */
  lemma {:induction false} JoinWithSnoc(parts: seq<string>, x: string, sep: string)
    requires |parts| >= 1
    ensures JoinWith(parts + [x], sep) == JoinWith(parts, sep) + sep + x
  {
    if |parts| > 1 {
      assert (parts + [x])[1..] == parts[1..] + [x];
      JoinWithSnoc(parts[1..], x, sep);
    }
  }

  /** A joined list starts with its first element. */
  lemma {:induction false} JoinWithStartsWithFirst(parts: seq<string>, sep: string)
    requires |parts| >= 1
    ensures StartsAt(JoinWith(parts, sep), 0, parts[0])
  {
    if |parts| > 1 {
      var j := JoinWith(parts, sep);
      assert j == parts[0] + (sep + JoinWith(parts[1..], sep));
      assert j[..|parts[0]|] == parts[0];
    }
  }

  /** A joined list ends with its last element. */
  lemma {:induction false} JoinWithEndsWithLast(parts: seq<string>, sep: string)
    requires |parts| >= 1
    ensures EndsWith(JoinWith(parts, sep), parts[|parts| - 1])
  {
    if |parts| > 1 {
      JoinWithEndsWithLast(parts[1..], sep);
      var rest := JoinWith(parts[1..], sep);
      var last := parts[|parts| - 1];
      assert JoinWith(parts, sep) == (parts[0] + sep) + rest;
      assert rest[|rest| - |last|..] == last;
    }
  }

  /** A joined list of two or more elements is its first element, the separator, then the rest joined. */
  lemma JoinWithCons(parts: seq<string>, sep: string)
    requires |parts| >= 2
    ensures JoinWith(parts, sep) == parts[0] + sep + JoinWith(parts[1..], sep)
  {
  }

  /** The first three elements of a joined list, each followed by the separator, then the rest. */
  lemma JoinWithFirstThree(parts: seq<string>, sep: string)
    requires |parts| >= 4
    ensures JoinWith(parts, sep) == parts[0] + sep + parts[1] + sep + parts[2] + sep + JoinWith(parts[3..], sep)
  {
    var rest1, rest2, rest3 := parts[1..], parts[2..], parts[3..];
    assert rest1[1..] == rest2 && rest2[1..] == rest3;
    JoinWithCons(parts, sep);
    JoinWithCons(rest1, sep);
    JoinWithCons(rest2, sep);
    var j3 := JoinWith(rest3, sep);
    assert JoinWith(rest2, sep) == parts[2] + sep + j3;
    assert JoinWith(rest1, sep) == parts[1] + sep + (parts[2] + sep + j3);
  }

  /** A shell argument wrapped in double quotes, as the source's command templates write it. */
  function Quote(s: string): string {
    "\"" + s + "\""
  }

  /** Equal strings with the same prefix and suffix have the same middle. */
  lemma SameFrame(pre: string, x: string, y: string, post: string)
    requires pre + x + post == pre + y + post
    ensures x == y
  {
    var s := pre + x + post;
    assert |x| == |y|;
    assert x == s[|pre|..|pre| + |x|];
  }

  /** Names built from distinct numbers in the same frame are distinct. */
  lemma DistinctNumbersDistinctNames(pre: string, a: nat, b: nat, post: string)
    requires a != b
    ensures pre + NatToString(a) + post != pre + NatToString(b) + post
  {
    if pre + NatToString(a) + post == pre + NatToString(b) + post {
      SameFrame(pre, NatToString(a), NatToString(b), post);
      NatToStringInjective(a, b);
    }
  }
}
