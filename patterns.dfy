/** The three regular expressions the components test input against, each an
    anchored repetition of one character class:

      ^[0-9a-zA-ZÀ-ÿ\s,'-.!?]{10,100}$   proposal text       (RegisterProposals)
      ^[0-9]{1,3}$                        vote selection      (Vote)
      ^\d+$                               workflow index      (Header)

    plus the decimal digit strings those tests let through. Characters are
    Unicode scalar values; the classes contain only characters of the Basic
    Multilingual Plane, so a string is accepted here exactly when its UTF-16
    form is accepted by the JavaScript engine, and lengths agree on accepted
    strings. */
module Patterns {

  /** JavaScript's `\s`: the WhiteSpace and LineTerminator code points. */
  predicate IsJsWhitespace(c: char) {
    || c == '\t' || c == '\n' || c == '\U{000B}' || c == '\U{000C}' || c == '\r'
    || c == ' ' || c == '\U{00A0}' || c == '\U{1680}'
    || ('\U{2000}' <= c <= '\U{200A}')
    || c == '\U{2028}' || c == '\U{2029}' || c == '\U{202F}' || c == '\U{205F}'
    || c == '\U{3000}' || c == '\U{FEFF}'
  }

  predicate IsAsciiDigit(c: char) {
    '0' <= c <= '9'
  }

  predicate IsAsciiLetter(c: char) {
    ('a' <= c <= 'z') || ('A' <= c <= 'Z')
  }

  /** One item of a bracketed class: a range `lo-hi` (a single character is
      the range `c-c`) or the escape `\s`. */
  datatype ClassItem = Span(lo: char, hi: char) | Whitespace

  predicate InItem(c: char, item: ClassItem) {
    match item
    case Span(lo, hi) => lo <= c <= hi
    case Whitespace => IsJsWhitespace(c)
  }

  predicate InClass(c: char, cls: seq<ClassItem>) {
    exists i :: 0 <= i < |cls| && InItem(c, cls[i])
  }

  predicate AllIn(s: string, cls: seq<ClassItem>) {
    forall i :: 0 <= i < |s| ==> InClass(s[i], cls)
  }

  /** The upper bound of a quantifier: `{m,n}` or `{m,}` / `+`. */
  datatype Bound = AtMost(n: nat) | Unbounded

  predicate Within(n: nat, b: Bound) {
    match b
    case AtMost(m) => n <= m
    case Unbounded => true
  }

  function Shrink(b: Bound): Bound {
    match b
    case AtMost(m) => AtMost(if m == 0 then 0 else m - 1)
    case Unbounded => Unbounded
  }

  /** `^[cls]{min,max}$`. */
  datatype Pattern = Repeat(cls: seq<ClassItem>, min: nat, max: Bound)

  /** RegExp.prototype.test for an anchored repetition: consume one character
      of the class per step, and succeed at the end of input once the minimum
      count is reached. */
  predicate Test(p: Pattern, s: string)
    ensures Test(p, s) ==> p.min <= |s| && Within(|s|, p.max)
    decreases |s|
  {
    if s == [] then p.min == 0
    else if p.max == AtMost(0) then false
    else
      InClass(s[0], p.cls)
      && Test(Repeat(p.cls, if p.min == 0 then 0 else p.min - 1, Shrink(p.max)), s[1..])
  }

  /** An anchored repetition accepts exactly the strings of an admissible
      length made only of characters of the class. */
  lemma {:induction false} TestIff(p: Pattern, s: string)
    ensures Test(p, s) <==> p.min <= |s| && Within(|s|, p.max) && AllIn(s, p.cls)
    decreases |s|
  {
    if s != [] && p.max != AtMost(0) {
      var q := Repeat(p.cls, if p.min == 0 then 0 else p.min - 1, Shrink(p.max));
      TestIff(q, s[1..]);
      assert AllIn(s, p.cls) <==> InClass(s[0], p.cls) && AllIn(s[1..], p.cls) by {
        if InClass(s[0], p.cls) && AllIn(s[1..], p.cls) {
          forall i | 0 <= i < |s| ensures InClass(s[i], p.cls) {
            if i > 0 { assert s[i] == s[1..][i - 1]; }
          }
        }
      }
    }
  }

  // ----- the three classes -----

  /** `[0-9]`, and also `\d`, which JavaScript limits to ASCII digits. */
  const DigitClass: seq<ClassItem> := [Span('0', '9')]

  /** `[0-9a-zA-ZÀ-ÿ\s,'-.!?]`. Inside the brackets `'-.` is the range
      U+0027..U+002E, so ( ) * + are admitted too; À-ÿ is U+00C0..U+00FF. */
  const ProposalClass: seq<ClassItem> := [
    Span('0', '9'), Span('a', 'z'), Span('A', 'Z'), Span('\U{00C0}', '\U{00FF}'),
    Whitespace, Span(',', ','), Span('\'', '.'), Span('!', '!'), Span('?', '?')
  ]

  const ProposalPattern: Pattern := Repeat(ProposalClass, 10, AtMost(100))
  const SelectionPattern: Pattern := Repeat(DigitClass, 1, AtMost(3))
  const IndexPattern: Pattern := Repeat(DigitClass, 1, Unbounded)

  /** The characters the proposal class admits, listed out. */
  predicate ProposalChar(c: char) {
    || IsAsciiDigit(c)
    || IsAsciiLetter(c)
    || ('\U{00C0}' <= c <= '\U{00FF}')
    || IsJsWhitespace(c)
    || c in "!'()*+,-.?"
  }

  lemma DigitClassIff(c: char)
    ensures InClass(c, DigitClass) <==> IsAsciiDigit(c)
  {
    if IsAsciiDigit(c) { assert InItem(c, DigitClass[0]); }
  }

  lemma ProposalClassIff(c: char)
    ensures InClass(c, ProposalClass) <==> ProposalChar(c)
  {
    var cls := ProposalClass;
    if ProposalChar(c) {
      if IsAsciiDigit(c) { assert InItem(c, cls[0]); }
      else if 'a' <= c <= 'z' { assert InItem(c, cls[1]); }
      else if 'A' <= c <= 'Z' { assert InItem(c, cls[2]); }
      else if '\U{00C0}' <= c <= '\U{00FF}' { assert InItem(c, cls[3]); }
      else if IsJsWhitespace(c) { assert InItem(c, cls[4]); }
      else if c == '!' { assert InItem(c, cls[7]); }
      else if c == '?' { assert InItem(c, cls[8]); }
      else { assert InItem(c, cls[6]); }
    }
    if InClass(c, cls) {
      var i :| 0 <= i < |cls| && InItem(c, cls[i]);
      if i == 6 {
        assert c in "!'()*+,-.?" by {
          if c == '\'' { assert c == "!'()*+,-.?"[1]; }
          else if c == '(' { assert c == "!'()*+,-.?"[2]; }
          else if c == ')' { assert c == "!'()*+,-.?"[3]; }
          else if c == '*' { assert c == "!'()*+,-.?"[4]; }
          else if c == '+' { assert c == "!'()*+,-.?"[5]; }
          else if c == ',' { assert c == "!'()*+,-.?"[6]; }
          else if c == '-' { assert c == "!'()*+,-.?"[7]; }
          else { assert c == "!'()*+,-.?"[8]; }
        }
      }
    }
  }

  /** An index string passes `^\d+$` exactly when it is a non-empty run of
      ASCII digits. */
  lemma IndexPatternIff(s: string)
    ensures Test(IndexPattern, s) <==> |s| >= 1 && AllDigits(s)
  {
    TestIff(IndexPattern, s);
    forall i | 0 <= i < |s| { DigitClassIff(s[i]); }
  }

  /** A selection string passes `^[0-9]{1,3}$` exactly when it is one to
      three ASCII digits. */
  lemma SelectionPatternIff(s: string)
    ensures Test(SelectionPattern, s) <==> 1 <= |s| <= 3 && AllDigits(s)
  {
    TestIff(SelectionPattern, s);
    forall i | 0 <= i < |s| { DigitClassIff(s[i]); }
  }

  // ----- decimal digit strings -----

  predicate AllDigits(s: string) {
    forall i :: 0 <= i < |s| ==> IsAsciiDigit(s[i])
  }

  function DigitValue(c: char): (d: nat)
    requires IsAsciiDigit(c)
    ensures d < 10
  {
    (c as int) - ('0' as int)
  }

  function DigitChar(d: nat): (c: char)
    requires d < 10
    ensures IsAsciiDigit(c) && DigitValue(c) == d
  {
    ('0' as int + d) as char
  }

  /** The number a digit string denotes, as JavaScript's ToNumber reads it
      (leading zeros allowed: "007" is 7). A k-digit string denotes a number
      below 10^k. */
  function DigitsValue(s: string): (v: nat)
    requires AllDigits(s)
    ensures v < Pow10(|s|)
    decreases |s|
  {
    if s == [] then 0 else 10 * DigitsValue(s[..|s| - 1]) + DigitValue(s[|s| - 1])
  }

  function Pow10(k: nat): (p: nat)
    ensures p >= 1
  {
    if k == 0 then 1 else 10 * Pow10(k - 1)
  }

  /** String(n) for a non-negative integer below 10^21: its shortest decimal
      rendering. (From 10^21 on JavaScript writes an exponent, "1e+21"; no
      such number reaches a check here, the workflow index being status + 1.) */
  function DecimalString(n: nat): (r: string)
    ensures |r| >= 1 && AllDigits(r)
    decreases n
  {
    if n < 10 then [DigitChar(n)] else DecimalString(n / 10) + [DigitChar(n % 10)]
  }

  /** String(i) for an integer of magnitude below 10^21: a minus sign before
      the negative ones. */
  function IntString(i: int): (r: string)
    ensures |r| >= 1
    ensures AllDigits(r) <==> i >= 0
  {
    if i < 0 then
      var r := "-" + DecimalString(-i);
      assert !IsAsciiDigit(r[0]);
      r
    else DecimalString(i)
  }

  /** Reading back a rendered number gives the number. */
  lemma {:induction false} DecimalRoundTrip(n: nat)
    ensures DigitsValue(DecimalString(n)) == n
  {
    if n >= 10 {
      DecimalRoundTrip(n / 10);
      var s := DecimalString(n);
      assert s[..|s| - 1] == DecimalString(n / 10);
    }
  }

  /** A number renders in at most k digits exactly when it is below 10^k. */
  lemma {:induction false} DecimalLength(n: nat, k: nat)
    requires k >= 1
    ensures |DecimalString(n)| <= k <==> n < Pow10(k)
    decreases n
  {
    if k >= 2 {
      assert Pow10(k) == 10 * Pow10(k - 1);
      assert Pow10(k - 1) >= 1;
      if n >= 10 {
        DecimalLength(n / 10, k - 1);
      } else {
        assert Pow10(k - 1) == 10 * Pow10(k - 2);
      }
    }
  }
}
