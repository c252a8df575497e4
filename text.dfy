/**
 * Text helpers shared by the scanner, the controller and the renderer:
 * lower-casing of extensions, Rust's ordering of `String`s, and the
 * decimal rendering of counts used by `format!`.
 */
module Text {

  /** Lower-cases one ASCII letter and leaves every other character alone. */
  function LowerChar(c: char): char
  {
    if 'A' <= c <= 'Z' then (c as int + 32) as char else c
  }

  /** `str::to_lowercase`, restricted to ASCII letters. */
  function Lower(s: string): (r: string)
    ensures |r| == |s|
    ensures forall i :: 0 <= i < |s| && 'A' <= s[i] <= 'Z' ==> r[i] as int == s[i] as int + 32
    ensures forall i :: 0 <= i < |s| && !('A' <= s[i] <= 'Z') ==> r[i] == s[i]
    ensures forall i :: 0 <= i < |r| ==> !('A' <= r[i] <= 'Z')
  {
    seq(|s|, i requires 0 <= i < |s| => LowerChar(s[i]))
  }

  /** A text without upper-case ASCII letters is its own lower-case form. */
  lemma LowerFixesLowerCase(s: string)
    ensures (forall i :: 0 <= i < |s| ==> !('A' <= s[i] <= 'Z')) ==> Lower(s) == s
  {
  }

  /**
   * `a <= b` for Rust strings: byte-wise comparison of the UTF-8 encodings,
   * which is the lexicographic order on code points. A name sorts before
   * every longer name that starts with it, and never after it.
   */
  predicate NameLe(a: string, b: string)
    ensures |a| <= |b| && a == b[..|a|] ==> NameLe(a, b)
    ensures |b| < |a| && b == a[..|b|] ==> !NameLe(a, b)
  {
    a == [] || (b != [] && (a[0] < b[0] || (a[0] == b[0] && NameLe(a[1..], b[1..]))))
  }

  lemma {:induction false} NameLeReflexive(a: string)
    ensures NameLe(a, a)
  {
    if a != [] {
      NameLeReflexive(a[1..]);
    }
  }

  lemma {:induction false} NameLeTotal(a: string, b: string)
    ensures NameLe(a, b) || NameLe(b, a)
  {
    if a != [] && b != [] && a[0] == b[0] {
      NameLeTotal(a[1..], b[1..]);
    }
  }

  lemma {:induction false} NameLeAntisymmetric(a: string, b: string)
    requires NameLe(a, b) && NameLe(b, a)
    ensures a == b
  {
    if a != [] && b != [] {
      NameLeAntisymmetric(a[1..], b[1..]);
      assert a == [a[0]] + a[1..] && b == [b[0]] + b[1..];
    }
  }

  lemma {:induction false} NameLeTransitive(a: string, b: string, c: string)
    requires NameLe(a, b) && NameLe(b, c)
    ensures NameLe(a, c)
  {
    if a != [] && b != [] && c != [] && a[0] == b[0] == c[0] {
      NameLeTransitive(a[1..], b[1..], c[1..]);
    }
  }

  /** The decimal digit for 0 <= d < 10. */
  function DigitChar(d: nat): char
    requires d < 10
  {
    ('0' as int + d) as char
  }

  /** The value of a decimal digit character, or 0 for any other character. */
  function DigitValue(c: char): nat
  {
    if '0' <= c <= '9' then c as int - '0' as int else 0
  }

  /** `format!("{}", n)` for an unsigned integer: its decimal digits, no sign, no leading zero. */
  function NatToString(n: nat): (r: string)
    ensures r != []
    ensures forall i :: 0 <= i < |r| ==> '0' <= r[i] <= '9'
    ensures n >= 10 ==> r[0] != '0'
  {
    if n < 10 then [DigitChar(n)] else NatToString(n / 10) + [DigitChar(n % 10)]
  }

  /** Reads a string of decimal digits back as a number. */
  function Value(s: string): nat
  {
    if s == [] then 0 else 10 * Value(s[..|s| - 1]) + DigitValue(s[|s| - 1])
  }

  /** The decimal text of a count determines the count: reading it back gives the count. */
  lemma {:induction false} ValueOfNatToString(n: nat)
    ensures Value(NatToString(n)) == n
  {
    var r := NatToString(n);
    if n >= 10 {
      ValueOfNatToString(n / 10);
      assert r[..|r| - 1] == NatToString(n / 10);
    }
  }

  /** Two counts print alike only when they are equal. */
  lemma NatToStringInjective(m: nat, n: nat)
    requires NatToString(m) == NatToString(n)
    ensures m == n
  {
    ValueOfNatToString(m);
    ValueOfNatToString(n);
  }

  /** The length of the run of decimal digits that starts the text. */
  function LeadingDigits(t: string): nat
  {
    if t != [] && '0' <= t[0] <= '9' then 1 + LeadingDigits(t[1..]) else 0
  }

  /** Digits followed by a non-digit: the leading run is exactly those digits. */
  lemma {:induction false} LeadingDigitsOf(x: string, sep: char, y: string)
    requires forall i :: 0 <= i < |x| ==> '0' <= x[i] <= '9'
    requires !('0' <= sep <= '9')
    ensures LeadingDigits(x + [sep] + y) == |x|
  {
    if x != [] {
      assert (x + [sep] + y)[1..] == x[1..] + [sep] + y;
      LeadingDigitsOf(x[1..], sep, y);
    }
  }

  /**
   * A run of decimal digits ended by a separator that is not a digit splits a
   * text in one way only: the digits and what follows the separator are fixed.
   */
  lemma DigitsThenSeparator(x1: string, y1: string, x2: string, y2: string, sep: char)
    requires forall i :: 0 <= i < |x1| ==> '0' <= x1[i] <= '9'
    requires forall i :: 0 <= i < |x2| ==> '0' <= x2[i] <= '9'
    requires !('0' <= sep <= '9')
    requires x1 + [sep] + y1 == x2 + [sep] + y2
    ensures x1 == x2 && y1 == y2
  {
    var t := x1 + [sep] + y1;
    LeadingDigitsOf(x1, sep, y1);
    LeadingDigitsOf(x2, sep, y2);
    assert x1 == t[..|x1|] && x2 == t[..|x2|];
    assert y1 == t[|x1| + 1..] && y2 == t[|x2| + 1..];
  }
}
