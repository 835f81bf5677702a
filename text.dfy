/** String helpers the pages rely on: ASCII `toLowerCase`, `String.prototype.includes`,
    and the decimal text of an integer (`${id}` in a template) with the matching
    `parseInt`-style reader. */
module Text {
  import opened Common

  function LowerChar(c: char): (r: char)
    ensures 'A' <= c <= 'Z' ==> r as int == c as int + 32
    ensures !('A' <= c <= 'Z') ==> r == c
    ensures !('A' <= r <= 'Z')
  {
    if 'A' <= c <= 'Z' then (c as int + 32) as char else c
  }

  /** `s.toLowerCase()` restricted to ASCII letters. */
  function Lower(s: string): (r: string)
    ensures |r| == |s|
    ensures forall i :: 0 <= i < |s| ==> r[i] == LowerChar(s[i])
  {
    seq(|s|, i requires 0 <= i < |s| => LowerChar(s[i]))
  }

  lemma LowerIdempotent(s: string)
    ensures Lower(Lower(s)) == Lower(s)
  {
  }

  /** `needle` occurs in `hay` starting at position `i`. */
  ghost predicate OccursAt(hay: string, needle: string, i: int)
  {
    0 <= i && i + |needle| <= |hay| && hay[i..i + |needle|] == needle
  }

  predicate StartsWith(s: string, prefix: string)
  {
    |prefix| <= |s| && s[..|prefix|] == prefix
  }

  /** `hay.includes(needle)`. */
  predicate Includes(hay: string, needle: string)
    decreases |hay|
  {
    StartsWith(hay, needle) || (|hay| > 0 && Includes(hay[1..], needle))
  }

  /** `Includes` is the search for an occurrence at some index. */
  lemma {:induction false} IncludesIffOccurs(hay: string, needle: string)
    ensures Includes(hay, needle) <==> exists i :: OccursAt(hay, needle, i)
  {
    if StartsWith(hay, needle) {
      assert OccursAt(hay, needle, 0);
    } else if |hay| > 0 {
      IncludesIffOccurs(hay[1..], needle);
      if Includes(hay[1..], needle) {
        var i :| OccursAt(hay[1..], needle, i);
        assert hay[1..][i..i + |needle|] == hay[i + 1..i + 1 + |needle|];
        assert OccursAt(hay, needle, i + 1);
      } else {
        forall i | 0 < i && i + |needle| <= |hay|
          ensures !OccursAt(hay, needle, i)
        {
          assert hay[1..][i - 1..i - 1 + |needle|] == hay[i..i + |needle|];
          assert !OccursAt(hay[1..], needle, i - 1);
        }
        assert !OccursAt(hay, needle, 0);
      }
    } else {
      assert !OccursAt(hay, needle, 0);
    }
  }

  /** The empty string is included in every string, as in JavaScript. */
  lemma IncludesEmpty(hay: string)
    ensures Includes(hay, "")
  {
    assert StartsWith(hay, "");
  }

  // ---------------- decimal text ----------------

  predicate IsDigit(c: char) { '0' <= c <= '9' }

  function DigitChar(d: nat): (c: char)
    requires d < 10
    ensures IsDigit(c) && c as int - '0' as int == d
  {
    ('0' as int + d) as char
  }

  /** The shortest decimal text of a natural number, most significant digit first. */
  function NatText(n: nat): (r: string)
    ensures |r| > 0
    ensures forall i :: 0 <= i < |r| ==> IsDigit(r[i])
  {
    if n < 10 then [DigitChar(n)] else NatText(n / 10) + [DigitChar(n % 10)]
  }

  /** `String(i)` for an integer-valued JavaScript number. */
  function IntText(i: int): (r: string)
    ensures |r| > 0
  {
    if i < 0 then "-" + NatText(-i) else NatText(i)
  }

  /** Value of a run of decimal digits. */
  function DigitsValue(d: string): nat
    requires forall i :: 0 <= i < |d| ==> IsDigit(d[i])
  {
    if d == [] then 0
    else DigitsValue(d[..|d| - 1]) * 10 + DigitValue(d[|d| - 1])
  }

  function DigitValue(c: char): (d: nat)
    requires IsDigit(c)
    ensures d < 10
  {
    c as int - '0' as int
  }

  /** Number of leading decimal digits of `s`. */
  function LeadingDigits(s: string): (k: nat)
    ensures k <= |s|
    ensures forall i :: 0 <= i < k ==> IsDigit(s[i])
    ensures k < |s| ==> !IsDigit(s[k])
  {
    if |s| > 0 && IsDigit(s[0]) then 1 + LeadingDigits(s[1..]) else 0
  }

  /** Reads the leading run of decimal digits of `s`; yields its value and the unread rest. */
  function ReadDigits(s: string): Option<(nat, string)>
  {
    var k := LeadingDigits(s);
    if k == 0 then None else Some((DigitsValue(s[..k]), s[k..]))
  }

  /** Reads an optionally negative decimal integer from the front of `s`;
      yields the value and the unread rest. */
  function ReadInt(s: string): Option<(int, string)>
  {
    var neg := |s| > 0 && s[0] == '-';
    match ReadDigits(if neg then s[1..] else s)
    case None => None
    case Some((v, rest)) =>
      var w: int := v;
      var n: int := if neg then -w else w;
      Some((n, rest))
  }

  /** The text can be continued by `rest` without extending the number. */
  predicate EndsNumber(rest: string)
  {
    rest == [] || !IsDigit(rest[0])
  }

  lemma {:induction false} NatTextValue(n: nat)
    ensures DigitsValue(NatText(n)) == n
  {
    if n >= 10 {
      NatTextValue(n / 10);
      var t := NatText(n);
      assert t[..|t| - 1] == NatText(n / 10);
    }
  }

  lemma {:induction false} LeadingDigitsOf(d: string, rest: string)
    requires forall i :: 0 <= i < |d| ==> IsDigit(d[i])
    requires EndsNumber(rest)
    ensures LeadingDigits(d + rest) == |d|
  {
    if d != [] {
      assert (d + rest)[1..] == d[1..] + rest;
      LeadingDigitsOf(d[1..], rest);
    }
  }

  /** Reading back the digits of a natural number yields it and leaves the rest unread. */
  lemma {:induction false} ReadDigitsText(n: nat, rest: string)
    requires EndsNumber(rest)
    ensures ReadDigits(NatText(n) + rest) == Some((n, rest))
  {
    var t := NatText(n);
    LeadingDigitsOf(t, rest);
    NatTextValue(n);
    assert (t + rest)[..|t|] == t;
    assert (t + rest)[|t|..] == rest;
  }

  /** Reading back the text of an integer yields that integer and leaves the rest unread. */
  lemma {:induction false} ReadIntText(i: int, rest: string)
    requires EndsNumber(rest)
    ensures ReadInt(IntText(i) + rest) == Some((i, rest))
  {
    if i < 0 {
      ReadNegativeText(-i, rest);
      assert IntText(i) == "-" + NatText(-i);
    } else {
      ReadDigitsText(i, rest);
      assert IsDigit((NatText(i) + rest)[0]);
    }
  }

  lemma {:induction false} ReadNegativeText(n: int, rest: string)
    requires n > 0 && EndsNumber(rest)
    ensures ReadInt("-" + NatText(n) + rest) == Some((-n, rest))
  {
    var body := NatText(n) + rest;
    assert ("-" + NatText(n) + rest)[1..] == body;
    ReadDigitsText(n, rest);
  }

  /** A run of decimal digits without a leading zero: the form `NatText` writes. */
  predicate Canonical(d: string)
  {
    && |d| > 0
    && (forall i :: 0 <= i < |d| ==> IsDigit(d[i]))
    && (|d| > 1 ==> d[0] != '0')
  }

  lemma {:induction false} NatTextCanonical(n: nat)
    ensures Canonical(NatText(n))
    ensures n > 0 ==> NatText(n)[0] != '0'
  {
    if n >= 10 {
      NatTextCanonical(n / 10);
    }
  }

  /** Digits that do not start with `0` have a positive value. */
  lemma {:induction false} LeadingNonZero(d: string)
    requires |d| > 0 && forall i :: 0 <= i < |d| ==> IsDigit(d[i])
    requires d[0] != '0'
    ensures DigitsValue(d) > 0
  {
    if |d| > 1 {
      LeadingNonZero(d[..|d| - 1]);
    }
  }

  /** The inverse of `NatTextValue`: a canonical run of digits is the text of its value. */
  lemma {:induction false} CanonicalNatText(d: string)
    requires Canonical(d)
    ensures NatText(DigitsValue(d)) == d
  {
    var k := |d| - 1;
    if k == 0 {
      assert d[..k] == [];
      assert DigitChar(DigitValue(d[0])) == d[0];
      assert d == [d[0]];
    } else {
      var p := d[..k];
      CanonicalNatText(p);
      LeadingNonZero(p);
      var v := DigitsValue(d);
      assert v == DigitsValue(p) * 10 + DigitValue(d[k]);
      assert v / 10 == DigitsValue(p) && v % 10 == DigitValue(d[k]);
      assert DigitChar(DigitValue(d[k])) == d[k];
      assert d == p + [d[k]];
    }
  }
}
