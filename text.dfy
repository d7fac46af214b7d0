/** Character-level helpers used by the fixed-width renderers: Ruby's
    `String#ljust`, `String#rjust`, `String#*`, `Integer#to_s` and the
    successive `output += field` concatenation of a record. */
module Text {

  function Max(a: int, b: int): int { if a < b then b else a }

  /** `c * n` in Ruby (`" " * 7`): n copies of one character. */
  function Repeat(c: char, n: nat): (r: string)
    ensures |r| == n
    ensures forall i :: 0 <= i < n ==> r[i] == c
  {
    seq(n, _ => c)
  }

  function Spaces(n: nat): (r: string)
    ensures |r| == n && forall i :: 0 <= i < n ==> r[i] == ' '
  {
    Repeat(' ', n)
  }

  /** `s.ljust(width, pad)`: pads on the right up to `width`, never truncates. */
  function LJust(s: string, width: nat, pad: char): (r: string)
    ensures |r| == Max(|s|, width)
    ensures r[..|s|] == s
    ensures forall i :: |s| <= i < |r| ==> r[i] == pad
  {
    if |s| >= width then s else s + Repeat(pad, width - |s|)
  }

  /** `s.rjust(width, pad)`: pads on the left up to `width`, never truncates. */
  function RJust(s: string, width: nat, pad: char): (r: string)
    ensures |r| == Max(|s|, width)
    ensures r[|r| - |s|..] == s
    ensures forall i :: 0 <= i < |r| - |s| ==> r[i] == pad
  {
    if |s| >= width then s else Repeat(pad, width - |s|) + s
  }

  /** Drops every trailing `pad` character: how a reader recovers a
      left-justified field. */
  function TrimEnd(s: string, pad: char): (r: string)
    ensures r <= s
    ensures r == [] || r[|r| - 1] != pad
    ensures forall i :: |r| <= i < |s| ==> s[i] == pad
  {
    if s == [] || s[|s| - 1] != pad then s else TrimEnd(s[..|s| - 1], pad)
  }

  /** A left-justified field gives back its value once the padding is
      trimmed, provided the value itself does not end in the pad character. */
  lemma {:induction false} TrimEndLJust(s: string, width: nat, pad: char)
    requires s == [] || s[|s| - 1] != pad
    ensures TrimEnd(LJust(s, width, pad), pad) == s
  {
    var r := LJust(s, width, pad);
    if |r| > |s| {
      TrimEndLJust(s, width - 1, pad);
      assert r[..|r| - 1] == LJust(s, width - 1, pad);
    }
  }

  predicate IsDigit(c: char) { '0' <= c <= '9' }

  predicate AllDigits(s: string) { forall i :: 0 <= i < |s| ==> IsDigit(s[i]) }

  function DigitChar(d: nat): (c: char)
    requires d < 10
    ensures IsDigit(c)
  {
    (48 + d) as char
  }

  function DigitValue(c: char): (d: nat)
    requires IsDigit(c)
    ensures d < 10 && DigitChar(d) == c
  {
    c as int - 48
  }

  /** `n.to_s` for a non-negative integer: its decimal digits, without sign
      and without leading zeros. */
  function Decimal(n: nat): (r: string)
    ensures 1 <= |r|
    ensures AllDigits(r)
    ensures |r| > 1 ==> r[0] != '0'
  {
    if n < 10 then [DigitChar(n)] else Decimal(n / 10) + [DigitChar(n % 10)]
  }

  /** The value of a string of decimal digits (the empty string is 0). */
  function ParseDecimal(s: string): nat
    requires AllDigits(s)
  {
    if s == [] then 0 else 10 * ParseDecimal(s[..|s| - 1]) + DigitValue(s[|s| - 1])
  }

  function Pow10(k: nat): (p: nat)
    ensures p >= 1
  {
    if k == 0 then 1 else 10 * Pow10(k - 1)
  }

  /** Reading the digits `to_s` wrote gives back the integer. */
  lemma {:induction false} ParseDecimalOfDecimal(n: nat)
    ensures ParseDecimal(Decimal(n)) == n
  {
    var r := Decimal(n);
    if n >= 10 {
      ParseDecimalOfDecimal(n / 10);
      assert r[..|r| - 1] == Decimal(n / 10);
    }
  }

  /** Leading zeros do not change the value of a digit string. */
  lemma {:induction false} ParseDecimalLeadingZeros(k: nat, s: string)
    requires AllDigits(s)
    ensures AllDigits(Repeat('0', k) + s)
    ensures ParseDecimal(Repeat('0', k) + s) == ParseDecimal(s)
  {
    var z := Repeat('0', k) + s;
    if s == [] {
      if k > 0 {
        ParseDecimalLeadingZeros(k - 1, s);
        assert z[..|z| - 1] == Repeat('0', k - 1) + s;
      }
    } else {
      ParseDecimalLeadingZeros(k, s[..|s| - 1]);
      assert z[..|z| - 1] == Repeat('0', k) + s[..|s| - 1];
    }
  }

  /** A zero-padded amount field (`n.to_s.rjust(w, "0")`) holds digits only
      and reads back as the amount, whatever the width. */
  lemma ZeroPaddedRoundTrip(n: nat, width: nat)
    ensures AllDigits(RJust(Decimal(n), width, '0'))
    ensures ParseDecimal(RJust(Decimal(n), width, '0')) == n
  {
    var d := Decimal(n);
    ParseDecimalOfDecimal(n);
    if |d| < width {
      ParseDecimalLeadingZeros(width - |d|, d);
    }
  }

  /** `n.to_s` fits in k characters exactly when n < 10^k. */
  lemma {:induction false} DecimalFits(n: nat, k: nat)
    requires k >= 1
    ensures |Decimal(n)| <= k <==> n < Pow10(k)
  {
    if n >= 10 {
      if k == 1 {
        assert |Decimal(n)| >= 2 by { assert Decimal(n) == Decimal(n / 10) + [DigitChar(n % 10)]; }
      } else {
        DecimalFits(n / 10, k - 1);
      }
    }
  }

  /** The successive `output += field` of a record: fields joined without
      separator, in order. */
  function Concat(fields: seq<string>): (r: string)
  {
    if fields == [] then [] else Concat(fields[..|fields| - 1]) + fields[|fields| - 1]
  }

  lemma ConcatAppend(fields: seq<string>, last: string)
    ensures Concat(fields + [last]) == Concat(fields) + last
  {
    assert (fields + [last])[..|fields|] == fields;
  }

  /** `offsets` lists where each field starts, followed by the record's end. */
  ghost predicate Tiles(fields: seq<string>, offsets: seq<nat>)
  {
    && |offsets| == |fields| + 1
    && offsets[0] == 0
    && forall k :: 0 <= k < |fields| ==> offsets[k + 1] == offsets[k] + |fields[k]|
  }

  /** A concatenated record ends at the last offset. */
  lemma {:induction false} ConcatLength(fields: seq<string>, offsets: seq<nat>)
    requires Tiles(fields, offsets)
    ensures |Concat(fields)| == offsets[|fields|]
  {
    if fields != [] {
      var n := |fields| - 1;
      assert Tiles(fields[..n], offsets[..n + 1]);
      ConcatLength(fields[..n], offsets[..n + 1]);
    }
  }

  /** Field k of a concatenated record sits exactly between its offsets. */
  lemma {:induction false} ConcatField(fields: seq<string>, offsets: seq<nat>, k: nat)
    requires Tiles(fields, offsets) && k < |fields|
    ensures offsets[k] <= offsets[k + 1] <= |Concat(fields)|
    ensures Concat(fields)[offsets[k]..offsets[k + 1]] == fields[k]
  {
    var n := |fields| - 1;
    var front := fields[..n];
    assert Tiles(front, offsets[..n + 1]);
    ConcatLength(fields, offsets);
    ConcatLength(front, offsets[..n + 1]);
    OffsetsIncrease(fields, offsets, k + 1, n + 1);
    if k < n {
      ConcatField(front, offsets[..n + 1], k);
      OffsetsIncrease(fields, offsets, k + 1, n);
    }
  }

  lemma {:induction false} OffsetsIncrease(fields: seq<string>, offsets: seq<nat>, i: nat, j: nat)
    requires Tiles(fields, offsets) && i <= j <= |fields|
    ensures offsets[i] <= offsets[j]
  {
    if i < j {
      OffsetsIncrease(fields, offsets, i, j - 1);
    }
  }

  /** `strings.join(sep)` in Ruby. */
  function Join(strings: seq<string>, sep: string): (r: string)
  {
    if strings == [] then []
    else if |strings| == 1 then strings[0]
    else Join(strings[..|strings| - 1], sep) + sep + strings[|strings| - 1]
  }
}
