/** The batch's `process_at` and its rendering with `strftime("%d%m%y%H%M")`.
    Only the calendar fields the format shows are kept; time zones, seconds
    and locale play no part in the rendered record. */
module Timestamps {
  import opened Text

  datatype Timestamp = Timestamp(year: int, month: int, day: int, hour: int, minute: int)
  {
    /** The ranges any Ruby `Time` value keeps its fields in. */
    predicate Valid() {
      && 1 <= month <= 12
      && 1 <= day <= 31
      && 0 <= hour <= 23
      && 0 <= minute <= 59
    }
  }

  /** A zero-padded two-digit field (`%d`, `%m`, `%y`, `%H`, `%M`). */
  function TwoDigits(n: nat): (r: string)
    requires n < 100
    ensures |r| == 2 && AllDigits(r)
  {
    [DigitChar(n / 10), DigitChar(n % 10)]
  }

  /** `%y` is the year modulo 100 (a floored modulus, as in Ruby). */
  function YearOfCentury(t: Timestamp): (y: nat)
    ensures y < 100 && (t.year - y) % 100 == 0
  {
    t.year % 100
  }

  /** `process_at.strftime("%d%m%y%H%M")`. */
  function Strftime(t: Timestamp): (r: string)
    requires t.Valid()
    ensures |r| == 10 && AllDigits(r)
  {
    TwoDigits(t.day) + TwoDigits(t.month) + TwoDigits(YearOfCentury(t))
      + TwoDigits(t.hour) + TwoDigits(t.minute)
  }

  lemma TwoDigitsValue(n: nat)
    requires n < 100
    ensures ParseDecimal(TwoDigits(n)) == n
  {
    var r := TwoDigits(n);
    assert r[..1] == [DigitChar(n / 10)] && r[..1][..0] == [];
    assert DigitValue(r[0]) == n / 10 && DigitValue(r[1]) == n % 10;
    assert ParseDecimal(r[..1]) == 10 * ParseDecimal(r[..1][..0]) + DigitValue(r[0]);
    assert ParseDecimal(r) == 10 * ParseDecimal(r[..1]) + DigitValue(r[1]);
  }

  /** Reading the ten digits back gives day, month, two-digit year, hour and
      minute, in that order. */
  lemma StrftimeFields(t: Timestamp)
    requires t.Valid()
    ensures var r := Strftime(t);
      && ParseDecimal(r[0..2]) == t.day
      && ParseDecimal(r[2..4]) == t.month
      && ParseDecimal(r[4..6]) == t.year % 100
      && ParseDecimal(r[6..8]) == t.hour
      && ParseDecimal(r[8..10]) == t.minute
  {
    var r := Strftime(t);
    var dd, mm, yy, hh, mi := TwoDigits(t.day), TwoDigits(t.month), TwoDigits(YearOfCentury(t)),
                              TwoDigits(t.hour), TwoDigits(t.minute);
    var p2, p3, p4 := dd + mm, dd + mm + yy, dd + mm + yy + hh;
    assert r == p4 + mi && r[..8] == p4;
    assert p4 == p3 + hh && p4[..6] == p3;
    assert p3 == p2 + yy && p3[..4] == p2;
    assert r[0..2] == p2[0..2] == dd;
    assert r[2..4] == p2[2..4] == mm;
    assert r[4..6] == p3[4..6] == yy;
    assert r[6..8] == p4[6..8] == hh;
    assert r[8..10] == mi;
    TwoDigitsValue(t.day);
    TwoDigitsValue(t.month);
    TwoDigitsValue(YearOfCentury(t));
    TwoDigitsValue(t.hour);
    TwoDigitsValue(t.minute);
  }
}
