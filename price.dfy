/**
 * Price parsing of src/utils/price.js: a number passes through, a display
 * string is reduced to its decimal digits, which are read as an integer
 * (0 when there are none).
 */
module Price {
  import opened Model

  /** JavaScript's `\d`: an ASCII decimal digit. */
  predicate IsDigit(c: char) {
    '0' <= c <= '9'
  }

  predicate AllDigits(s: string) {
    forall k :: 0 <= k < |s| ==> IsDigit(s[k])
  }

  /** `s.replace(/[^\d]/g, '')`: the digits of `s`, in order. */
  function Digits(s: string): (d: string)
    ensures AllDigits(d) && |d| <= |s|
  {
    if s == [] then []
    else (if IsDigit(s[0]) then [s[0]] else []) + Digits(s[1..])
  }

  function DigitValue(c: char): (v: int)
    requires IsDigit(c)
    ensures 0 <= v <= 9
  {
    c as int - '0' as int
  }

  /** The value of a string of decimal digits, most significant first (`parseInt` of it). */
  function DecimalValue(d: string): (v: int)
    requires AllDigits(d)
    ensures v >= 0
    ensures d == [] ==> v == 0
  {
    if d == [] then 0
    else DecimalValue(d[..|d| - 1]) * 10 + DigitValue(d[|d| - 1])
  }

  /**
   * `parsePrice`. `parseInt` of an empty digit string is NaN, which `|| 0`
   * turns into 0; that is DecimalValue of the empty string.
   */
  function ParsePrice(p: PriceValue): (r: int)
    ensures p.Amount? ==> r == p.n
    ensures p.Text? ==> r >= 0
    ensures p.Text? && Digits(p.s) == [] ==> r == 0
  {
    match p
    case Amount(n) => n
    case Text(s) => DecimalValue(Digits(s))
  }

  /** The canonical decimal rendering of a natural number, without leading zeros. */
  function DecimalString(n: nat): (s: string)
    ensures AllDigits(s) && |s| >= 1
  {
    var c := ('0' as int + n % 10) as char;
    if n < 10 then [c] else DecimalString(n / 10) + [c]
  }

  lemma {:induction false} DecimalValueOfDecimalString(n: nat)
    ensures DecimalValue(DecimalString(n)) == n
  {
    var s := DecimalString(n);
    if n >= 10 {
      DecimalValueOfDecimalString(n / 10);
      assert s[..|s| - 1] == DecimalString(n / 10);
    }
  }

  /** Digit extraction keeps a string of digits whole. */
  lemma {:induction false} DigitsOfAllDigits(s: string)
    requires AllDigits(s)
    ensures Digits(s) == s
  {
    if s != [] {
      DigitsOfAllDigits(s[1..]);
    }
  }

  /** Parsing the plain decimal rendering of any natural number gives it back. */
  lemma ParsePriceOfDecimalString(n: nat)
    ensures ParsePrice(Text(DecimalString(n))) == n
  {
    DigitsOfAllDigits(DecimalString(n));
    DecimalValueOfDecimalString(n);
  }

  predicate NoDigits(s: string) {
    forall k :: 0 <= k < |s| ==> !IsDigit(s[k])
  }

  lemma {:induction false} DigitsOfNoDigits(s: string)
    requires NoDigits(s)
    ensures Digits(s) == []
  {
    if s != [] {
      DigitsOfNoDigits(s[1..]);
    }
  }

  lemma {:induction false} DigitsAppend(a: string, b: string)
    ensures Digits(a + b) == Digits(a) + Digits(b)
  {
    if a == [] {
      assert a + b == b;
    } else {
      assert (a + b)[1..] == a[1..] + b;
      DigitsAppend(a[1..], b);
    }
  }

  /**
   * Inserting a run of non-digit characters anywhere in a string (or, read
   * from right to left, deleting one) does not change the parsed price.
   */
  lemma ParsePriceIgnoresNonDigits(a: string, junk: string, b: string)
    requires NoDigits(junk)
    ensures ParsePrice(Text(a + junk + b)) == ParsePrice(Text(a + b))
  {
    DigitsAppend(a + junk, b);
    DigitsAppend(a, junk);
    DigitsAppend(a, b);
    DigitsOfNoDigits(junk);
    assert Digits(a + junk) == Digits(a);
  }

  /** A string without digits parses to 0; parsing never fails. */
  lemma ParsePriceWithoutDigits(s: string)
    requires NoDigits(s)
    ensures ParsePrice(Text(s)) == 0
  {
    DigitsOfNoDigits(s);
  }

  /**
   * A label without digits, a group of digits, a separator without digits and
   * a second group: the digits are the two groups read together.
   */
  lemma DigitsOfGrouped(tag: string, x: string, sep: string, y: string)
    requires NoDigits(tag) && NoDigits(sep) && AllDigits(x) && AllDigits(y)
    ensures Digits(tag + x + sep + y) == x + y
  {
    var lx := tag + x;
    var lxs := lx + sep;
    assert Digits(lx) == x by { DigitsOfNoDigits(tag); DigitsAppend(tag, x); DigitsOfAllDigits(x); }
    assert Digits(lxs) == x by { DigitsOfNoDigits(sep); DigitsAppend(lx, sep); }
    assert Digits(lxs + y) == x + y by { DigitsAppend(lxs, y); DigitsOfAllDigits(y); }
  }

  /** The catalog's display shape "Rp <thousands>.<three digits>" parses to the digits read together. */
  lemma ParsePriceOfGroupedRupiah(x: string, y: string)
    requires AllDigits(x) && AllDigits(y)
    ensures ParsePrice(Text("Rp " + x + "." + y)) == DecimalValue(x + y)
  {
    DigitsOfGrouped("Rp ", x, ".", y);
  }

  lemma DecimalValueOfSample()
    ensures DecimalValue("25000") == 25000
  {
    assert "25000"[..4] == "2500";
    assert "2500"[..3] == "250";
    assert "250"[..2] == "25";
    assert "25"[..1] == "2";
    assert DecimalValue("2") == 2;
    assert DecimalValue("25") == 25;
    assert DecimalValue("250") == 250;
    assert DecimalValue("2500") == 2500;
  }

  /** The first catalog price, "Rp 25.000", is 25000. */
  lemma ParsePriceOfRupiahText()
    ensures ParsePrice(Text("Rp 25.000")) == 25000
  {
    assert "Rp " + "25" + "." + "000" == "Rp 25.000";
    ParsePriceOfGroupedRupiah("25", "000");
    assert "25" + "000" == "25000";
    DecimalValueOfSample();
  }
}
