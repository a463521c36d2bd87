/**
  The catalog loader's normaliser (App.jsx, the `data.map(...)` inside the catalog effect):
  each raw JSON record becomes a cape with a name, a texture file, a whole-number price and an
  owner; missing or empty text fields take fixed defaults, and the price keeps only the digits of
  the raw price text. Also the decimal rendering of numbers that the status messages use.
*/
module Catalog {
  import opened Wrappers

  /** A normalised catalog item. */
  datatype Cape = Cape(name: string, texture: string, price: nat, owner: string)

  /** The raw `price` field: absent (or null), a string, or any other JSON value (number, boolean, ...). */
  datatype RawPrice = Absent | Text(text: string) | NotText

  /** A raw catalog record; a text field that is absent or null is `None`. */
  datatype RawCape = RawCape(name: Option<string>, texture: Option<string>, price: RawPrice, owner: Option<string>)

  const DefaultName := "Cape inconnue"
  const DefaultTexture := "default.png"
  const DefaultOwner := "Aucun propriétaire"

  predicate IsDigit(c: char) {
    '0' <= c <= '9'
  }

  predicate AllDigits(s: string) {
    forall i :: 0 <= i < |s| ==> IsDigit(s[i])
  }

  function DigitValue(c: char): nat
    requires IsDigit(c)
  {
    c as int - '0' as int
  }

  function DigitChar(d: nat): (c: char)
    requires d < 10
    ensures IsDigit(c) && DigitValue(c) == d
  {
    ('0' as int + d) as char
  }

  /** `s.replace(/\D/g, '')`: the digit characters of `s`, in their order. */
  function Digits(s: string): (r: string)
    ensures AllDigits(r)
    ensures |r| <= |s|
  {
    if s == [] then []
    else (if IsDigit(s[0]) then [s[0]] else []) + Digits(s[1..])
  }

  /** The value `parseInt` reads from a string of digits, scanning left to right. */
  function DecimalValue(d: string): nat
    requires AllDigits(d)
  {
    if d == [] then 0 else DecimalValue(d[..|d| - 1]) * 10 + DigitValue(d[|d| - 1])
  }

  /**
    `parseInt(cape.price?.replace(/\D/g, '')) || 0` for a price that is absent or a string:
    parseInt of `undefined` and of the empty string is NaN, and `|| 0` turns NaN (and 0) into 0.
  */
  function PriceOf(text: Option<string>): nat {
    match text
    case None => 0
    case Some(s) => var d := Digits(s); if d == [] then 0 else DecimalValue(d)
  }

  /** `v || fallback` for a text field: an absent or empty string gives the fallback. */
  function OrDefault(v: Option<string>, fallback: string): (r: string)
    ensures r == fallback || (v.Some? && r == v.value)
  {
    if v.Some? && v.value != "" then v.value else fallback
  }

  /**
    One record through the normaliser. A price that is neither absent nor a string has no
    `replace` method, so the call throws: `None` stands for that failure.
  */
  function NormaliseCape(raw: RawCape): (r: Option<Cape>)
    ensures r.None? <==> raw.price.NotText?
    ensures r.Some? ==> r.value.name != "" && r.value.texture != "" && r.value.owner != ""
    ensures r.Some? ==> (raw.name == None || raw.name == Some("")) ==> r.value.name == DefaultName
    ensures r.Some? ==> (raw.texture == None || raw.texture == Some("")) ==> r.value.texture == DefaultTexture
    ensures r.Some? ==> (raw.owner == None || raw.owner == Some("")) ==> r.value.owner == DefaultOwner
    ensures r.Some? && raw.name.Some? && raw.name.value != "" ==> r.value.name == raw.name.value
    ensures r.Some? && raw.texture.Some? && raw.texture.value != "" ==> r.value.texture == raw.texture.value
    ensures r.Some? && raw.owner.Some? && raw.owner.value != "" ==> r.value.owner == raw.owner.value
    ensures r.Some? ==> r.value.price == PriceOf(if raw.price.Text? then Some(raw.price.text) else None)
  {
    if raw.price.NotText? then None
    else
      Some(Cape(OrDefault(raw.name, DefaultName),
                OrDefault(raw.texture, DefaultTexture),
                PriceOf(if raw.price.Text? then Some(raw.price.text) else None),
                OrDefault(raw.owner, DefaultOwner)))
  }

  /**
    `data.map(...)` over the whole array: either every record normalises, in the same order,
    or one record throws and the load as a whole fails (`None`; the `.catch` then only logs).
  */
  function NormaliseCatalog(raws: seq<RawCape>): (r: Option<seq<Cape>>)
    ensures r.Some? <==> forall i :: 0 <= i < |raws| ==> !raws[i].price.NotText?
    ensures r.Some? ==> |r.value| == |raws|
    ensures r.Some? ==> forall i :: 0 <= i < |raws| ==> NormaliseCape(raws[i]) == Some(r.value[i])
  {
    if raws == [] then Some([])
    else
      match NormaliseCape(raws[0])
      case None => None
      case Some(c) =>
        match NormaliseCatalog(raws[1..])
        case None => None
        case Some(rest) => Some([c] + rest)
  }

  /** `${n}` for a whole number: its decimal digits, without leading zeros. */
  function Decimal(n: nat): (r: string)
    ensures r != [] && AllDigits(r)
    ensures r[0] == '0' ==> n == 0 && |r| == 1
  {
    if n < 10 then [DigitChar(n)] else Decimal(n / 10) + [DigitChar(n % 10)]
  }

  /** The value of a digit string as a sum of digits weighted by powers of ten (an independent reference). */
  function Positional(d: string): nat
    requires AllDigits(d)
  {
    if d == [] then 0 else DigitValue(d[0]) * Pow10(|d| - 1) + Positional(d[1..])
  }

  function Pow10(k: nat): (r: nat)
    ensures r >= 1
  {
    if k == 0 then 1 else 10 * Pow10(k - 1)
  }

  // ---------------------------------------------------------------------------------------
  // Properties of the price normaliser

  /** The digit filter distributes over concatenation. */
  lemma {:induction false} DigitsAppend(a: string, b: string)
    ensures Digits(a + b) == Digits(a) + Digits(b)
  {
    if a == [] {
      assert a + b == b;
    } else {
      assert (a + b)[0] == a[0];
      assert (a + b)[1..] == a[1..] + b;
      DigitsAppend(a[1..], b);
    }
  }

  /** A string of digits passes through the filter unchanged; in particular the filter is idempotent. */
  lemma {:induction false} DigitsOfDigits(s: string)
    requires AllDigits(s)
    ensures Digits(s) == s
  {
    if s != [] {
      DigitsOfDigits(s[1..]);
    }
  }

  /** Reading digits left to right agrees with the positional sum of the digits. */
  lemma {:induction false} DecimalValueIsPositional(d: string)
    requires AllDigits(d)
    ensures DecimalValue(d) == Positional(d)
  {
    if d != [] {
      var init, last := d[..|d| - 1], d[|d| - 1];
      assert d == init + [last];
      DecimalValueIsPositional(init);
      PositionalSnoc(init, last);
    }
  }

  lemma {:induction false} PositionalSnoc(d: string, c: char)
    requires AllDigits(d) && IsDigit(c)
    ensures AllDigits(d + [c])
    ensures Positional(d + [c]) == Positional(d) * 10 + DigitValue(c)
  {
    var dc := d + [c];
    if d == [] {
      assert dc == [c];
    } else {
      assert dc[0] == d[0];
      assert dc[1..] == d[1..] + [c];
      PositionalSnoc(d[1..], c);
      var x, p := DigitValue(d[0]), Pow10(|d| - 1);
      assert Pow10(|dc| - 1) == 10 * p;
      calc {
        Positional(dc);
        x * (10 * p) + Positional(d[1..] + [c]);
        x * (10 * p) + Positional(d[1..]) * 10 + DigitValue(c);
        { assert x * (10 * p) == (x * p) * 10; }
        (x * p + Positional(d[1..])) * 10 + DigitValue(c);
      }
    }
  }

  /** The normalised price is the positional value of the digits of the raw text, in order. */
  lemma PriceIsValueOfDigits(s: string)
    ensures PriceOf(Some(s)) == Positional(Digits(s))
  {
    DecimalValueIsPositional(Digits(s));
  }

  /** A character that is not a digit, wherever it stands, does not change the price. */
  lemma PriceIgnoresNonDigit(a: string, c: char, b: string)
    requires !IsDigit(c)
    ensures PriceOf(Some(a + [c] + b)) == PriceOf(Some(a + b))
  {
    DigitsAppend(a + [c], b);
    DigitsAppend(a, [c]);
    DigitsAppend(a, b);
    assert Digits([c]) == [] by {
      assert [c][1..] == [];
    }
    assert Digits(a + [c]) == Digits(a);
  }

  /** Reading back the decimal text of a number gives the number: the price parser undoes `${n}`. */
  lemma {:induction false} DecimalRoundTrip(n: nat)
    ensures DecimalValue(Decimal(n)) == n
    ensures PriceOf(Some(Decimal(n))) == n
  {
    var r := Decimal(n);
    if n >= 10 {
      DecimalRoundTrip(n / 10);
      assert r[..|r| - 1] == Decimal(n / 10);
    }
    DigitsOfDigits(r);
  }

  /** An example record: its price text `150¥` normalises to 150 and its other fields are kept. */
  lemma OmbreExample()
    ensures NormaliseCape(RawCape(Some("Cape Ombre"), Some("ombre.png"), Text("150¥"), Some("—")))
         == Some(Cape("Cape Ombre", "ombre.png", 150, "—"))
  {
    assert "150¥" == "150" + ['¥'];
    DigitsAppend("150", ['¥']);
    assert Digits(['¥']) == [] by {
      assert ['¥'][1..] == [];
    }
    DigitsOfDigits("150");
    var d := "150";
    assert d[..2] == "15" && ("15")[..1] == "1";
    assert DecimalValue(d) == 150;
  }
}
