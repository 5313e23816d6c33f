/** The text-to-amount coercion `Number(value) || 0` that both staging
    handlers of the inventory page apply to what the user typed. */
module Coercion {
  import opened Wrappers

  predicate IsDigit(c: char) {
    '0' <= c <= '9'
  }

  predicate AllDigits(s: string) {
    forall i :: 0 <= i < |s| ==> IsDigit(s[i])
  }

  function DigitValue(c: char): nat
    requires IsDigit(c)
  {
    c as int - '0' as int
  }

  /** The value of a run of decimal digits, most significant digit first. */
  function DigitsValue(ds: string): nat
    requires AllDigits(ds)
    decreases |ds|
  {
    if ds == [] then 0 else DigitsValue(ds[..|ds| - 1]) * 10 + DigitValue(ds[|ds| - 1])
  }

  predicate IsSign(c: char) {
    c == '-' || c == '+'
  }

  /** `Number(text)` on integer text: the empty text is 0, an optionally
      signed run of decimal digits is its value, and anything else is NaN
      (None). */
  function NumberOf(text: string): (r: Option<int>)
    ensures text == "" ==> r == Some(0)
    ensures r == None <==>
      exists i :: 0 <= i < |text| && !IsDigit(text[i]) && !(i == 0 && IsSign(text[i]) && |text| > 1)
    ensures r.Some? && text != "" && text[0] == '-' ==> r.value <= 0
    ensures r.Some? && text != "" && text[0] != '-' ==> r.value >= 0
  {
    if text == "" then Some(0)
    else if IsSign(text[0]) && |text| > 1 && AllDigits(text[1..]) then
      var magnitude: int := DigitsValue(text[1..]);
      Some(if text[0] == '-' then -magnitude else magnitude)
    else if AllDigits(text) then Some(DigitsValue(text))
    else None
  }

  /** `n || 0`: NaN is falsy and becomes 0; every number is kept (0 is
      falsy too, but `0 || 0` is 0 again). */
  function Coerce(parsed: Option<int>): (amount: int)
    ensures parsed.None? ==> amount == 0
    ensures parsed.Some? ==> amount == parsed.value
  {
    match parsed
    case None => 0
    case Some(n) => n
  }

  /** The amount a staging handler records for the typed `text`: what
      `Number` read, or 0 when it read NaN. */
  function AmountOf(text: string): (amount: int)
    ensures NumberOf(text) == Some(amount) || (NumberOf(text) == None && amount == 0)
  {
    Coerce(NumberOf(text))
  }

  function DigitChar(d: nat): (c: char)
    requires d < 10
    ensures IsDigit(c) && DigitValue(c) == d
  {
    ('0' as int + d) as char
  }

  /** The decimal digits of `n`, without leading zeros. */
  function Digits(n: nat): (s: string)
    ensures |s| > 0 && AllDigits(s)
  {
    if n < 10 then [DigitChar(n)] else Digits(n / 10) + [DigitChar(n % 10)]
  }

  /** The text a user types for the whole number `n`. */
  function Decimal(n: int): string {
    if n < 0 then "-" + Digits(-n) else Digits(n)
  }

  lemma {:induction false} DigitsValueOfDigits(n: nat)
    ensures DigitsValue(Digits(n)) == n
  {
    var s := Digits(n);
    if n >= 10 {
      DigitsValueOfDigits(n / 10);
      assert s[..|s| - 1] == Digits(n / 10);
    } else {
      assert s[..|s| - 1] == [];
    }
  }

  /** Typing the decimal text of any whole number stages exactly that number. */
  lemma DecimalRoundTrip(n: int)
    ensures NumberOf(Decimal(n)) == Some(n)
    ensures AmountOf(Decimal(n)) == n
  {
    if n < 0 {
      DigitsValueOfDigits(-n);
      assert Decimal(n)[1..] == Digits(-n);
    } else {
      DigitsValueOfDigits(n);
    }
  }

  /** Empty input is staged as 0. */
  lemma EmptyStagesZero()
    ensures AmountOf("") == 0
  {
  }

  /** Text that `Number` cannot read (NaN) is staged as 0, the same amount
      as typing "0". */
  lemma UnparseableStagesZero(text: string)
    requires NumberOf(text) == None
    ensures AmountOf(text) == 0 == AmountOf("0")
  {
    assert DigitsValue("0") == DigitsValue("") * 10 + 0;
  }

  /** In integer text, a character that is not a digit anywhere after the
      first position makes the text unreadable, so it stages 0. */
  lemma StrayCharacterStagesZero(text: string, i: nat)
    requires 0 < i < |text| && !IsDigit(text[i])
    ensures NumberOf(text) == None
    ensures AmountOf(text) == 0
  {
    assert text[1..][i - 1] == text[i];
  }
}
