/** The partial record that the receipt scanner fills (the dictionary `data` of
    `receipt_to_df`) and the small helpers of `shipt/receipts.py`:
    `strip_punc`, `is_number` and `to_number_or_none`. */
module Receipts {
  import opened Wrappers
  import opened PyStr

  /** A money field: the text the scanner cut from a line, or the result of
      `to_number_or_none` on it (a number, NaN, or `None`). */
  datatype Money = Raw(text: string) | Num(x: real) | NaN | Null

  /** `order_total` is the text cut from an Order line, or `np.nan` when the line
      is too short to hold one; NaN is present, not absent. */
  datatype OrderTotal = Written(text: string) | NotANumber

  /** One receipt's fields; `None` is a key missing from the dictionary. */
  datatype Record = Record(
    orderNumber: Option<string>,
    orderTotal: Option<OrderTotal>,
    late: Option<bool>,
    deliveryOnly: Option<bool>,
    windowStart: Option<string>,
    windowEnd: Option<string>,
    deliveryDate: Option<string>,
    deliveredDate: Option<string>,
    deliveredTime: Option<string>,
    orderPay: Option<Money>,
    tip: Option<Money>,
    promoPay: Option<Money>,
    totalPay: Option<Money>,
    filename: Option<string>)

  /** The empty dictionary `{}`. */
  const Empty: Record :=
    Record(None, None, None, None, None, None, None, None, None, None, None, None, None, None)

  // ---------------------------------------------------------------- strip_punc

  /** A character of Python's `string.punctuation`: ``!"#$%&'()*+,-./:;<=>?@[\]^_`{|}~``. */
  predicate IsPunctuation(c: char)
  {
    ('!' <= c <= '/') || (':' <= c <= '@') || ('[' <= c <= '`') || ('{' <= c <= '~')
  }

  predicate NoPunctuation(s: string)
  {
    forall k | 0 <= k < |s| :: !IsPunctuation(s[k])
  }

  /** `strip_punc`: deletes every ASCII punctuation character. */
  function StripPunc(s: string): (r: string)
    ensures NoPunctuation(r)
    ensures |r| <= |s|
    ensures NoPunctuation(s) ==> r == s
    decreases |s|
  {
    if |s| == 0 then ""
    else (if IsPunctuation(s[0]) then "" else [s[0]]) + StripPunc(s[1..])
  }

  /** `strip_punc` works character by character: on a concatenation it is the
      concatenation of the results, so every other character stays, in order. */
  lemma {:induction false} StripPuncConcat(a: string, b: string)
    ensures StripPunc(a + b) == StripPunc(a) + StripPunc(b)
    decreases |a|
  {
    if |a| > 0 {
      assert (a + b)[0] == a[0];
      assert (a + b)[1..] == a[1..] + b;
      StripPuncConcat(a[1..], b);
    } else {
      assert a + b == b;
    }
  }

  /** On one character `strip_punc` keeps it exactly when it is not punctuation. */
  lemma StripPuncChar(c: char)
    ensures StripPunc([c]) == if IsPunctuation(c) then "" else [c]
  {
    assert [c][1..] == "";
  }

  /** The order number behind a `#` is what `strip_punc` leaves of the token. */
  lemma StripPuncHash(digits: string)
    requires NoPunctuation(digits)
    ensures StripPunc("#" + digits) == digits
  {
    StripPuncConcat("#", digits);
    StripPuncChar('#');
  }

  /** `strip_punc` is idempotent. */
  lemma StripPuncIdempotent(s: string)
    ensures StripPunc(StripPunc(s)) == StripPunc(s)
  {
  }

  // ---------------------------------------------------------------- numbers

  function Pow10(n: nat): (r: nat)
    ensures r >= 1
  {
    if n == 0 then 1 else 10 * Pow10(n - 1)
  }

  /** The text after an optional leading sign. */
  function Unsigned(s: string): (r: string)
  {
    if |s| > 0 && (s[0] == '+' || s[0] == '-') then s[1..] else s
  }

  /** `is_number`, and the strings `pd.to_numeric` turns into a number: an optional
      sign, then digits with at most one decimal point and at least one digit. */
  predicate IsNumber(s: string)
  {
    var parts := Split(Unsigned(s), ".");
    (|parts| == 1 && |parts[0]| > 0 && AllDigits(parts[0]))
    || (|parts| == 2 && AllDigits(parts[0]) && AllDigits(parts[1]) && |parts[0]| + |parts[1]| > 0)
  }

  /** The exact value of a number literal. */
  function NumberValue(s: string): (r: real)
    requires IsNumber(s)
  {
    var parts := Split(Unsigned(s), ".");
    var magnitude := DigitsValue(parts[0]) as real
      + (if |parts| == 2 then DigitsValue(parts[1]) as real / Pow10(|parts[1]|) as real else 0.0);
    if |s| > 0 && s[0] == '-' then -magnitude else magnitude
  }

  /** What `str(n)` prints is a number literal worth `n`. */
  lemma NumberOfIntString(n: int)
    ensures IsNumber(IntToString(n)) && NumberValue(IntToString(n)) == n as real
  {
    var m: nat := if n < 0 then -n else n;
    var digits := NatToString(m);
    var s := IntToString(n);
    assert Unsigned(s) == digits by {
      if n < 0 { assert s[1..] == digits; } else { assert !(digits[0] == '+' || digits[0] == '-'); }
    }
    assert '.' !in digits;
    SplitWithout(digits, '.');
    assert Split(Unsigned(s), ".") == [digits];
    NatToStringValue(m);
  }

  /** `to_number_or_none`: text becomes its number, the empty text becomes NaN
      (as `pd.to_numeric("")` does), and any other text becomes `None` because
      `pd.to_numeric` raises; a number or NaN stays as it is. */
  function ToNumberOrNone(m: Money): (r: Money)
    ensures !r.Raw?
    ensures !m.Raw? ==> r == m
    ensures m.Raw? ==> (r.Num? <==> IsNumber(m.text))
    ensures m.Raw? ==> (r.NaN? <==> m.text == "")
    ensures m.Raw? && IsNumber(m.text) ==> r == Num(NumberValue(m.text))
  {
    match m
    case Raw(t) => if IsNumber(t) then Num(NumberValue(t)) else if t == "" then NaN else Null
    case Num(x) => Num(x)
    case NaN => NaN
    case Null => Null
  }

  /** Coercing twice changes nothing more than coercing once. */
  lemma ToNumberOrNoneIdempotent(m: Money)
    ensures ToNumberOrNone(ToNumberOrNone(m)) == ToNumberOrNone(m)
  {
  }
}
