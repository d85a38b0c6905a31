/** `guess_better_numbers` (shipt/receipts.py): repairs magnitude errors in the
    money fields of a flushed record, applies one additive correction, and makes
    up an order number when the scanned one is not an integer. */
module Reconcile {
  import opened Wrappers
  import opened PyStr
  import opened Receipts

  // ---------------------------------------------------------------- the divide-by-10 loops

  /** `round(x / 10, 2)`, with halves rounded up. */
  function Shrink(x: real): (r: real)
  {
    ((10.0 * x + 0.5).Floor as real) / 100.0
  }

  /** While the loop runs (`x > bound >= 0`), one step makes the value strictly
      smaller and keeps it non-negative; the hundredths count falls too, so the
      loop stops. */
  lemma ShrinkStep(x: real, bound: real)
    requires x > bound >= 0.0
    ensures 0.0 <= Shrink(x) < x
    ensures Shrink(x) > bound ==> (100.0 * Shrink(x)).Floor < (100.0 * x).Floor
  {
    var k := (10.0 * x + 0.5).Floor;
    assert 100.0 * Shrink(x) == k as real;
    if x < 0.05 {
      assert k == 0;
    } else {
      assert 100.0 * x >= k as real + 1.0;
    }
  }

  /** With a negative bound the loop never exits: every step leaves the value
      above the bound, since dividing by ten moves it towards zero. */
  lemma ShrinkStaysAboveNegative(x: real, bound: real)
    requires bound < 0.0 && x > bound
    ensures Shrink(x) > bound
  {
    var k := (10.0 * x + 0.5).Floor;
    assert k as real > 10.0 * x - 0.5;
    if 10.0 * x + 0.5 >= 0.0 {
      assert k >= 0;
    } else {
      assert k as real / 100.0 > bound;
    }
  }

  /** The value the loop `while x > bound: x = round(x / 10, 2)` ends with. */
  function ShrunkBelow(x: real, bound: real): (r: real)
    requires bound >= 0.0 || x <= bound
    ensures r <= bound
    ensures x <= bound ==> r == x
    ensures x > bound ==> r < x
    ensures 0.0 <= x ==> 0.0 <= r
    decreases if x > bound then (100.0 * x).Floor else -1
  {
    if x <= bound then x
    else
      ShrinkStep(x, bound);
      ShrunkBelow(Shrink(x), bound)
  }

  /** The loops at lines 76-77 and 79-80, on one value. */
  method ShrinkWhileAbove(x: real, bound: real) returns (r: real)
    requires bound >= 0.0 || x <= bound
    ensures r == ShrunkBelow(x, bound)
  {
    r := x;
    while r > bound
      invariant bound >= 0.0 || r <= bound
      invariant ShrunkBelow(r, bound) == ShrunkBelow(x, bound)
      decreases if r > bound then (100.0 * r).Floor else -1
    {
      ShrinkStep(r, bound);
      r := Shrink(r);
    }
  }

  /** The repair the tests expect: an order pay read with one digit too many
      (111.70 against a total of 11.17) comes back as 11.17. */
  lemma ShrinkExtraDigit()
    ensures ShrunkBelow(111.70, 11.17) == 11.17
  {
    assert Shrink(111.70) == 11.17;
  }

  // ---------------------------------------------------------------- the correction step

  datatype Pays = Pays(orderPay: real, tip: real, promoPay: real, totalPay: real)

  function Sum(p: Pays): (r: real)
  {
    p.orderPay + p.tip + p.promoPay
  }

  /** Lines 82-95: when the parts do not add up to the total, the first matching
      rule fires. The first rule compares instead of assigning (`==` at line 88),
      so it changes nothing; order pay and promo pay are never changed. */
  function Correct(p: Pays): (r: Pays)
    ensures r.orderPay == p.orderPay && r.promoPay == p.promoPay
    ensures r.totalPay <= p.totalPay
    ensures p.tip <= p.totalPay ==> r.tip == p.tip
  {
    if p.tip + p.orderPay + p.promoPay != p.totalPay then
      if p.orderPay > p.totalPay then p
      else if p.totalPay > p.orderPay + p.tip + p.promoPay then p.(totalPay := p.orderPay + p.tip + p.promoPay)
      else if p.tip > p.totalPay then p.(tip := p.totalPay - p.orderPay - p.promoPay)
      else p
    else p
  }

  /** Lines 82-95 as the source runs them, on the four numbers. */
  method CorrectPays(p: Pays) returns (r: Pays)
    ensures r == Correct(p)
  {
    r := p;
    if r.tip + r.orderPay + r.promoPay != r.totalPay {
      if r.orderPay > r.totalPay {
        // line 88 compares and discards the result
      } else if r.totalPay > r.orderPay + r.tip + r.promoPay {
        r := r.(totalPay := r.orderPay + r.tip + r.promoPay);
      } else if r.tip > r.totalPay {
        r := r.(tip := r.totalPay - r.orderPay - r.promoPay);
      }
    }
  }

  /** After the loops (order pay and tip at most the total) the correction can
      only lower the total to the sum of the parts; otherwise all four values stay.
      Either way the total ends at most the sum. */
  lemma CorrectAfterLoops(p: Pays)
    requires p.orderPay <= p.totalPay && p.tip <= p.totalPay
    ensures Correct(p) == if p.totalPay > Sum(p) then p.(totalPay := Sum(p)) else p
    ensures Correct(p).totalPay <= Sum(Correct(p))
  {
  }

  // ---------------------------------------------------------------- the order number

  /** Lines 98-101: `<int(tip)><int(total_pay)><second '/'-field of delivery_date>`,
      or `None` where the date has no `/` (an IndexError). */
  function NewOrderNumber(tip: real, total: real, deliveryDate: string): (r: Option<string>)
    ensures r.Some? ==> |r.value| >= 2
    ensures r.Some? <==> '/' in deliveryDate
  {
    SplitOnChar(deliveryDate, '/');
    var parts := Split(deliveryDate, "/");
    if |parts| < 2 then None
    else Some(IntToString(Trunc(tip)) + IntToString(Trunc(total)) + parts[1])
  }

  /** A split on one character has a second piece exactly when the character occurs. */
  lemma {:induction false} SplitOnChar(s: string, c: char)
    ensures |Split(s, [c])| >= 2 <==> c in s
    decreases |s|
  {
    if c !in s {
      SplitWithout(s, c);
    } else if s[0] == c {
      SplitAfter([], c, s[1..]);
      assert [] + [c] + s[1..] == s;
    } else {
      assert c in s[1..] by {
        var k :| 0 <= k < |s| && s[k] == c;
        assert s[1..][k - 1] == c;
      }
      SplitOnChar(s[1..], c);
      assert s[..1] != [c];
    }
  }

  /** Tip 5, total 67, delivered 03/14/2024: `<tip><totalpay><delivery day-of-month>`
      (shipt/receipts.py:64) gives 56714. */
  lemma NewOrderNumberExample(date: string)
    requires date == "03/14/2024"
    ensures NewOrderNumber(5.0, 67.0, date) == Some("56714")
  {
    assert Split(date, "/")[1] == "14" by {
      assert date == "03" + ['/'] + ("14" + ['/'] + "2024");
      SplitAfter("03", '/', "14" + ['/'] + "2024");
      SplitAfter("14", '/', "2024");
    }
    assert '/' in date by { assert date[2] == '/'; }
    assert IntToString(Trunc(5.0)) == "5" by { assert Trunc(5.0) == 5; }
    assert IntToString(Trunc(67.0)) == "67" by {
      assert Trunc(67.0) == 67;
      assert NatToString(6) == "6";
      assert NatToString(67) == NatToString(6) + [DigitChar(7)];
    }
    assert "5" + "67" + "14" == "56714";
  }

  // ---------------------------------------------------------------- guess_better_numbers

  /** Lines 70-73: the four money fields through `to_number_or_none`. */
  function Coerced(d: Record): (c: Record)
    requires d.tip.Some? && d.orderPay.Some? && d.promoPay.Some? && d.totalPay.Some?
  {
    d.(tip := Some(ToNumberOrNone(d.tip.value)),
       totalPay := Some(ToNumberOrNone(d.totalPay.value)),
       orderPay := Some(ToNumberOrNone(d.orderPay.value)),
       promoPay := Some(ToNumberOrNone(d.promoPay.value)))
  }

  /** The repair runs (past both early returns): tip, order pay and promo pay are
      present, and order pay and total pay are not `None` once coerced. */
  predicate Repairs(d: Record)
  {
    d.tip.Some? && d.orderPay.Some? && d.promoPay.Some? && d.totalPay.Some?
    && !ToNumberOrNone(d.orderPay.value).Null? && !ToNumberOrNone(d.totalPay.value).Null?
  }

  /** Lines 102-108: the made-up number replaces a missing or non-integer one. */
  function WithOrderNumber(r: Record, newNumber: string): (o: Record)
  {
    if r.orderNumber.Some? && IsIntLiteral(r.orderNumber.value) then r
    else r.(orderNumber := Some(newNumber))
  }

  /** What `guess_better_numbers(data)` returns, raises, or that it never returns. */
  function Reconciled(d: Record): (r: Outcome<Record>)
  {
    if d.tip.None? || d.orderPay.None? || d.promoPay.None? then Done(d)
    else if d.totalPay.None? then Raised(KeyError)
    else
      var c := Coerced(d);
      if c.orderPay.value.Null? || c.totalPay.value.Null? then Done(c)
      else Repaired(c)
  }

  /** Lines 76-108 on a coerced record whose order pay and total pay are not `None`.
      A comparison with NaN is false, so a loop runs only on two numbers; a
      comparison with `None` and a sum with `None` raise TypeError. */
  function Repaired(c: Record): (r: Outcome<Record>)
    requires c.orderPay.Some? && !c.orderPay.value.Raw? && !c.orderPay.value.Null?
    requires c.totalPay.Some? && !c.totalPay.value.Raw? && !c.totalPay.value.Null?
    requires c.tip.Some? && !c.tip.value.Raw? && c.promoPay.Some? && !c.promoPay.value.Raw?
  {
    var pay, total, tip, promo := c.orderPay.value, c.totalPay.value, c.tip.value, c.promoPay.value;
    if pay.Num? && total.Num? && total.x < 0.0 && pay.x > total.x then Diverges
    else if tip.Null? then Raised(TypeError)
    else if tip.Num? && total.Num? && total.x < 0.0 && tip.x > total.x then Diverges
    else if promo.Null? then Raised(TypeError)
    else
      var pay1 := if pay.Num? && total.Num? then Num(ShrunkBelow(pay.x, total.x)) else pay;
      var tip1 := if tip.Num? && total.Num? then Num(ShrunkBelow(tip.x, total.x)) else tip;
      if pay1.Num? && tip1.Num? && promo.Num? && total.Num? then
        var p := Correct(Pays(pay1.x, tip1.x, promo.x, total.x));
        Numbered(c.(orderPay := Some(Num(p.orderPay)), tip := Some(Num(p.tip)),
                    promoPay := Some(Num(p.promoPay)), totalPay := Some(Num(p.totalPay))), p.tip, p.totalPay)
      else if !tip1.Num? || !total.Num? then Raised(ValueError)
      else Numbered(c.(orderPay := Some(pay1), tip := Some(tip1)), tip1.x, total.x)
  }

  /** Lines 97-108 on the corrected record, whose tip and total pay are numbers. */
  function Numbered(fixed: Record, tip: real, total: real): (r: Outcome<Record>)
  {
    if fixed.deliveryDate.None? then Raised(KeyError)
    else
      match NewOrderNumber(tip, total, fixed.deliveryDate.value)
      case None => Raised(IndexError)
      case Some(number) => Done(WithOrderNumber(fixed, number))
  }

  /** `guess_better_numbers`, updating the record field by field as the source does. */
  method GuessBetterNumbers(data: Record) returns (o: Outcome<Record>)
    ensures o == Reconciled(data)
  {
    if data.tip.None? || data.orderPay.None? || data.promoPay.None? {
      return Done(data);
    }
    if data.totalPay.None? {
      return Raised(KeyError);
    }
    var d := data;
    d := d.(tip := Some(ToNumberOrNone(d.tip.value)));
    d := d.(totalPay := Some(ToNumberOrNone(d.totalPay.value)));
    d := d.(orderPay := Some(ToNumberOrNone(d.orderPay.value)));
    d := d.(promoPay := Some(ToNumberOrNone(d.promoPay.value)));
    ghost var coerced := Coerced(data);
    assert d == coerced;
    if d.orderPay.value.Null? || d.totalPay.value.Null? {
      return Done(d);
    }
    var total := d.totalPay.value;
    var pay := d.orderPay.value;
    // a comparison with NaN is false: the loops run only on numbers
    if pay.Num? && total.Num? {
      if total.x < 0.0 && pay.x > total.x {
        // the loop at line 76 never exits: see ShrinkStaysAboveNegative
        return Diverges;
      }
      var x := ShrinkWhileAbove(pay.x, total.x);
      pay := Num(x);
      d := d.(orderPay := Some(pay));
    }
    var tip := d.tip.value;
    if tip.Null? {
      // `None > total_pay` at line 79
      return Raised(TypeError);
    }
    if tip.Num? && total.Num? {
      if total.x < 0.0 && tip.x > total.x {
        return Diverges;
      }
      var x := ShrinkWhileAbove(tip.x, total.x);
      tip := Num(x);
      d := d.(tip := Some(tip));
    }
    var promo := d.promoPay.value;
    if promo.Null? {
      // `... + None` at line 82
      return Raised(TypeError);
    }
    assert d == coerced.(orderPay := Some(pay), tip := Some(tip));
    if pay.Num? && tip.Num? && promo.Num? && total.Num? {
      var p := CorrectPays(Pays(pay.x, tip.x, promo.x, total.x));
      tip, total := Num(p.tip), Num(p.totalPay);
      d := d.(tip := Some(tip), totalPay := Some(total));
      assert d == coerced.(orderPay := Some(Num(p.orderPay)), tip := Some(Num(p.tip)),
                           promoPay := Some(Num(p.promoPay)), totalPay := Some(Num(p.totalPay)));
    }
    // with a NaN among the four values the sum differs from the total, but every
    // comparison at lines 87-93 is false and nothing changes
    if !tip.Num? || !total.Num? {
      // `int(nan)` at line 99 or 100
      return Raised(ValueError);
    }
    assert Reconciled(data) == Numbered(d, tip.x, total.x);
    if d.deliveryDate.None? {
      return Raised(KeyError);
    }
    var parts := Split(d.deliveryDate.value, "/");
    if |parts| < 2 {
      return Raised(IndexError);
    }
    var newNumber := IntToString(Trunc(tip.x)) + IntToString(Trunc(total.x)) + parts[1];
    if d.orderNumber.None? || !IsIntLiteral(d.orderNumber.value) {
      d := d.(orderNumber := Some(newNumber));
    }
    return Done(d);
  }

  // ---------------------------------------------------------------- properties

  /** The fields the reconciler never touches. */
  predicate SameTextFields(a: Record, b: Record)
  {
    a.orderTotal == b.orderTotal && a.late == b.late && a.deliveryOnly == b.deliveryOnly
    && a.windowStart == b.windowStart && a.windowEnd == b.windowEnd
    && a.deliveryDate == b.deliveryDate && a.deliveredDate == b.deliveredDate
    && a.deliveredTime == b.deliveredTime && a.filename == b.filename
  }

  /** The two early returns: with tip, order pay or promo pay missing the record
      comes back as it was; with order pay or total pay `None` once coerced it comes
      back with only its money fields coerced. No order number is made up in either case. */
  lemma ReconciledEarlyReturns(d: Record)
    ensures d.tip.None? || d.orderPay.None? || d.promoPay.None? ==> Reconciled(d) == Done(d)
    ensures d.tip.Some? && d.orderPay.Some? && d.promoPay.Some? && d.totalPay.Some? && !Repairs(d) ==>
      Reconciled(d) == Done(Coerced(d)) && Coerced(d).orderNumber == d.orderNumber
  {
  }

  /** The four money fields are numbers once coerced. */
  predicate AllNumbers(d: Record)
  {
    d.tip.Some? && d.orderPay.Some? && d.promoPay.Some? && d.totalPay.Some?
    && ToNumberOrNone(d.orderPay.value).Num? && ToNumberOrNone(d.totalPay.value).Num?
    && ToNumberOrNone(d.tip.value).Num? && ToNumberOrNone(d.promoPay.value).Num?
  }

  /** A completed repair on four numbers: order pay and tip end at most the scanned
      total, the total only moves down and then to the sum of the parts, promo pay
      is only coerced, and afterwards the total is at most order pay + tip + promo pay. */
  lemma ReconciledBalances(d: Record)
    requires AllNumbers(d) && Reconciled(d).Done?
    ensures var r := Reconciled(d).value;
      var t0 := ToNumberOrNone(d.totalPay.value).x;
      r.orderPay.Some? && r.orderPay.value.Num? && r.tip.Some? && r.tip.value.Num?
      && r.promoPay.Some? && r.promoPay.value.Num? && r.totalPay.Some? && r.totalPay.value.Num?
      && r.promoPay.value == ToNumberOrNone(d.promoPay.value)
      && r.orderPay.value.x == ShrunkBelow(ToNumberOrNone(d.orderPay.value).x, t0)
      && r.tip.value.x == ShrunkBelow(ToNumberOrNone(d.tip.value).x, t0)
      && r.orderPay.value.x <= t0 && r.tip.value.x <= t0 && r.totalPay.value.x <= t0
      && r.totalPay.value.x <= r.orderPay.value.x + r.tip.value.x + r.promoPay.value.x
      && (r.totalPay.value.x < t0 ==>
            r.totalPay.value.x == r.orderPay.value.x + r.tip.value.x + r.promoPay.value.x)
  {
    var c := Coerced(d);
    var total := c.totalPay.value.x;
    var p0 := Pays(ShrunkBelow(c.orderPay.value.x, total), ShrunkBelow(c.tip.value.x, total),
                   c.promoPay.value.x, total);
    CorrectAfterLoops(p0);
  }

  /** A NaN among order pay and promo pay switches the correction step off: a
      completed repair keeps the coerced total and promo pay, a NaN order pay, and
      shrinks only the tip. */
  lemma ReconciledWithNaN(d: Record)
    requires Repairs(d) && Reconciled(d).Done?
    requires ToNumberOrNone(d.orderPay.value).NaN? || ToNumberOrNone(d.promoPay.value).NaN?
    ensures var c := Coerced(d); var r := Reconciled(d).value;
      r.promoPay == c.promoPay && r.totalPay == c.totalPay
      && c.tip.value.Num? && c.totalPay.value.Num?
      && r.tip == Some(Num(ShrunkBelow(c.tip.value.x, c.totalPay.value.x)))
      && (c.orderPay.value.NaN? ==> r.orderPay == c.orderPay)
  {
  }

  /** Line 102: the order number is kept when `int()` accepts it and replaced by
      the made-up one otherwise; tip and total pay are untouched. */
  lemma NumberedOrderNumber(fixed: Record, tip: real, total: real)
    requires Numbered(fixed, tip, total).Done?
    ensures var r := Numbered(fixed, tip, total).value;
      r.tip == fixed.tip && r.totalPay == fixed.totalPay
      && r.orderNumber.Some? && r.orderNumber.value != ""
      && (fixed.orderNumber.Some? && IsIntLiteral(fixed.orderNumber.value) ==> r.orderNumber == fixed.orderNumber)
      && (!(fixed.orderNumber.Some? && IsIntLiteral(fixed.orderNumber.value)) ==>
            r.orderNumber == NewOrderNumber(tip, total, fixed.deliveryDate.value))
  {
  }

  /** A completed repair leaves a non-empty order number: the scanned one when
      `int()` accepts it, and otherwise the one made up from tip, total and date. */
  lemma ReconciledOrderNumber(d: Record)
    requires Repairs(d) && Reconciled(d).Done?
    ensures var r := Reconciled(d).value;
      r.tip.Some? && r.tip.value.Num? && r.totalPay.Some? && r.totalPay.value.Num?
      && r.orderNumber.Some? && r.orderNumber.value != ""
      && (d.orderNumber.Some? && IsIntLiteral(d.orderNumber.value) ==> r.orderNumber == d.orderNumber)
      && (!(d.orderNumber.Some? && IsIntLiteral(d.orderNumber.value)) ==>
            r.orderNumber == NewOrderNumber(r.tip.value.x, r.totalPay.value.x, d.deliveryDate.value))
  {
    var c := Coerced(d);
    var pay, total, tip, promo := c.orderPay.value, c.totalPay.value, c.tip.value, c.promoPay.value;
    var pay1 := if pay.Num? && total.Num? then Num(ShrunkBelow(pay.x, total.x)) else pay;
    var tip1 := if tip.Num? && total.Num? then Num(ShrunkBelow(tip.x, total.x)) else tip;
    if pay1.Num? && tip1.Num? && promo.Num? && total.Num? {
      var p := Correct(Pays(pay1.x, tip1.x, promo.x, total.x));
      NumberedOrderNumber(c.(orderPay := Some(Num(p.orderPay)), tip := Some(Num(p.tip)),
                             promoPay := Some(Num(p.promoPay)), totalPay := Some(Num(p.totalPay))),
                          p.tip, p.totalPay);
    } else {
      NumberedOrderNumber(c.(orderPay := Some(pay1), tip := Some(tip1)), tip1.x, total.x);
    }
  }

  /** The made-up order number touches nothing else. */
  lemma NumberedKeepsTextFields(fixed: Record, tip: real, total: real)
    requires Numbered(fixed, tip, total).Done?
    ensures SameTextFields(Numbered(fixed, tip, total).value, fixed)
  {
  }

  /** Only the money fields and the order number can change. */
  lemma ReconciledKeepsTextFields(d: Record)
    requires Reconciled(d).Done?
    ensures SameTextFields(Reconciled(d).value, d)
  {
    if d.tip.Some? && d.orderPay.Some? && d.promoPay.Some? && d.totalPay.Some? {
      var c := Coerced(d);
      assert SameTextFields(c, d);
      if !c.orderPay.value.Null? && !c.totalPay.value.Null? {
        var pay, total, tip, promo := c.orderPay.value, c.totalPay.value, c.tip.value, c.promoPay.value;
        var pay1 := if pay.Num? && total.Num? then Num(ShrunkBelow(pay.x, total.x)) else pay;
        var tip1 := if tip.Num? && total.Num? then Num(ShrunkBelow(tip.x, total.x)) else tip;
        if pay1.Num? && tip1.Num? && promo.Num? && total.Num? {
          var p := Correct(Pays(pay1.x, tip1.x, promo.x, total.x));
          var fixed := c.(orderPay := Some(Num(p.orderPay)), tip := Some(Num(p.tip)),
                          promoPay := Some(Num(p.promoPay)), totalPay := Some(Num(p.totalPay)));
          NumberedKeepsTextFields(fixed, p.tip, p.totalPay);
        } else if tip1.Num? && total.Num? {
          NumberedKeepsTextFields(c.(orderPay := Some(pay1), tip := Some(tip1)), tip1.x, total.x);
        }
      }
    }
  }

  /** When the repair runs with a non-negative total it always returns or raises;
      with a negative total it never returns once order pay is above the total. */
  lemma ReconciledTermination(d: Record)
    requires Repairs(d)
    ensures !(ToNumberOrNone(d.totalPay.value).Num? && ToNumberOrNone(d.totalPay.value).x < 0.0)
      ==> !Reconciled(d).Diverges?
    ensures var t0, p0 := ToNumberOrNone(d.totalPay.value), ToNumberOrNone(d.orderPay.value);
      t0.Num? && p0.Num? && t0.x < 0.0 && p0.x > t0.x ==> Reconciled(d).Diverges?
  {
  }

  /** The failures of a repair that does not loop for ever: a tip or promo pay that
      is `None` (TypeError), a tip or total pay that is NaN (ValueError from `int`),
      a missing delivery date (KeyError), a delivery date without `/` (IndexError);
      nothing else fails. */
  lemma ReconciledFaults(d: Record)
    requires Repairs(d) && !Reconciled(d).Diverges?
    ensures var tip, promo, total := ToNumberOrNone(d.tip.value), ToNumberOrNone(d.promoPay.value),
      ToNumberOrNone(d.totalPay.value);
      Reconciled(d).Raised? <==>
        !tip.Num? || promo.Null? || total.NaN? || d.deliveryDate.None? || '/' !in d.deliveryDate.value
    ensures var tip, promo, total := ToNumberOrNone(d.tip.value), ToNumberOrNone(d.promoPay.value),
      ToNumberOrNone(d.totalPay.value);
      Reconciled(d).Raised? ==>
        Reconciled(d).fault == (
          if tip.Null? || promo.Null? then TypeError
          else if tip.NaN? || total.NaN? then ValueError
          else if d.deliveryDate.None? then KeyError
          else IndexError)
  {
  }
}
