/** The scan loop of `receipt_to_df` (shipt/receipts.py): the OCR text of one
    screenshot is cut into lines, each line into tokens on the single space, and
    the first token decides which fields of the accumulator the line fills. A
    `Total` line reconciles the accumulator, emits it when it qualifies, and
    starts a new one. */
module Scanner {
  import opened Wrappers
  import opened PyStr
  import opened PyDate
  import opened Receipts
  import opened Reconcile

  /** What the scan takes from outside: the current year (line 137), today's date
      as `MM/DD/YYYY` (line 168) and the image's file name (line 212). */
  datatype Env = Env(year: int, today: string, filename: string)

  /** What one line does: the new accumulator, and the record it emits, if any. */
  datatype Effect = Effect(data: Record, emitted: Option<Record>)

  /** `line_items`: the tokens of a line, split on the single space. */
  function Tokens(line: string): (r: seq<string>)
    ensures |r| >= 1
  {
    Split(line, " ")
  }

  /** `tok[1:].strip().replace(",", "")`: an amount without its currency sign. */
  function Amount(token: string): (r: string)
    ensures ',' !in r
  {
    RemoveChar(Strip(DropFirst(token)), ',')
  }

  // ---------------------------------------------------------------- one line

  /** Lines 129-144: `Window <month> <day>, <start>-<end>` in the current year. */
  function WindowLine(toks: seq<string>, data: Record, env: Env): (r: Outcome<Record>)
  {
    if |toks| < 4 then Raised(IndexError)
    else
      var times := Split(toks[3], "-");
      match WindowDate(toks[1], toks[2], env.year)
      case None => Raised(ValueError)
      case Some(date) =>
        if |times| < 2 then Raised(IndexError)
        else Done(data.(windowStart := Some(times[0]), windowEnd := Some(times[1]),
                        deliveryDate := Some(date), deliveredDate := Some(date)))
  }

  /** Lines 158-164 on the (possibly joined) line: the date before the first `:` of
      the third token, and the window after the last `:`, cut at `to`. */
  function DeliveryWindow(line: string, data: Record): (r: Outcome<Record>)
  {
    var toks := Tokens(line);
    var pieces := Split(Last(Split(line, ":")), "to");
    if |toks| < 3 || |pieces| < 2 then Raised(IndexError)
    else Done(data.(deliveryDate := Some(Strip(Split(toks[2], ":")[0])),
                    windowStart := Some(StripPunc(Strip(pieces[0]))),
                    windowEnd := Some(StripPunc(Strip(pieces[1])))))
  }

  /** Lines 146-164: `Delivery Only`, or a delivery window that may continue on the
      next line. */
  function DeliveryLine(lines: seq<string>, n: nat, data: Record): (r: Outcome<Record>)
    requires n < |lines|
  {
    var toks := Tokens(lines[n]);
    if |toks| < 2 then Raised(IndexError)
    else if toks[1] == "Only" then Done(data.(deliveryOnly := Some(true)))
    else
      var d := if data.deliveryOnly.None? then data.(deliveryOnly := Some(false)) else data;
      if !Contains(Lower(lines[n]), "window") then Done(d)
      else if |toks| == 2 && n + 1 == |lines| then Raised(IndexError)
      else
        var line := if |toks| == 2 then Join([lines[n], lines[n + 1]], " ") else lines[n];
        DeliveryWindow(line, d)
  }

  /** Lines 165-170: `Delivered <date>, <time...>`; `Today` stands for today's date. */
  function DeliveredLine(toks: seq<string>, data: Record, env: Env): (r: Outcome<Record>)
  {
    if |toks| < 2 then Raised(IndexError)
    else
      var date := DropLast(toks[1]);
      Done(data.(deliveredDate := Some(if date == "Today" then env.today else date),
                 deliveredTime := Some(Join(toks[2..], " "))))
  }

  /** Lines 171-173: `Order Pay $<amount>`. */
  function OrderPayLine(toks: seq<string>, data: Record): (r: Outcome<Record>)
  {
    if |toks| < 3 then Raised(IndexError)
    else Done(data.(orderPay := Some(Raw(Amount(toks[2])))))
  }

  /** Line 186: the token between the order number and the total is taken for the
      dot before the amount when it holds one of `+ * - » «` or is one character long. */
  predicate IsTotalMarker(token: string)
  {
    var t := Strip(token);
    '+' in t || '*' in t || '-' in t || '»' in t || '«' in t || |token| == 1
  }

  /** Lines 174-202: `Order #<number> [<marker>] $<total> ... <On Time | Late>`. */
  function OrderLine(toks: seq<string>, data: Record): (r: Record)
    requires |toks| >= 2
  {
    var total :=
      if |toks| < 4 then NotANumber
      else if IsTotalMarker(toks[2]) then Written(Amount(toks[3]))
      else Written(Amount(toks[2]));
    var late :=
      if Contains(Last(toks), "Time") then Some(false)
      else if Contains(Last(toks), "Late") then Some(true)
      else data.late;
    data.(orderNumber := Some(StripPunc(toks[1])), orderTotal := Some(total), late := late)
  }

  /** Lines 203-204: `Tip ... $<amount>`. */
  function TipLine(toks: seq<string>, data: Record): (r: Record)
    requires |toks| >= 1
  {
    data.(tip := Some(Raw(DropFirst(Last(toks)))))
  }

  /** Lines 205-206: `Promo Pay $<amount>`. */
  function PromoLine(toks: seq<string>, data: Record): (r: Outcome<Record>)
  {
    if |toks| < 3 then Raised(IndexError)
    else Done(data.(promoPay := Some(Raw(Strip(DropFirst(toks[2]))))))
  }

  /** Line 215: the record is worth keeping. */
  predicate Emittable(r: Record)
  {
    r.orderNumber.Some? && r.orderNumber.value != "" && r.orderTotal.Some?
  }

  /** Lines 207-210 and 212: the record as it enters `guess_better_numbers`. */
  function Flushed(toks: seq<string>, data: Record, env: Env): (r: Record)
    requires |toks| >= 3
  {
    var d := data.(totalPay := Some(Raw(Amount(toks[2]))));
    var d := if d.promoPay.None? then d.(promoPay := Some(Num(0.0))) else d;
    d.(filename := Some(env.filename))
  }

  /** Lines 207-219: `Total $<amount>` reconciles the record, emits it when it
      qualifies, and empties the accumulator. */
  function TotalLine(toks: seq<string>, data: Record, env: Env): (r: Outcome<Effect>)
  {
    if |toks| < 3 then Raised(IndexError)
    else
      match Reconciled(Flushed(toks, data, env))
      case Done(rec) => Done(Effect(Empty, if Emittable(rec) then Some(rec) else None))
      case Raised(f) => Raised(f)
      case Diverges => Diverges
  }

  /** A line that only updates the accumulator. */
  function Keep(o: Outcome<Record>): (r: Outcome<Effect>)
  {
    match o
    case Done(d) => Done(Effect(d, None))
    case Raised(f) => Raised(f)
    case Diverges => Diverges
  }

  /** Lines 122-221: one pass of the loop, dispatching on the first token. */
  function Step(lines: seq<string>, n: nat, data: Record, env: Env): (r: Outcome<Effect>)
    requires n < |lines|
  {
    var toks := Tokens(lines[n]);
    var first := toks[0];
    if first == "Window" then Keep(WindowLine(toks, data, env))
    else if first == "Delivery" then Keep(DeliveryLine(lines, n, data))
    else if first == "Delivered" then Keep(DeliveredLine(toks, data, env))
    else if first == "Order" && |toks| < 2 then Raised(IndexError)
    else if first == "Order" && toks[1] == "Pay" then Keep(OrderPayLine(toks, data))
    else if first == "Order" then Done(Effect(OrderLine(toks, data), None))
    else if first == "Tip" then Done(Effect(TipLine(toks, data), None))
    else if first == "Promo" then Keep(PromoLine(toks, data))
    else if first == "Total" then TotalLine(toks, data, env)
    else Done(Effect(data, None))
  }

  // ---------------------------------------------------------------- the whole scan

  /** The records the loop emits from line `n` on, given the accumulator `data` and
      the records `out` emitted so far. */
  function ScanFrom(lines: seq<string>, n: nat, data: Record, out: seq<Record>, env: Env): (r: Outcome<seq<Record>>)
    requires n <= |lines|
    decreases |lines| - n
  {
    if n == |lines| then Done(out)
    else
      match Step(lines, n, data, env)
      case Done(e) =>
        ScanFrom(lines, n + 1, e.data, (if e.emitted.Some? then out + [e.emitted.value] else out), env)
      case Raised(f) => Raised(f)
      case Diverges => Diverges
  }

  /** The records `receipt_to_df` collects in `all_data` from the OCR text of one
      image, or the exception that ends the scan. */
  function ReceiptRecords(text: string, env: Env): (r: Outcome<seq<Record>>)
  {
    ScanFrom(Split(text, "\n"), 0, Empty, [], env)
  }

  /** Lines 207-219 on the accumulator: the record is completed, reconciled, and
      kept when it qualifies; the accumulator starts again empty. */
  method FlushRecord(toks: seq<string>, data: Record, env: Env) returns (o: Outcome<Effect>)
    ensures o == TotalLine(toks, data, env)
  {
    if |toks| < 3 {
      return Raised(IndexError);
    }
    var d := data;
    d := d.(totalPay := Some(Raw(Amount(toks[2]))));
    if d.promoPay.None? {
      d := d.(promoPay := Some(Num(0.0)));
    }
    d := d.(filename := Some(env.filename));
    assert d == Flushed(toks, data, env);
    var result := GuessBetterNumbers(d);
    if !result.Done? {
      return if result.Raised? then Raised(result.fault) else Diverges;
    }
    d := result.value;
    if d.orderNumber.Some? && d.orderNumber.value != "" && d.orderTotal.Some? {
      return Done(Effect(Empty, Some(d)));
    }
    return Done(Effect(Empty, None));
  }

  /** Lines 132-144 on the accumulator. */
  method ReadWindow(toks: seq<string>, data: Record, env: Env) returns (o: Outcome<Record>)
    ensures o == WindowLine(toks, data, env)
  {
    if |toks| < 4 {
      return Raised(IndexError);
    }
    var month, day := toks[1], toks[2];
    var times := Split(toks[3], "-");
    var date := WindowDate(month, day, env.year);
    if date.None? {
      return Raised(ValueError);
    }
    if |times| < 2 {
      return Raised(IndexError);
    }
    var d := data;
    d := d.(windowStart := Some(times[0]));
    d := d.(windowEnd := Some(times[1]));
    d := d.(deliveryDate := Some(date.value));
    d := d.(deliveredDate := Some(date.value));
    return Done(d);
  }

  /** Lines 147-164 on the accumulator; `Delivery Only` ends the line early. */
  method ReadDelivery(lines: seq<string>, n: nat, data: Record) returns (o: Outcome<Record>)
    requires n < |lines|
    ensures o == DeliveryLine(lines, n, data)
  {
    var line := lines[n];
    var toks := Split(line, " ");
    if |toks| < 2 {
      return Raised(IndexError);
    }
    var d := data;
    if toks[1] == "Only" {
      d := d.(deliveryOnly := Some(true));
      return Done(d);
    } else if d.deliveryOnly.None? {
      d := d.(deliveryOnly := Some(false));
    }
    if Contains(Lower(line), "window") {
      if |toks| == 2 {
        if n + 1 == |lines| {
          return Raised(IndexError);
        }
        line := Join([line, lines[n + 1]], " ");
      }
      var window := Last(Split(line, ":"));
      var items := Split(line, " ");
      if |items| < 3 {
        return Raised(IndexError);
      }
      d := d.(deliveryDate := Some(Strip(Split(items[2], ":")[0])));
      var pieces := Split(window, "to");
      d := d.(windowStart := Some(StripPunc(Strip(pieces[0]))));
      if |pieces| < 2 {
        return Raised(IndexError);
      }
      d := d.(windowEnd := Some(StripPunc(Strip(pieces[1]))));
    }
    return Done(d);
  }

  /** Lines 166-170 on the accumulator. */
  method ReadDelivered(toks: seq<string>, data: Record, env: Env) returns (o: Outcome<Record>)
    ensures o == DeliveredLine(toks, data, env)
  {
    if |toks| < 2 {
      return Raised(IndexError);
    }
    var d := data;
    d := d.(deliveredDate := Some(DropLast(toks[1])));
    if d.deliveredDate.value == "Today" {
      d := d.(deliveredDate := Some(env.today));
    }
    d := d.(deliveredTime := Some(Join(toks[2..], " ")));
    return Done(d);
  }

  /** Lines 177-202 on the accumulator. */
  method ReadOrder(toks: seq<string>, data: Record) returns (d: Record)
    requires |toks| >= 2
    ensures d == OrderLine(toks, data)
  {
    d := data;
    d := d.(orderNumber := Some(StripPunc(toks[1])));
    if |toks| >= 4 {
      if IsTotalMarker(toks[2]) {
        d := d.(orderTotal := Some(Written(Amount(toks[3]))));
      } else {
        d := d.(orderTotal := Some(Written(Amount(toks[2]))));
      }
    } else {
      d := d.(orderTotal := Some(NotANumber));
    }
    if Contains(Last(toks), "Time") {
      d := d.(late := Some(false));
    } else if Contains(Last(toks), "Late") {
      d := d.(late := Some(true));
    }
  }

  /** Lines 171-173 on the accumulator. */
  method ReadOrderPay(toks: seq<string>, data: Record) returns (o: Outcome<Record>)
    ensures o == OrderPayLine(toks, data)
  {
    if |toks| < 3 {
      return Raised(IndexError);
    }
    var d := data;
    d := d.(orderPay := Some(Raw(Amount(toks[2]))));
    return Done(d);
  }

  /** Lines 203-204 on the accumulator. */
  method ReadTip(toks: seq<string>, data: Record) returns (d: Record)
    requires |toks| >= 1
    ensures d == TipLine(toks, data)
  {
    d := data;
    d := d.(tip := Some(Raw(DropFirst(toks[|toks| - 1]))));
  }

  /** Lines 205-206 on the accumulator. */
  method ReadPromo(toks: seq<string>, data: Record) returns (o: Outcome<Record>)
    ensures o == PromoLine(toks, data)
  {
    if |toks| < 3 {
      return Raised(IndexError);
    }
    var d := data;
    d := d.(promoPay := Some(Raw(Strip(DropFirst(toks[2])))));
    return Done(d);
  }

  /** A line that completes hands the rest of the scan its effect. */
  lemma ScanStep(lines: seq<string>, n: nat, data: Record, out: seq<Record>, env: Env, e: Effect)
    requires n < |lines| && Step(lines, n, data, env) == Done(e)
    ensures ScanFrom(lines, n, data, out, env)
      == ScanFrom(lines, n + 1, e.data, (if e.emitted.Some? then out + [e.emitted.value] else out), env)
  {
  }

  /** The scan loop of `receipt_to_df`, filling `data` line by line. */
  method ReceiptToRecords(text: string, env: Env) returns (o: Outcome<seq<Record>>)
    ensures o == ReceiptRecords(text, env)
  {
    var lines := Split(text, "\n");
    var allData: seq<Record> := [];
    var data := Empty;
    for n := 0 to |lines|
      invariant ScanFrom(lines, n, data, allData, env) == ReceiptRecords(text, env)
    {
      var toks := Split(lines[n], " ");
      var firstWord := toks[0];
      ghost var before := data;
      if firstWord == "Window" {
        var r := ReadWindow(toks, data, env);
        if !r.Done? {
          return if r.Raised? then Raised(r.fault) else Diverges;
        }
        data := r.value;
        ScanStep(lines, n, before, allData, env, Effect(data, None));
      } else if firstWord == "Delivery" {
        var r := ReadDelivery(lines, n, data);
        if !r.Done? {
          return if r.Raised? then Raised(r.fault) else Diverges;
        }
        data := r.value;
        ScanStep(lines, n, before, allData, env, Effect(data, None));
      } else if firstWord == "Delivered" {
        var r := ReadDelivered(toks, data, env);
        if !r.Done? {
          return if r.Raised? then Raised(r.fault) else Diverges;
        }
        data := r.value;
        ScanStep(lines, n, before, allData, env, Effect(data, None));
      } else if firstWord == "Order" && |toks| < 2 {
        // `line_items(line)[1]` at line 171
        return Raised(IndexError);
      } else if firstWord == "Order" && toks[1] == "Pay" {
        var r := ReadOrderPay(toks, data);
        if !r.Done? {
          return if r.Raised? then Raised(r.fault) else Diverges;
        }
        data := r.value;
        ScanStep(lines, n, before, allData, env, Effect(data, None));
      } else if firstWord == "Order" {
        data := ReadOrder(toks, data);
        ScanStep(lines, n, before, allData, env, Effect(data, None));
      } else if firstWord == "Tip" {
        data := ReadTip(toks, data);
        ScanStep(lines, n, before, allData, env, Effect(data, None));
      } else if firstWord == "Promo" {
        var r := ReadPromo(toks, data);
        if !r.Done? {
          return if r.Raised? then Raised(r.fault) else Diverges;
        }
        data := r.value;
        ScanStep(lines, n, before, allData, env, Effect(data, None));
      } else if firstWord == "Total" {
        var flushed := FlushRecord(toks, data, env);
        if !flushed.Done? {
          return if flushed.Raised? then Raised(flushed.fault) else Diverges;
        }
        ScanStep(lines, n, before, allData, env, flushed.value);
        if flushed.value.emitted.Some? {
          allData := allData + [flushed.value.emitted.value];
        }
        data := flushed.value.data;
      } else {
        ScanStep(lines, n, before, allData, env, Effect(data, None));
      }
    }
    return Done(allData);
  }

  // ---------------------------------------------------------------- properties of one line

  /** A Window line sets the delivery and delivered dates to the same `MM/DD/YYYY`
      date of the current year, and a start and end free of `-`; nothing else. */
  lemma WindowLineFields(toks: seq<string>, data: Record, env: Env)
    requires WindowLine(toks, data, env).Done?
    ensures var r := WindowLine(toks, data, env).value;
      |toks| >= 4 && r.deliveryDate.Some? && r.deliveredDate == r.deliveryDate
      && r.deliveryDate == WindowDate(toks[1], toks[2], env.year)
      && r.windowStart.Some? && r.windowEnd.Some?
      && '-' !in r.windowStart.value && '-' !in r.windowEnd.value
      && r.(windowStart := data.windowStart, windowEnd := data.windowEnd,
            deliveryDate := data.deliveryDate, deliveredDate := data.deliveredDate) == data
      && var parts := Split(r.deliveryDate.value, "/");
      |parts| == 3 && AllDigits(parts[2]) && DigitsValue(parts[2]) == env.year
  {
    SplitPiecesLack(toks[3], '-');
    WindowDateFields(toks[1], toks[2], env.year);
  }

  /** A time range `<start>-<end>` with one `-` gives exactly that start and end. */
  lemma WindowLineTimes(toks: seq<string>, data: Record, env: Env, start: string, end: string)
    requires |toks| >= 4 && toks[3] == start + "-" + end && '-' !in start && '-' !in end
    ensures WindowLine(toks, data, env).Done? <==> WindowDate(toks[1], toks[2], env.year).Some?
    ensures WindowLine(toks, data, env).Done? ==>
      WindowLine(toks, data, env).value.windowStart == Some(start)
      && WindowLine(toks, data, env).value.windowEnd == Some(end)
  {
    SplitAfter(start, '-', end);
    SplitWithout(end, '-');
  }

  /** The Window line's failures: a line of fewer than four tokens or a time range
      without `-` raises IndexError, a date `strptime` rejects raises ValueError. */
  lemma WindowLineFaults(toks: seq<string>, data: Record, env: Env)
    ensures WindowLine(toks, data, env).Raised? <==>
      |toks| < 4 || WindowDate(toks[1], toks[2], env.year).None? || '-' !in toks[3]
    ensures WindowLine(toks, data, env).Raised? ==>
      WindowLine(toks, data, env).fault ==
        (if |toks| >= 4 && WindowDate(toks[1], toks[2], env.year).None? then ValueError else IndexError)
  {
    if |toks| >= 4 {
      SplitOnChar(toks[3], '-');
    }
  }

  /** The window after the last `:` is cut at `to`: a line of fewer than three
      tokens or a window without `to` raises IndexError; otherwise the start and end
      are free of punctuation. */
  lemma DeliveryWindowFields(line: string, data: Record)
    ensures DeliveryWindow(line, data).Raised? <==>
      |Tokens(line)| < 3 || !Contains(Last(Split(line, ":")), "to")
    ensures DeliveryWindow(line, data).Done? ==> var r := DeliveryWindow(line, data).value;
      r.windowStart.Some? && NoPunctuation(r.windowStart.value)
      && r.windowEnd.Some? && NoPunctuation(r.windowEnd.value) && r.deliveryDate.Some?
      && ':' !in r.deliveryDate.value
      && r.(windowStart := data.windowStart, windowEnd := data.windowEnd, deliveryDate := data.deliveryDate) == data
  {
    SplitFound(Last(Split(line, ":")), "to");
    var toks := Tokens(line);
    if |toks| >= 3 {
      SplitPiecesLack(toks[2], ':');
      var date := Split(toks[2], ":")[0];
      assert ':' !in Strip(date) by {
        var t := StripLeft(date);
        assert forall k | 0 <= k < |Strip(date)| :: Strip(date)[k] == date[|date| - |t| + k];
      }
    }
  }

  /** A window `<start> to <end>` after the last `:`, with `to` only between them,
      gives `strip_punc` of the stripped start and end. */
  lemma DeliveryWindowTimes(line: string, data: Record, start: string, end: string)
    requires |Tokens(line)| >= 3 && Last(Split(line, ":")) == start + "to" + end
    requires !Contains(start, "to") && !Contains(end, "to")
    ensures DeliveryWindow(line, data).Done?
    ensures DeliveryWindow(line, data).value.windowStart == Some(StripPunc(Strip(start)))
    ensures DeliveryWindow(line, data).value.windowEnd == Some(StripPunc(Strip(end)))
  {
    ToNotAfterT(start);
    assert "to"[..1] == "t";
    SplitAfterSep(start, "to", end);
    SplitWithoutSep(end, "to");
  }

  /** `Delivery Only` records only that; any other Delivery line without `window`
      only sets delivery-only to false, and only when it is not already set. */
  lemma DeliveryLineWithoutWindow(lines: seq<string>, n: nat, data: Record)
    requires n < |lines| && |Tokens(lines[n])| >= 2
    ensures Tokens(lines[n])[1] == "Only" ==>
      DeliveryLine(lines, n, data) == Done(data.(deliveryOnly := Some(true)))
    ensures Tokens(lines[n])[1] != "Only" && !Contains(Lower(lines[n]), "window") ==>
      DeliveryLine(lines, n, data)
        == Done(data.(deliveryOnly := if data.deliveryOnly.Some? then data.deliveryOnly else Some(false)))
  {
  }

  /** A two-token window line is read together with the next line, and raises
      IndexError when there is none; the next line is still scanned on its own,
      since the scan goes on at line `n + 1` (ScanStep). */
  lemma DeliveryLineJoin(lines: seq<string>, n: nat, data: Record)
    requires n < |lines| && |Tokens(lines[n])| == 2
    requires Tokens(lines[n])[1] != "Only" && Contains(Lower(lines[n]), "window")
    ensures var d := data.(deliveryOnly := if data.deliveryOnly.Some? then data.deliveryOnly else Some(false));
      DeliveryLine(lines, n, data)
        == if n + 1 == |lines| then Raised(IndexError) else DeliveryWindow(lines[n] + " " + lines[n + 1], d)
  {
    if n + 1 < |lines| {
      assert Join([lines[n], lines[n + 1]], " ") == lines[n] + " " + lines[n + 1];
    }
  }

  /** Whatever a Delivery line other than `Delivery Only` reads, delivery-only ends
      as it was, or false when it was not set. */
  lemma DeliveryLineOnlyFlag(lines: seq<string>, n: nat, data: Record)
    requires n < |lines| && DeliveryLine(lines, n, data).Done? && Tokens(lines[n])[1] != "Only"
    ensures DeliveryLine(lines, n, data).value.deliveryOnly
      == if data.deliveryOnly.Some? then data.deliveryOnly else Some(false)
  {
    var toks := Tokens(lines[n]);
    var d := data.(deliveryOnly := if data.deliveryOnly.Some? then data.deliveryOnly else Some(false));
    if Contains(Lower(lines[n]), "window") {
      var line := if |toks| == 2 then Join([lines[n], lines[n + 1]], " ") else lines[n];
      DeliveryWindowFields(line, d);
    }
  }

  /** A Delivered line records the date without its last character, today's date
      for `Today,`, and the remaining tokens rejoined (empty when there are none);
      nothing else changes. A line of one token raises IndexError. */
  lemma DeliveredLineFields(line: string, data: Record, env: Env)
    ensures var toks := Tokens(line); var r := DeliveredLine(toks, data, env);
      (r.Raised? <==> |toks| < 2) && (r.Raised? ==> r.fault == IndexError) && !r.Diverges?
      && (r.Done? ==>
        r.value.deliveredDate.Some? && r.value.deliveredTime.Some?
        && (toks[1] == "Today," ==> r.value.deliveredDate == Some(env.today))
        && (DropLast(toks[1]) != "Today" ==> r.value.deliveredDate == Some(DropLast(toks[1])))
        && (|toks| == 2 ==> r.value.deliveredTime == Some(""))
        && r.value.(deliveredDate := data.deliveredDate, deliveredTime := data.deliveredTime) == data)
  {
    var toks := Tokens(line);
    if |toks| >= 2 && toks[1] == "Today," {
      assert DropLast(toks[1]) == "Today";
    }
  }

  /** The time of a Delivered line is its tokens after the date, rejoined: it
      splits back into those tokens. */
  lemma DeliveredTimeRoundTrip(line: string, data: Record, env: Env)
    requires |Tokens(line)| >= 3
    ensures var toks := Tokens(line); var r := DeliveredLine(toks, data, env);
      r.Done? && r.value.deliveredTime.Some? && Tokens(r.value.deliveredTime.value) == toks[2..]
  {
    var toks := Tokens(line);
    SplitPiecesLack(line, ' ');
    assert forall k | 0 <= k < |toks[2..]| :: ' ' !in toks[2..][k] by {
      forall k | 0 <= k < |toks[2..]| ensures ' ' !in toks[2..][k] { assert toks[2..][k] == toks[k + 2]; }
    }
    SplitJoin(toks[2..], ' ');
  }

  /** An Order line sets the order number without punctuation and always sets an
      order total: NaN on a line of fewer than four tokens, otherwise the amount of
      the fourth token after a marker and of the third token without one, with no
      commas. `Time` in the last token makes the order on time, otherwise `Late`
      makes it late, otherwise `late` stays; nothing else changes. */
  lemma OrderLineFields(toks: seq<string>, data: Record)
    requires |toks| >= 2
    ensures var r := OrderLine(toks, data);
      r.orderNumber == Some(StripPunc(toks[1])) && NoPunctuation(r.orderNumber.value)
      && r.orderTotal.Some? && (r.orderTotal.value.NotANumber? <==> |toks| < 4)
      && (r.orderTotal.value.Written? ==> ',' !in r.orderTotal.value.text)
      && (|toks| >= 4 ==> r.orderTotal == Some(Written(Amount(if IsTotalMarker(toks[2]) then toks[3] else toks[2]))))
      && (!Contains(Last(toks), "Time") && !Contains(Last(toks), "Late") ==> r.late == data.late)
      && (Contains(Last(toks), "Time") ==> r.late == Some(false))
      && (!Contains(Last(toks), "Time") && Contains(Last(toks), "Late") ==> r.late == Some(true))
      && r.(orderNumber := data.orderNumber, orderTotal := data.orderTotal, late := data.late) == data
  {
  }

  /** `+` is taken for the dot before an amount. */
  lemma PlusIsMarker()
    ensures IsTotalMarker("+")
  {
    StripUnspaced("+");
  }

  /** An amount token is not taken for the dot. */
  lemma AmountIsNoMarker()
    ensures !IsTotalMarker("$45.67")
  {
    assert Strip("$45.67") == "$45.67" by { StripUnspaced("$45.67"); }
  }

  lemma SignDropped()
    ensures DropFirst("$45.67") == "45.67"
  {
  }

  lemma AmountUnspaced()
    ensures Strip("45.67") == "45.67"
  {
    StripUnspaced("45.67");
  }

  lemma AmountUncommaed()
    ensures RemoveChar("45.67", ',') == "45.67"
  {
  }

  /** The currency sign is dropped. */
  lemma AmountExample()
    ensures Amount("$45.67") == "45.67"
  {
    SignDropped();
    AmountUnspaced();
    AmountUncommaed();
  }

  /** `strip_punc` drops the `#` of an order number. */
  lemma OrderNumberHash(token: string, digits: string)
    requires token == "#123456" && digits == "123456"
    ensures StripPunc(token) == digits
  {
    assert token == "#" + digits;
    assert NoPunctuation(digits) by {
      forall k | 0 <= k < |digits| ensures !IsPunctuation(digits[k]) {
        assert '0' <= digits[k] <= '9';
      }
    }
    StripPuncHash(digits);
  }

  /** Which of the example tokens hold `Time` or `Late`. */
  lemma LatenessExamples()
    ensures Contains("Time", "Time") && !Contains("Time", "Late")
    ensures Contains("Late", "Late") && !Contains("Late", "Time")
    ensures !Contains("#123456", "Time") && !Contains("#123456", "Late")
  {
    if Contains("Time", "Late") { ContainsHead("Time", "Late"); }
    if Contains("Late", "Time") { ContainsHead("Late", "Time"); }
    if Contains("#123456", "Time") { ContainsHead("#123456", "Time"); }
    if Contains("#123456", "Late") { ContainsHead("#123456", "Late"); }
  }

  /** An Order line with a marker token before the amount, read on time. */
  lemma OrderLineWithMarker(number: string, marker: string, amount: string, on: string, time: string)
    requires number == "#123456" && marker == "+" && amount == "$45.67" && on == "On" && time == "Time"
    ensures OrderLine(["Order", number, marker, amount, on, time], Empty)
      == Empty.(orderNumber := Some("123456"), orderTotal := Some(Written("45.67")), late := Some(false))
  {
    var toks := ["Order", number, marker, amount, on, time];
    assert toks[2] == marker && toks[3] == amount && Last(toks) == time;
    PlusIsMarker();
    LatenessExamples();
    OrderLineMarkedOnTime(toks, Empty);
    OrderNumberHash(number, "123456");
    AmountExample();
  }

  lemma OrderLineMarkedOnTime(toks: seq<string>, data: Record)
    requires |toks| >= 4 && IsTotalMarker(toks[2]) && Contains(Last(toks), "Time")
    ensures OrderLine(toks, data)
      == data.(orderNumber := Some(StripPunc(toks[1])), orderTotal := Some(Written(Amount(toks[3]))),
               late := Some(false))
  {
  }

  /** An Order line whose amount follows the number directly, read late. */
  lemma OrderLineWithoutMarker(number: string, amount: string, late: string)
    requires number == "#123456" && amount == "$45.67" && late == "Late"
    ensures OrderLine(["Order", number, amount, late], Empty)
      == Empty.(orderNumber := Some("123456"), orderTotal := Some(Written("45.67")), late := Some(true))
  {
    OrderNumberHash(number, "123456");
    AmountIsNoMarker();
    AmountExample();
    LatenessExamples();
  }

  /** An Order line too short to hold a total: the total is present but NaN. */
  lemma OrderLineWithoutTotal(number: string)
    requires number == "#123456"
    ensures OrderLine(["Order", number], Empty)
      == Empty.(orderNumber := Some("123456"), orderTotal := Some(NotANumber))
  {
    OrderNumberHash(number, "123456");
    LatenessExamples();
  }

  /** An `Order Pay` line sets the order pay to the third token's amount, without
      its first character, surrounding blanks or commas, and nothing else; it raises
      IndexError exactly when it has fewer than three tokens. */
  lemma OrderPayLineFields(lines: seq<string>, n: nat, data: Record, env: Env)
    requires n < |lines| && |Tokens(lines[n])| >= 2
    requires Tokens(lines[n])[0] == "Order" && Tokens(lines[n])[1] == "Pay"
    ensures var toks := Tokens(lines[n]); var o := Step(lines, n, data, env);
      (o.Raised? <==> |toks| < 3) && (o.Raised? ==> o.fault == IndexError) && !o.Diverges?
      && (o.Done? ==>
        o.value.emitted.None?
        && o.value.data.orderPay == Some(Raw(Amount(toks[2])))
        && ',' !in o.value.data.orderPay.value.text
        && o.value.data.(orderPay := data.orderPay) == data)
  {
  }

  /** A Tip line never raises: it sets the tip to the last token without its first
      character, with blanks and commas kept, and nothing else. */
  lemma TipLineFields(lines: seq<string>, n: nat, data: Record, env: Env)
    requires n < |lines| && Tokens(lines[n])[0] == "Tip"
    ensures var last := Last(Tokens(lines[n])); var o := Step(lines, n, data, env);
      o.Done? && o.value.emitted.None?
      && o.value.data.tip.Some? && o.value.data.tip.value.Raw?
      && (|last| > 0 ==> [last[0]] + o.value.data.tip.value.text == last)
      && (|last| == 0 ==> o.value.data.tip.value.text == "")
      && o.value.data.(tip := data.tip) == data
  {
  }

  /** A Promo line sets the promo pay to the third token without its first character
      and surrounding blanks, but with its commas: removing them gives the amount an
      `Order Pay` or `Total` line would read. Nothing else changes, and it raises
      IndexError exactly when it has fewer than three tokens. */
  lemma PromoLineFields(lines: seq<string>, n: nat, data: Record, env: Env)
    requires n < |lines| && Tokens(lines[n])[0] == "Promo"
    ensures var toks := Tokens(lines[n]); var o := Step(lines, n, data, env);
      (o.Raised? <==> |toks| < 3) && (o.Raised? ==> o.fault == IndexError) && !o.Diverges?
      && (o.Done? ==>
        o.value.emitted.None?
        && o.value.data.promoPay.Some? && o.value.data.promoPay.value.Raw?
        && var t := o.value.data.promoPay.value.text;
        RemoveChar(t, ',') == Amount(toks[2])
        && (|t| > 0 ==> !IsSpace(t[0]) && !IsSpace(t[|t| - 1]))
        && o.value.data.(promoPay := data.promoPay) == data)
  {
  }

  /** A window line of three or more tokens is read on its own; when its text after
      the last `:` holds no `to`, it raises IndexError. */
  lemma WindowWithoutTo(lines: seq<string>, n: nat, data: Record)
    requires n < |lines| && |Tokens(lines[n])| >= 3 && Tokens(lines[n])[1] != "Only"
    requires Contains(Lower(lines[n]), "window") && !Contains(Last(Split(lines[n], ":")), "to")
    ensures DeliveryLine(lines, n, data) == Raised(IndexError)
  {
    SplitFound(Last(Split(lines[n], ":")), "to");
  }

  lemma WrappedTokens(line: string, delivery: string, rest: string)
    requires line == "Delivery window: 9AM" && delivery == "Delivery" && rest == "window: 9AM"
    ensures Tokens(line) == [delivery] + Tokens(rest)
  {
    assert line == delivery + [' '] + rest;
    SplitAfter(delivery, ' ', rest);
  }

  lemma WrappedRestTokens(rest: string, window: string, start: string)
    requires rest == "window: 9AM" && window == "window:" && start == "9AM"
    ensures Tokens(rest) == [window, start]
  {
    assert rest == window + [' '] + start;
    SplitAfter(window, ' ', start);
    SplitWithout(start, ' ');
  }

  lemma WrappedMentionsWindow(line: string, word: string)
    requires line == "Delivery window: 9AM" && word == "window"
    ensures Contains(Lower(line), word)
  {
    assert Lower(line)[9..15] == word;
    ContainsSlice(Lower(line), word, 9);
  }

  lemma WrappedAfterColon(line: string, head: string, tail: string)
    requires line == "Delivery window: 9AM" && head == "Delivery window" && tail == " 9AM"
    ensures Last(Split(line, ":")) == tail && !Contains(tail, "to")
  {
    assert line == head + [':'] + tail;
    SplitAfter(head, ':', tail);
    SplitWithout(tail, ':');
    if Contains(tail, "to") { ContainsHead(tail, "to"); }
  }

  /** A window wrapped after its start time, `Delivery window: 9AM` followed by
      `to 10AM, Mar 14`, is not read together with the next line, since the first
      line already has three tokens; its text after the last `:` holds no `to`, so
      the line raises IndexError. */
  lemma WrappedWindowRaises(first: string, second: string)
    requires first == "Delivery window: 9AM" && second == "to 10AM, Mar 14"
    ensures DeliveryLine([first, second], 0, Empty) == Raised(IndexError)
  {
    WrappedTokens(first, "Delivery", "window: 9AM");
    WrappedRestTokens("window: 9AM", "window:", "9AM");
    WrappedMentionsWindow(first, "window");
    WrappedAfterColon(first, "Delivery window", " 9AM");
    WindowWithoutTo([first, second], 0, Empty);
  }

  /** A Total line completes the record: total pay from the line, promo pay 0 when
      none was read, and the file name; the reconciled record is emitted exactly
      when it has a non-empty order number and an order total, and the accumulator
      is emptied either way. */
  lemma TotalLineFlush(toks: seq<string>, data: Record, env: Env)
    requires |toks| >= 3
    ensures var f := Flushed(toks, data, env);
      f.totalPay == Some(Raw(Amount(toks[2]))) && f.filename == Some(env.filename)
      && f.promoPay == (if data.promoPay.None? then Some(Num(0.0)) else data.promoPay)
      && f.(totalPay := data.totalPay, promoPay := data.promoPay, filename := data.filename) == data
    ensures TotalLine(toks, data, env).Done? ==>
      var e := TotalLine(toks, data, env).value; var rec := Reconciled(Flushed(toks, data, env));
      e.data == Empty && rec.Done? && (e.emitted.Some? <==> Emittable(rec.value))
      && (e.emitted.Some? ==> e.emitted.value == rec.value && rec.value.filename == Some(env.filename))
  {
    if Reconciled(Flushed(toks, data, env)).Done? {
      ReconciledKeepsTextFields(Flushed(toks, data, env));
    }
  }

  // ---------------------------------------------------------------- properties of the scan

  /** The number of `Total` lines from line `n` on. */
  function TotalLines(lines: seq<string>, n: nat): (r: nat)
    requires n <= |lines|
    ensures r <= |lines| - n
    decreases |lines| - n
  {
    if n == |lines| then 0
    else (if Tokens(lines[n])[0] == "Total" then 1 else 0) + TotalLines(lines, n + 1)
  }

  /** Only a Total line emits; what it emits qualifies and carries the file name,
      and a Total line leaves the accumulator empty. */
  lemma StepEmission(lines: seq<string>, n: nat, data: Record, env: Env)
    requires n < |lines| && Step(lines, n, data, env).Done?
    ensures var e := Step(lines, n, data, env).value;
      (e.emitted.Some? ==>
         Tokens(lines[n])[0] == "Total" && Emittable(e.emitted.value) && e.emitted.value.filename == Some(env.filename))
      && (Tokens(lines[n])[0] == "Total" ==> e.data == Empty)
  {
    var toks := Tokens(lines[n]);
    if toks[0] == "Total" {
      TotalLineFlush(toks, data, env);
    }
  }

  /** The scan from line `n` keeps the records emitted so far as a prefix, adds at
      most one per remaining Total line, and adds only records that qualify and
      carry the file name. */
  lemma {:induction false} ScanOutput(lines: seq<string>, n: nat, data: Record, out: seq<Record>, env: Env)
    requires n <= |lines| && ScanFrom(lines, n, data, out, env).Done?
    ensures var res := ScanFrom(lines, n, data, out, env).value;
      |out| <= |res| <= |out| + TotalLines(lines, n) && res[..|out|] == out
      && forall k | |out| <= k < |res| :: Emittable(res[k]) && res[k].filename == Some(env.filename)
    decreases |lines| - n
  {
    if n < |lines| {
      var e := Step(lines, n, data, env).value;
      StepEmission(lines, n, data, env);
      var next := if e.emitted.Some? then out + [e.emitted.value] else out;
      ScanStep(lines, n, data, out, env, e);
      ScanOutput(lines, n + 1, e.data, next, env);
      var res := ScanFrom(lines, n + 1, e.data, next, env).value;
      assert |next| <= |out| + TotalLines(lines, n) - TotalLines(lines, n + 1);
      assert res[..|out|] == next[..|out|] == out;
      forall k | |out| <= k < |res|
        ensures Emittable(res[k]) && res[k].filename == Some(env.filename)
      {
        if k < |next| {
          assert res[k] == next[k] == e.emitted.value;
        }
      }
    }
  }

  /** What follows the last Total line is never emitted: with no Total line left
      the scan returns the records it already has. */
  lemma NothingAfterLastTotal(lines: seq<string>, n: nat, data: Record, out: seq<Record>, env: Env)
    requires n <= |lines| && TotalLines(lines, n) == 0 && ScanFrom(lines, n, data, out, env).Done?
    ensures ScanFrom(lines, n, data, out, env).value == out
  {
    ScanOutput(lines, n, data, out, env);
  }

  /** A scan that completes yields at most one record per Total line, each with a
      non-empty order number, an order total and the image's file name. */
  lemma ReceiptRecordsQualify(text: string, env: Env)
    requires ReceiptRecords(text, env).Done?
    ensures var res := ReceiptRecords(text, env).value;
      |res| <= TotalLines(Split(text, "\n"), 0)
      && forall k | 0 <= k < |res| :: Emittable(res[k]) && res[k].filename == Some(env.filename)
  {
    ScanOutput(Split(text, "\n"), 0, Empty, [], env);
  }
}
