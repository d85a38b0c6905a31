/** Ingestion and payout classification of `shipt/shipt_backend.py`: the
    trimming and `is_v1` tagging of `add_shops`, the upsert of its survivors
    into the shops collection, and `is_likely_v1_algo_p` with the two queries
    it counts. The Firestore collection is a map from document id to document;
    its queries are set comprehensions over that map. */
module Backend {
  import opened Wrappers
  import opened PyStr
  import Receipts

  /** A cell of the shops DataFrame or a field of a stored document: a number,
      NaN, text (the `""` that `fillna` leaves is text) or a boolean. */
  datatype Cell = Num(x: real) | NaN | Text(s: string) | Bool(b: bool)

  /** One row of the DataFrame `add_shops` receives, and one document of the
      shops collection. `isV1` is `None` until `add_shops` adds the column;
      the columns the core never reads (`late`, `media_url`, `filename`, ...)
      are in `other`. */
  datatype Shop = Shop(
    orderNumber: string,
    phone: string,
    deliveryOnly: Cell,
    orderTotal: Cell,
    orderPay: Cell,
    tip: Cell,
    totalPay: Cell,
    isV1: Option<bool>,
    other: map<string, Cell>)

  /** The order numbers of some rows. */
  function Numbers(rows: seq<Shop>): (r: set<string>)
  {
    set r | r in rows :: r.orderNumber
  }

  /** Rows without order numbers are no rows. */
  lemma NumbersEmpty(rows: seq<Shop>)
    ensures Numbers(rows) == {} <==> rows == []
  {
    if rows != [] {
      assert rows[0].orderNumber in Numbers(rows);
    }
  }

  /** No two rows share an order number. */
  predicate Distinct(rows: seq<Shop>)
  {
    forall i, j | 0 <= i < j < |rows| :: rows[i].orderNumber != rows[j].orderNumber
  }

  // ---------------------------------------------------------------- trimming (lines 62-72)

  /** Lines 63-65: the rows whose order number is not among the past ones. */
  function NotPast(rows: seq<Shop>, past: set<string>): (r: seq<Shop>)
    decreases |rows|
  {
    if |rows| == 0 then []
    else (if rows[0].orderNumber in past then [] else [rows[0]]) + NotPast(rows[1..], past)
  }

  /** Lines 66-67, `drop_duplicates(keep='first')`: a row is dropped when an
      earlier row (or `seen`) already had its order number. */
  function KeepFirst(rows: seq<Shop>, seen: set<string>): (r: seq<Shop>)
    decreases |rows|
  {
    if |rows| == 0 then []
    else if rows[0].orderNumber in seen then KeepFirst(rows[1..], seen)
    else [rows[0]] + KeepFirst(rows[1..], seen + {rows[0].orderNumber})
  }

  /** Line 72: the rows with a non-empty order number. */
  function NonEmpty(rows: seq<Shop>): (r: seq<Shop>)
    decreases |rows|
  {
    if |rows| == 0 then []
    else (if rows[0].orderNumber == "" then [] else [rows[0]]) + NonEmpty(rows[1..])
  }

  /** The rows that survive lines 62-72. */
  function Trimmed(batch: seq<Shop>, past: set<string>, trimDupes: bool): (r: seq<Shop>)
  {
    NonEmpty(if trimDupes then KeepFirst(NotPast(batch, past), {}) else batch)
  }

  /** Row `i` is the first row of `rows` with its order number. */
  predicate FirstAt(rows: seq<Shop>, i: int)
    requires 0 <= i < |rows|
  {
    forall j | 0 <= j < i :: rows[j].orderNumber != rows[i].orderNumber
  }

  /** Row `i` of the batch is new: its order number is non-empty, not a past
      one, and this is its first occurrence. */
  predicate KeptAt(batch: seq<Shop>, past: set<string>, i: int)
    requires 0 <= i < |batch|
  {
    batch[i].orderNumber != "" && batch[i].orderNumber !in past && FirstAt(batch, i)
  }

  /** Reference definition: the new rows from position `i` on, in batch order. */
  function KeptFrom(batch: seq<Shop>, past: set<string>, i: nat): (r: seq<Shop>)
    requires i <= |batch|
    decreases |batch| - i
  {
    if i == |batch| then []
    else (if KeptAt(batch, past, i) then [batch[i]] else []) + KeptFrom(batch, past, i + 1)
  }

  /** The order numbers of the batch that are already stored or already seen
      before position `i`. */
  function SeenBefore(batch: seq<Shop>, past: set<string>, i: nat): (r: set<string>)
    requires i <= |batch|
  {
    set j | 0 <= j < i && batch[j].orderNumber !in past :: batch[j].orderNumber
  }

  lemma NonEmptyConcat(a: seq<Shop>, b: seq<Shop>)
    ensures NonEmpty(a + b) == NonEmpty(a) + NonEmpty(b)
    decreases |a|
  {
    if |a| == 0 {
      assert a + b == b;
    } else {
      assert (a + b)[0] == a[0] && (a + b)[1..] == a[1..] + b;
      NonEmptyConcat(a[1..], b);
    }
  }

  lemma NotPastStep(batch: seq<Shop>, past: set<string>, i: nat)
    requires i < |batch|
    ensures NotPast(batch[i..], past)
         == (if batch[i].orderNumber in past then [] else [batch[i]]) + NotPast(batch[i + 1..], past)
  {
    assert batch[i..][0] == batch[i] && batch[i..][1..] == batch[i + 1..];
  }

  lemma KeepFirstStep(x: Shop, rest: seq<Shop>, seen: set<string>)
    ensures KeepFirst([x] + rest, seen)
         == if x.orderNumber in seen then KeepFirst(rest, seen)
            else [x] + KeepFirst(rest, seen + {x.orderNumber})
  {
    assert ([x] + rest)[0] == x && ([x] + rest)[1..] == rest;
  }

  /** A row whose number is not a past one is the first with it exactly when
      its number was not seen before it. */
  lemma SeenStep(batch: seq<Shop>, past: set<string>, i: nat)
    requires i < |batch|
    ensures SeenBefore(batch, past, i + 1)
         == SeenBefore(batch, past, i) + (if batch[i].orderNumber in past then {} else {batch[i].orderNumber})
    ensures batch[i].orderNumber !in past ==>
      (FirstAt(batch, i) <==> batch[i].orderNumber !in SeenBefore(batch, past, i))
  {
    var x := batch[i];
    if x.orderNumber !in past {
      if x.orderNumber in SeenBefore(batch, past, i) {
        var j :| 0 <= j < i && batch[j].orderNumber !in past && batch[j].orderNumber == x.orderNumber;
      } else {
        forall j | 0 <= j < i ensures batch[j].orderNumber != x.orderNumber {
          if batch[j].orderNumber !in past {
            assert batch[j].orderNumber in SeenBefore(batch, past, i);
          }
        }
      }
    }
  }

  lemma {:induction false} TrimmedFrom(batch: seq<Shop>, past: set<string>, i: nat)
    requires i <= |batch|
    ensures NonEmpty(KeepFirst(NotPast(batch[i..], past), SeenBefore(batch, past, i)))
         == KeptFrom(batch, past, i)
    decreases |batch| - i
  {
    if i == |batch| {
      assert batch[i..] == [];
    } else {
      var x := batch[i];
      var seen := SeenBefore(batch, past, i);
      var rest := NotPast(batch[i + 1..], past);
      NotPastStep(batch, past, i);
      SeenStep(batch, past, i);
      TrimmedFrom(batch, past, i + 1);
      if x.orderNumber in past {
        assert NotPast(batch[i..], past) == rest;
        assert SeenBefore(batch, past, i + 1) == seen;
        assert KeptFrom(batch, past, i) == [] + KeptFrom(batch, past, i + 1);
      } else {
        KeepFirstStep(x, rest, seen);
        if x.orderNumber in seen {
          assert seen + {x.orderNumber} == seen;
        } else {
          NonEmptyConcat([x], KeepFirst(rest, seen + {x.orderNumber}));
          assert [x][1..] == [];
        }
      }
    }
  }

  /** With `trim_dupes`, the surviving rows are exactly the new rows of the
      batch, in batch order: the first occurrence of each order number that is
      neither empty nor already stored. */
  lemma TrimmedIsKept(batch: seq<Shop>, past: set<string>)
    ensures Trimmed(batch, past, true) == KeptFrom(batch, past, 0)
  {
    TrimmedFrom(batch, past, 0);
    assert batch[0..] == batch;
    assert SeenBefore(batch, past, 0) == {};
  }

  lemma {:induction false} KeptFromRows(batch: seq<Shop>, past: set<string>, i: nat)
    requires i <= |batch|
    ensures forall r | r in KeptFrom(batch, past, i) ::
      exists j | i <= j < |batch| :: batch[j] == r && KeptAt(batch, past, j)
    ensures forall j | i <= j < |batch| && KeptAt(batch, past, j) :: batch[j] in KeptFrom(batch, past, i)
    ensures Distinct(KeptFrom(batch, past, i))
    decreases |batch| - i
  {
    if i < |batch| {
      KeptFromRows(batch, past, i + 1);
      var t := KeptFrom(batch, past, i);
      var tail := KeptFrom(batch, past, i + 1);
      if KeptAt(batch, past, i) {
        assert t == [batch[i]] + tail;
        forall m | 0 < m < |t| ensures t[m].orderNumber != batch[i].orderNumber {
          assert t[m] in tail;
          var j :| i + 1 <= j < |batch| && batch[j] == t[m] && KeptAt(batch, past, j);
          assert FirstAt(batch, j);
        }
      } else {
        assert t == tail;
      }
    }
  }

  /** The first row with the order number of row `j`. */
  lemma FirstIndex(rows: seq<Shop>, j: nat) returns (j0: nat)
    requires j < |rows|
    ensures j0 <= j && rows[j0].orderNumber == rows[j].orderNumber && FirstAt(rows, j0)
    decreases j
  {
    if FirstAt(rows, j) {
      j0 := j;
    } else {
      var j' :| 0 <= j' < j && rows[j'].orderNumber == rows[j].orderNumber;
      j0 := FirstIndex(rows, j');
    }
  }

  /** Lines 62-72 with `trim_dupes`: every surviving row is a batch row that is
      the first with its order number, no two share an order number, and the
      surviving order numbers are exactly the batch's, less the empty one and
      those already stored for the phone. */
  lemma TrimmedWithDupes(batch: seq<Shop>, past: set<string>)
    ensures forall r | r in Trimmed(batch, past, true) ::
      exists j | 0 <= j < |batch| :: batch[j] == r && FirstAt(batch, j)
    ensures Distinct(Trimmed(batch, past, true))
    ensures Numbers(Trimmed(batch, past, true)) == Numbers(batch) - past - {""}
  {
    TrimmedIsKept(batch, past);
    KeptFromRows(batch, past, 0);
    var t := Trimmed(batch, past, true);
    forall k | k in Numbers(batch) - past - {""} ensures k in Numbers(t) {
      var r :| r in batch && r.orderNumber == k;
      var j :| 0 <= j < |batch| && batch[j] == r;
      var j0 := FirstIndex(batch, j);
      assert KeptAt(batch, past, j0);
      assert batch[j0] in t;
    }
    forall k | k in Numbers(t) ensures k in Numbers(batch) - past - {""} {
      var r :| r in t && r.orderNumber == k;
      var j :| 0 <= j < |batch| && batch[j] == r && KeptAt(batch, past, j);
      assert batch[j] in batch;
    }
  }

  lemma NonEmptyRows(rows: seq<Shop>)
    ensures forall r | r in NonEmpty(rows) :: r in rows && r.orderNumber != ""
    ensures forall r | r in rows && r.orderNumber != "" :: r in NonEmpty(rows)
    ensures Numbers(NonEmpty(rows)) == Numbers(rows) - {""}
    decreases |rows|
  {
    if |rows| > 0 {
      NonEmptyRows(rows[1..]);
      var head := if rows[0].orderNumber == "" then [] else [rows[0]];
      assert NonEmpty(rows) == head + NonEmpty(rows[1..]);
      NumbersConcat(head, NonEmpty(rows[1..]));
      NumbersConcat([rows[0]], rows[1..]);
      assert rows == [rows[0]] + rows[1..];
    }
  }

  lemma NumbersConcat(a: seq<Shop>, b: seq<Shop>)
    ensures Numbers(a + b) == Numbers(a) + Numbers(b)
  {
    assert forall r | r in a + b :: r in a || r in b;
  }

  /** Without `trim_dupes`, the survivors are exactly the batch rows with an order
      number, duplicates and past numbers included. */
  lemma TrimmedWithoutDupes(batch: seq<Shop>, past: set<string>)
    ensures forall r | r in Trimmed(batch, past, false) :: r in batch && r.orderNumber != ""
    ensures forall r | r in batch && r.orderNumber != "" :: r in Trimmed(batch, past, false)
    ensures Numbers(Trimmed(batch, past, false)) == Numbers(batch) - {""}
  {
    NonEmptyRows(batch);
  }

  /** Without `trim_dupes`, the trim works row by row: it keeps the batch order ... */
  lemma TrimmedWithoutDupesConcat(a: seq<Shop>, b: seq<Shop>, past: set<string>)
    ensures Trimmed(a + b, past, false) == Trimmed(a, past, false) + Trimmed(b, past, false)
  {
    NonEmptyConcat(a, b);
  }

  /** ... and drops a row exactly when its order number is empty. */
  lemma TrimmedWithoutDupesRow(r: Shop, past: set<string>)
    ensures Trimmed([r], past, false) == if r.orderNumber == "" then [] else [r]
  {
    assert [r][0] == r && [r][1..] == [];
    assert NonEmpty([r]) == (if r.orderNumber == "" then [] else [r]) + NonEmpty([]);
  }

  // ---------------------------------------------------------------- classification (lines 74-80)

  /** `pd.to_numeric` on one cell: a number literal becomes its number, `""`
      becomes NaN, a boolean becomes 1 or 0, and any other text makes the
      whole column raise `ValueError` (`None`). */
  function Numeric(c: Cell): (r: Option<Cell>)
    ensures r.Some? ==> r.value.Num? || r.value.NaN?
    ensures r.None? <==> c.Text? && c.s != "" && !Receipts.IsNumber(c.s)
    ensures c.Text? && Receipts.IsNumber(c.s) ==> r == Some(Num(Receipts.NumberValue(c.s)))
  {
    match c
    case Num(x) => Some(Num(x))
    case NaN => Some(NaN)
    case Bool(b) => Some(Num(if b then 1.0 else 0.0))
    case Text(s) =>
      if Receipts.IsNumber(s) then Some(Num(Receipts.NumberValue(s)))
      else if s == "" then Some(NaN) else None
  }

  function Abs(x: real): (r: real)
  {
    if x < 0.0 then -x else x
  }

  /** Lines 79-80: the pay is within five cents of the v1 formula
      `0.075 * order_total + 5`; a NaN on either side compares false. */
  predicate V1Pay(total: Cell, pay: Cell)
  {
    total.Num? && pay.Num? && Abs(total.x * 0.075 + 5.0 - pay.x) < 0.05
  }

  /** One row after lines 74-80, or `None` when one of its money cells makes
      `pd.to_numeric` raise. */
  function Classify(r: Shop): (o: Option<Shop>)
  {
    match (Numeric(r.orderPay), Numeric(r.orderTotal), Numeric(r.tip), Numeric(r.totalPay))
    case (Some(pay), Some(total), Some(tip), Some(totalPay)) =>
      Some(r.(orderPay := pay, orderTotal := total, tip := tip, totalPay := totalPay,
              isV1 := Some(V1Pay(total, pay))))
    case _ => None
  }

  /** Lines 74-80 on the surviving rows: the columns are converted as a whole,
      so one bad cell raises for all of them. */
  function ClassifyAll(rows: seq<Shop>): (r: Outcome<seq<Shop>>)
  {
    if forall i | 0 <= i < |rows| :: Classify(rows[i]).Some? then
      Done(seq(|rows|, i requires 0 <= i < |rows| => Classify(rows[i]).value))
    else Raised(ValueError)
  }

  /** What `add_shops` returns (line 89) for the phone's past order numbers. */
  function NewShops(batch: seq<Shop>, past: set<string>, trimDupes: bool): (r: Outcome<seq<Shop>>)
  {
    ClassifyAll(Trimmed(batch, past, trimDupes))
  }

  /** `is_v1` holds exactly when the pay lies strictly inside the band from
      4.95 to 5.05 above 7.5% of the order total; it never holds with NaN. */
  lemma V1PayBand(total: Cell, pay: Cell)
    ensures V1Pay(total, pay) <==>
      total.Num? && pay.Num? && 0.075 * total.x + 4.95 < pay.x < 0.075 * total.x + 5.05
  {
  }

  /** Total 100 and pay 12.50 is v1 pay; total 100 and pay 20 is not. */
  lemma V1PayExamples()
    ensures V1Pay(Num(100.0), Num(12.5))
    ensures !V1Pay(Num(100.0), Num(20.0))
  {
  }

  /** `add_shops` raises exactly when a surviving row has a money text that is
      neither empty nor a number. Otherwise it returns one row per survivor, in
      order, each the survivor with its money cells converted, its other
      fields as they were, and `is_v1` set by the tolerance test. */
  lemma NewShopsRows(batch: seq<Shop>, past: set<string>, trimDupes: bool)
    ensures var t := Trimmed(batch, past, trimDupes);
      NewShops(batch, past, trimDupes).Raised? <==>
        exists i | 0 <= i < |t| :: Numeric(t[i].orderPay).None? || Numeric(t[i].orderTotal).None?
                                 || Numeric(t[i].tip).None? || Numeric(t[i].totalPay).None?
    ensures var t := Trimmed(batch, past, trimDupes);
      var o := NewShops(batch, past, trimDupes);
      o.Done? ==> |o.value| == |t| && forall i | 0 <= i < |t| ::
        && o.value[i].orderNumber == t[i].orderNumber
        && o.value[i].phone == t[i].phone
        && o.value[i].deliveryOnly == t[i].deliveryOnly
        && o.value[i].other == t[i].other
        && Some(o.value[i].orderPay) == Numeric(t[i].orderPay)
        && Some(o.value[i].orderTotal) == Numeric(t[i].orderTotal)
        && Some(o.value[i].tip) == Numeric(t[i].tip)
        && Some(o.value[i].totalPay) == Numeric(t[i].totalPay)
        && o.value[i].isV1 == Some(V1Pay(o.value[i].orderTotal, o.value[i].orderPay))
  {
  }

  // ---------------------------------------------------------------- upsert (lines 82-86)

  /** `ref.set(r, merge=True)` over a stored document: every column of the row
      is written, and fields of the document the row does not name stay. */
  function Merge(stored: Shop, r: Shop): (m: Shop)
  {
    r.(other := stored.other + r.other)
  }

  /** The document under `r`'s order number after the write. */
  function Written(docs: map<string, Shop>, r: Shop): (o: Shop)
  {
    if r.orderNumber in docs then Merge(docs[r.orderNumber], r) else r
  }

  /** Lines 84-86 for one record. */
  function Upsert(docs: map<string, Shop>, r: Shop): (o: map<string, Shop>)
  {
    if r.orderNumber != "" then docs[r.orderNumber := Written(docs, r)] else docs
  }

  /** Lines 83-86: the records written one after the other. */
  function UpsertAll(docs: map<string, Shop>, rows: seq<Shop>): (r: map<string, Shop>)
    decreases |rows|
  {
    if |rows| == 0 then docs else Upsert(UpsertAll(docs, rows[..|rows| - 1]), rows[|rows| - 1])
  }

  /** A merged document has the row's columns and keeps every stored field the
      row does not name. */
  lemma MergeFields(stored: Shop, r: Shop)
    ensures Merge(stored, r).(other := r.other) == r
    ensures forall k | k in r.other :: k in Merge(stored, r).other && Merge(stored, r).other[k] == r.other[k]
    ensures forall k | k in stored.other && k !in r.other ::
      k in Merge(stored, r).other && Merge(stored, r).other[k] == stored.other[k]
  {
  }

  /** Dropping the last of rows with distinct order numbers leaves rows with
      distinct order numbers, none of them the last one's. */
  lemma DistinctInit(rows: seq<Shop>)
    requires |rows| > 0 && Distinct(rows)
    ensures Distinct(rows[..|rows| - 1])
    ensures rows[|rows| - 1].orderNumber !in Numbers(rows[..|rows| - 1])
    ensures Numbers(rows) == Numbers(rows[..|rows| - 1]) + {rows[|rows| - 1].orderNumber}
  {
    var init := rows[..|rows| - 1];
    var last := rows[|rows| - 1];
    forall r | r in init ensures r.orderNumber != last.orderNumber {
      var i :| 0 <= i < |init| && init[i] == r;
    }
    assert rows == init + [last];
    NumbersConcat(init, [last]);
  }

  /** Writing records leaves every document whose id none of them carries. */
  lemma {:induction false} UpsertAllOthers(docs: map<string, Shop>, rows: seq<Shop>)
    ensures forall k | k !in Numbers(rows) ::
      (k in UpsertAll(docs, rows) <==> k in docs)
      && (k in docs ==> UpsertAll(docs, rows)[k] == docs[k])
    decreases |rows|
  {
    if |rows| > 0 {
      var init := rows[..|rows| - 1];
      var last := rows[|rows| - 1];
      UpsertAllOthers(docs, init);
      assert rows == init + [last];
      NumbersConcat(init, [last]);
    }
  }

  lemma {:induction false} UpsertAllWritten(docs: map<string, Shop>, rows: seq<Shop>)
    requires Distinct(rows)
    requires forall r | r in rows :: r.orderNumber != ""
    ensures forall r | r in rows :: (r.orderNumber in UpsertAll(docs, rows)
      && UpsertAll(docs, rows)[r.orderNumber] == Written(docs, r))
    decreases |rows|
  {
    if |rows| > 0 {
      var init := rows[..|rows| - 1];
      var last := rows[|rows| - 1];
      assert rows == init + [last];
      assert forall r | r in init :: r in rows;
      DistinctInit(rows);
      UpsertAllWritten(docs, init);
      var before := UpsertAll(docs, init);
      UpsertAllOthers(docs, init);
      assert last.orderNumber in before <==> last.orderNumber in docs;
      assert last.orderNumber in docs ==> before[last.orderNumber] == docs[last.orderNumber];
      assert Written(before, last) == Written(docs, last);
      forall r | r in init
        ensures UpsertAll(docs, rows)[r.orderNumber] == before[r.orderNumber]
      {
        assert r.orderNumber != last.orderNumber;
      }
    }
  }

  /** For records with distinct non-empty order numbers, as `add_shops` writes
      them: afterwards each is stored under its order number, merged into what
      was there, and every other document is as it was. */
  lemma UpsertAllStores(docs: map<string, Shop>, rows: seq<Shop>)
    requires Distinct(rows)
    requires forall r | r in rows :: r.orderNumber != ""
    ensures forall r | r in rows :: (r.orderNumber in UpsertAll(docs, rows)
      && UpsertAll(docs, rows)[r.orderNumber] == Written(docs, r))
    ensures forall k | k !in Numbers(rows) ::
      (k in UpsertAll(docs, rows) <==> k in docs)
      && (k in docs ==> UpsertAll(docs, rows)[k] == docs[k])
  {
    UpsertAllWritten(docs, rows);
    UpsertAllOthers(docs, rows);
  }

  /** A document id holds the document with that order number, as every write
      of line 86 keeps it. */
  ghost predicate Keyed(docs: map<string, Shop>)
  {
    forall k | k in docs :: docs[k].orderNumber == k
  }

  lemma {:induction false} UpsertAllKeyed(docs: map<string, Shop>, rows: seq<Shop>)
    requires Keyed(docs)
    ensures Keyed(UpsertAll(docs, rows))
    decreases |rows|
  {
    if |rows| > 0 {
      UpsertAllKeyed(docs, rows[..|rows| - 1]);
    }
  }

  /** Lines 55-59: the order numbers of the documents stored for the phone. */
  function PastOrderNumbers(docs: map<string, Shop>, phone: string): (r: set<string>)
  {
    set k | k in docs && docs[k].phone == phone :: docs[k].orderNumber
  }

  /** The rows `add_shops` returns carry distinct, non-empty, new order
      numbers, all of the batch's new ones, and the batch's phone. */
  lemma AddedRows(batch: seq<Shop>, past: set<string>, phone: string)
    requires forall r | r in batch :: r.phone == phone
    requires NewShops(batch, past, true).Done?
    ensures var added := NewShops(batch, past, true).value;
      && Numbers(added) == Numbers(batch) - past - {""}
      && Distinct(added)
      && forall r | r in added :: r.orderNumber != "" && r.phone == phone
  {
    var t := Trimmed(batch, past, true);
    var added := NewShops(batch, past, true).value;
    TrimmedWithDupes(batch, past);
    NewShopsRows(batch, past, true);
    forall k | k in Numbers(t) ensures k in Numbers(added) {
      var i :| 0 <= i < |t| && t[i].orderNumber == k;
      assert added[i] in added;
    }
    forall k | k in Numbers(added) ensures k in Numbers(t) {
      var i :| 0 <= i < |added| && added[i].orderNumber == k;
      assert t[i] in t;
    }
    forall r | r in added ensures r.orderNumber != "" && r.phone == phone {
      var i :| 0 <= i < |added| && added[i] == r;
      assert t[i] in t && t[i].orderNumber in Numbers(t);
      var j :| 0 <= j < |batch| && batch[j] == t[i] && FirstAt(batch, j);
      assert batch[j] in batch;
    }
  }

  /** Writing new rows of a phone keeps its past order numbers and adds theirs. */
  lemma StoredNumbers(docs: map<string, Shop>, added: seq<Shop>, phone: string)
    requires Keyed(docs)
    requires Distinct(added)
    requires forall r | r in added :: r.orderNumber != "" && r.phone == phone
    requires Numbers(added) !! PastOrderNumbers(docs, phone)
    ensures PastOrderNumbers(docs, phone) + Numbers(added)
         <= PastOrderNumbers(UpsertAll(docs, added), phone)
  {
    var stored := UpsertAll(docs, added);
    UpsertAllStores(docs, added);
    forall k | k in PastOrderNumbers(docs, phone) ensures k in PastOrderNumbers(stored, phone) {
      var d :| d in docs && docs[d].phone == phone && docs[d].orderNumber == k;
      assert d == k && stored[k] == docs[k];
    }
    forall k | k in Numbers(added) ensures k in PastOrderNumbers(stored, phone) {
      var r :| r in added && r.orderNumber == k;
      assert stored[k] == Written(docs, r);
    }
  }

  /** Sending the same shops again adds none: once `add_shops` has stored a
      batch whose rows carry the phone, the same batch trims to nothing. */
  lemma ResendAddsNothing(docs: map<string, Shop>, batch: seq<Shop>, phone: string)
    requires Keyed(docs)
    requires forall r | r in batch :: r.phone == phone
    requires NewShops(batch, PastOrderNumbers(docs, phone), true).Done?
    ensures var stored := UpsertAll(docs, NewShops(batch, PastOrderNumbers(docs, phone), true).value);
      NewShops(batch, PastOrderNumbers(stored, phone), true) == Done([])
  {
    var past := PastOrderNumbers(docs, phone);
    var added := NewShops(batch, past, true).value;
    AddedRows(batch, past, phone);
    StoredNumbers(docs, added, phone);
    var past' := PastOrderNumbers(UpsertAll(docs, added), phone);
    TrimmedWithDupes(batch, past');
    var t' := Trimmed(batch, past', true);
    assert Numbers(t') == {} by {
      forall k | k in Numbers(batch) - {""} ensures k in past' {
        if k !in past {
          assert k in Numbers(added);
        }
      }
    }
    NumbersEmpty(t');
    assert |ClassifyAll(t').value| == 0;
  }

  // ---------------------------------------------------------------- counting (lines 105-111, 125-130, 148-156)

  /** `get_phone_shops`: the documents of the phone (stripped of `+`) that are
      not delivery-only. */
  function PhoneShops(docs: map<string, Shop>, phone: string): (r: set<string>)
  {
    set k | k in docs && docs[k].phone == StripChar(phone, '+') && docs[k].deliveryOnly == Bool(false)
  }

  /** `get_v1_shops` as written: the phone is matched as given, without
      stripping `+`. */
  function V1ShopsAsWritten(docs: map<string, Shop>, phone: string): (r: set<string>)
  {
    set k | k in docs && docs[k].phone == phone && docs[k].isV1 == Some(true)
                      && docs[k].deliveryOnly == Bool(false)
  }

  /** The v1 documents of the phone stripped of `+`, as every other query of
      the backend matches it. */
  function V1Shops(docs: map<string, Shop>, phone: string): (r: set<string>)
  {
    set k | k in docs && docs[k].phone == StripChar(phone, '+') && docs[k].isV1 == Some(true)
                      && docs[k].deliveryOnly == Bool(false)
  }

  /** More than three quarters of `n`, in integers: `v / n > 0.75`. */
  predicate MostlyV1(v: nat, n: nat)
  {
    4 * v > 3 * n
  }

  /** `is_likely_v1_algo_p` as written. */
  function IsLikelyV1AsWritten(docs: map<string, Shop>, phone: string): (r: Option<bool>)
  {
    var n := |PhoneShops(docs, phone)|;
    if n == 0 then None else Some(MostlyV1(|V1ShopsAsWritten(docs, phone)|, n))
  }

  /** `is_likely_v1_algo_p` with both counts over the same phone. */
  function IsLikelyV1(docs: map<string, Shop>, phone: string): (r: Option<bool>)
  {
    var n := |PhoneShops(docs, phone)|;
    if n == 0 then None else Some(MostlyV1(|V1Shops(docs, phone)|, n))
  }

  /** The v1 shops are among the shops counted, so the ratio is at most 1. */
  lemma V1ShopsCounted(docs: map<string, Shop>, phone: string)
    ensures V1Shops(docs, phone) <= PhoneShops(docs, phone)
    ensures |V1Shops(docs, phone)| <= |PhoneShops(docs, phone)|
  {
    assert V1Shops(docs, phone) <= PhoneShops(docs, phone);
    SubsetCard(V1Shops(docs, phone), PhoneShops(docs, phone));
  }

  lemma {:induction false} SubsetCard(a: set<string>, b: set<string>)
    requires a <= b
    ensures |a| <= |b|
    decreases |b|
  {
    if a != {} {
      var x :| x in a;
      SubsetCard(a - {x}, b - {x});
    }
  }

  /** The answer is absent without a counted shop; with all counted shops v1
      it is true, and with none of them v1 it is false. */
  lemma IsLikelyV1Cases(docs: map<string, Shop>, phone: string)
    ensures IsLikelyV1(docs, phone).None? <==> PhoneShops(docs, phone) == {}
    ensures PhoneShops(docs, phone) != {} && V1Shops(docs, phone) == PhoneShops(docs, phone)
      ==> IsLikelyV1(docs, phone) == Some(true)
    ensures PhoneShops(docs, phone) != {} && V1Shops(docs, phone) == {}
      ==> IsLikelyV1(docs, phone) == Some(false)
  {
  }

  /** Where the phone carries no `+`, the source's function and the corrected
      one agree. */
  lemma AsWrittenWithoutPlus(docs: map<string, Shop>, phone: string)
    requires StripChar(phone, '+') == phone
    ensures IsLikelyV1AsWritten(docs, phone) == IsLikelyV1(docs, phone)
  {
  }

  /** A phone given with its `+` (`stored` is that phone without it): its one
      v1 shop is counted among its shops but not among its v1 shops, so the
      source answers false where every shop of the user is v1. */
  lemma AsWrittenMissesPlusPhone(stored: string, phone: string)
    requires phone == "+555" && stored == "555"
    ensures var docs := map["1" := Shop("1", stored, Bool(false), Num(100.0), Num(12.5), Num(0.0),
                                         Num(12.5), Some(true), map[])];
      IsLikelyV1AsWritten(docs, phone) == Some(false) && IsLikelyV1(docs, phone) == Some(true)
  {
    assert StripChar(phone, '+') == stored by {
      assert phone[0] == '+' && phone[1..] == stored;
    }
    var docs := map["1" := Shop("1", stored, Bool(false), Num(100.0), Num(12.5), Num(0.0),
                                Num(12.5), Some(true), map[])];
    assert PhoneShops(docs, phone) == {"1"};
    assert V1Shops(docs, phone) == {"1"};
    assert V1ShopsAsWritten(docs, phone) == {} by {
      assert phone != stored by { assert |phone| != |stored|; }
    }
  }

  // ---------------------------------------------------------------- the store

  /** The shops collection of one `FirestoreBackend`. */
  class ShopStore {
    var docs: map<string, Shop>

    ghost predicate Valid()
      reads this
    {
      Keyed(docs)
    }

    constructor()
      ensures Valid() && docs == map[]
    {
      docs := map[];
    }

    /** `add_shops`: trims and tags the batch against the phone's stored order
        numbers, writes every surviving row under its order number, and
        returns the survivors; when it raises, nothing is written. */
    method AddShops(batch: seq<Shop>, phone: string, trimDupes: bool) returns (o: Outcome<seq<Shop>>)
      requires Valid()
      modifies this
      ensures Valid()
      ensures o == NewShops(batch, PastOrderNumbers(old(docs), StripChar(phone, '+')), trimDupes)
      ensures o.Done? ==> docs == UpsertAll(old(docs), o.value)
      ensures !o.Done? ==> docs == old(docs)
    {
      var past := PastOrderNumbers(docs, StripChar(phone, '+'));
      o := NewShops(batch, past, trimDupes);
      if !o.Done? {
        return;
      }
      var records := o.value;
      for i := 0 to |records|
        invariant docs == UpsertAll(old(docs), records[..i])
        invariant Valid()
      {
        var r := records[i];
        if r.orderNumber != "" {
          docs := docs[r.orderNumber := Written(docs, r)];
        }
        assert records[..i + 1][..i] == records[..i];
      }
      assert records[..|records|] == records;
    }

    /** `n_records`. */
    method NRecords(phone: string) returns (n: nat)
      ensures n == |PhoneShops(docs, phone)|
    {
      n := |PhoneShops(docs, phone)|;
    }

    /** `is_likely_v1_algo_p`, with the v1 count taken for the same phone as
        the count of all shops: `None` for a phone without shops, otherwise
        whether more than three quarters of them are v1. */
    method IsLikelyV1AlgoP(phone: string) returns (r: Option<bool>)
      ensures r == IsLikelyV1(docs, phone)
      ensures r.None? <==> PhoneShops(docs, phone) == {}
    {
      var v1 := |V1Shops(docs, phone)|;
      var n := NRecords(phone);
      if n == 0 {
        r := None;
      } else {
        r := Some(MostlyV1(v1, n));
      }
    }
  }
}
