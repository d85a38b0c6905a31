# Shipt receipt scanner and shop ingestion, modelled in Dafny

shipt-calculator reads screenshots of Shipt delivery receipts that shoppers
send by SMS. It turns them into shop records, and stores them per phone
number, so that it can tell shoppers whether they are likely paid under the
old ("v1") pay formula. The project models the deterministic core of that
system:

- **The receipt scanner** (`receipt_to_df` in `shipt/receipts.py`). It takes
  the OCR text of one screenshot line by line. It dispatches on the first
  space-separated token (`Window`, `Delivery`, `Delivered`, `Order Pay`,
  `Order`, `Tip`, `Promo`, `Total`) and fills a partial record as it goes. On
  every `Total` line it reconciles the record, emits it if it has an order
  number and an order total, and starts a new one.
  - `Scanner.ScanFrom` is the specification of the scan.
  - `Scanner.ReceiptToRecords` is the loop, proved equal to it.
  - A Python exception, which makes the web layer drop the whole image, is
    the outcome `Raised(fault)`.
- **The reconciler** (`guess_better_numbers`). It repairs OCR magnitude
  errors by dividing `order_pay` and `tip` by ten until they do not exceed
  `total_pay`. It then lowers `total_pay` to the sum of the parts when it is
  larger. Finally it makes up an order number from tip, total and delivery
  day when the scanned one is not an integer.
  - `Reconcile.Reconciled` is the specification.
  - `Reconcile.GuessBetterNumbers` runs the two loops and is proved equal to it.
  - A loop that never exits (a negative total) is the outcome `Diverges`.
- **The helpers** `strip_punc`, `is_number` and `to_number_or_none`.
- **Ingestion** (`add_shops` in `shipt/shipt_backend.py`).
  - It drops the batch rows whose order number the phone already has stored.
  - It keeps the first row for each order number and drops empty order
    numbers.
  - It converts the money columns and tags `is_v1`, meaning the pay is within
    five cents of `0.075 * order_total + 5`.
  - It then upserts every survivor, keyed by order number, into the shops
    collection. The collection is the field `docs` of the class
    `Backend.ShopStore`, a map from document id to document.
- **The v1 ratio** (`is_likely_v1_algo_p`) and the two queries it counts.

Inputs the source reads from its surroundings are parameters:

- The scanner takes the OCR text, the current year, today's date and the file
  name in `Env`.
- Ingestion takes the batch rows. It reads the past order numbers from the
  store, through the same phone query the source runs.

Money is an exact `real`. `round(x / 10, 2)` is rounding half up on reals.

In these places the code does something a reader may not expect, and the model
follows the code:

- The made-up order number is computed before the order number is checked
  (shipt/receipts.py:98-101). So a record without a `delivery_date`, or with a
  date holding no `/`, raises. It is not left as it was.
- Line 88 of `shipt/receipts.py` is a comparison, not an assignment. It is
  modelled as a no-op, and `Reconcile.CorrectAfterLoops` shows that its
  branch cannot run after the loop at line 76.
- Only a window line of exactly two tokens is joined with the next line
  (shipt/receipts.py:156). A window wrapped after its start time,
  `Delivery window: 9AM` followed by `to 10AM, Mar 14`, already has three
  tokens. It is read alone, the text after its last `:` holds no `to`, and
  `split("to")[1]` at line 164 raises IndexError
  (`Scanner.WrappedWindowRaises`).
- `pd.to_numeric("")` gives NaN, not an error. A NaN compares false
  everywhere, and `int(nan)` raises `ValueError`. So an empty `total_pay`
  passes the check at line 74 and fails at line 100.

## Model

| member | source | states |
|---|---|---|
| `Receipts.StripPunc` | shipt/receipts.py:15-16 | the result holds no ASCII punctuation, is no longer than the input, and equals the input when that has none |
| `Receipts.StripPuncConcat` | shipt/receipts.py:15-16 | stripping works character by character: on a concatenation it is the concatenation of the two results, so every other character stays, in order |
| `Receipts.StripPuncChar` | shipt/receipts.py:15-16 | one character is kept exactly when it is not punctuation |
| `Receipts.StripPuncIdempotent` | shipt/receipts.py:15-16 | stripping twice is stripping once |
| `Receipts.StripPuncHash` | shipt/receipts.py:177-178 | the order-number token `#` followed by digits strips to the digits |
| `Receipts.NumberOfIntString` | shipt/receipts.py:36-41 | what `str(n)` prints is accepted by `is_number` and reads back as `n` |
| `Receipts.ToNumberOrNone` | shipt/receipts.py:55-59 | text becomes a number exactly when it is a number literal, and then its value; `""` becomes NaN; other text becomes `None`; a converted value is kept |
| `Receipts.ToNumberOrNoneIdempotent` | shipt/receipts.py:55-59 | converting a converted value changes nothing |
| `PyDate.MonthNumber` | shipt/receipts.py:138-139 | `%b` accepts a token exactly when its lower case is one of the twelve abbreviations, giving that month's number |
| `PyDate.DayNumber` | shipt/receipts.py:138-139 | a `%d,` token is accepted exactly when it is one or two digits worth 1 to 31 followed by a comma, and then gives the value of those digits |
| `PyDate.WindowDateFields` | shipt/receipts.py:137-140 | the Window date is produced exactly when month, day within that month of that year, and a four-digit year are valid; it then splits on `/` into the month, the day and the year |
| `Reconcile.ShrinkStep` | shipt/receipts.py:76-80 | for a non-negative total, one division step lowers a value above the total and keeps it non-negative, and the loop measure falls while the value stays above |
| `Reconcile.ShrinkStaysAboveNegative` | shipt/receipts.py:76-80 | for a negative total, a value above it stays above it after every step, so the loop never exits |
| `Reconcile.ShrunkBelow` | shipt/receipts.py:76-80 | the loop ends at or below the total, strictly lower than a start above it, unchanged from a start at or below it, and non-negative from a non-negative start |
| `Reconcile.ShrinkWhileAbove` | shipt/receipts.py:76-77 | the `while` loop computes `ShrunkBelow` |
| `Reconcile.ShrinkExtraDigit` | tests/test_receipts.py:212-216 | an order pay read as 111.70 against a total of 11.17 ends at 11.17 |
| `Reconcile.Correct` | shipt/receipts.py:82-95 | the correction never changes order pay or promo pay, never raises the total, and leaves a tip that is at most the total |
| `Reconcile.CorrectPays` | shipt/receipts.py:82-95 | the `if`/`elif` chain computes `Correct` |
| `Reconcile.CorrectAfterLoops` | shipt/receipts.py:82-95 | after both loops only the total can change: it drops to the sum of the parts when it exceeds it, and otherwise all four stay; afterwards the total is at most the sum |
| `Reconcile.NewOrderNumber` | shipt/receipts.py:98-101 | the made-up number exists exactly when the date holds a `/`, and then has at least two characters |
| `Reconcile.NewOrderNumberExample` | shipt/receipts.py:98-101 | tip 5, total 67 and date 03/14/2024 make `56714` |
| `Reconcile.GuessBetterNumbers` | shipt/receipts.py:62-109 | the method with its two loops computes `Reconciled` |
| `Reconcile.ReconciledEarlyReturns` | shipt/receipts.py:68-75 | a record lacking tip, order pay or promo pay comes back untouched; one whose order pay or total pay does not convert comes back converted, with its order number as it was |
| `Reconcile.ReconciledBalances` | shipt/receipts.py:76-95 | on numbers: order pay and tip are the loops' results, all three end at or below the original total, the total ends at most the sum of the parts, and a lowered total equals that sum |
| `Reconcile.ReconciledWithNaN` | shipt/receipts.py:70-95 | with a NaN order pay or promo pay, total and promo stay as converted, the tip is still shrunk, and a NaN order pay stays NaN |
| `Reconcile.NumberedOrderNumber` | shipt/receipts.py:97-108 | the order number is kept when `int()` accepts it and replaced by the made-up one otherwise, and is never empty; tip and total are untouched |
| `Reconcile.ReconciledOrderNumber` | shipt/receipts.py:97-108 | a completed repair leaves numeric tip and total and a non-empty order number: the scanned one when `int()` accepts it, else the one made from the final tip, total and date |
| `Reconcile.NumberedKeepsTextFields` | shipt/receipts.py:97-108 | making up the order number changes no other field |
| `Reconcile.ReconciledKeepsTextFields` | shipt/receipts.py:62-109 | reconciliation changes only the money fields and the order number |
| `Reconcile.ReconciledTermination` | shipt/receipts.py:76-80 | without a negative total, reconciliation always ends; with a negative total and a larger order pay, it never does |
| `Reconcile.ReconciledFaults` | shipt/receipts.py:76-101 | it raises exactly when the tip is not a number, the promo did not convert, the total is NaN, or the date is missing or has no `/`, and it names the exception the source raises first |
| `Scanner.Tokens` | shipt/receipts.py:113-114 | splitting a line on the space gives at least one token |
| `Scanner.Amount` | shipt/receipts.py:172-173 | an amount cut from a token holds no comma |
| `Scanner.ReadWindow` | shipt/receipts.py:129-144 | the Window branch computes `WindowLine` |
| `Scanner.ReadDelivery` | shipt/receipts.py:146-164 | the Delivery branch, with its look-ahead, computes `DeliveryLine` |
| `Scanner.ReadDelivered` | shipt/receipts.py:165-170 | the Delivered branch computes `DeliveredLine` |
| `Scanner.ReadOrder` | shipt/receipts.py:174-202 | the Order branch computes `OrderLine` |
| `Scanner.ReadOrderPay` | shipt/receipts.py:171-173 | the Order Pay branch computes `OrderPayLine` |
| `Scanner.ReadTip` | shipt/receipts.py:203-204 | the Tip branch computes `TipLine` |
| `Scanner.ReadPromo` | shipt/receipts.py:205-206 | the Promo branch computes `PromoLine` |
| `Scanner.FlushRecord` | shipt/receipts.py:207-219 | the Total branch computes `TotalLine` |
| `Scanner.ScanStep` | shipt/receipts.py:121-221 | a line that completes hands the scan of the remaining lines its new record and its emission |
| `Scanner.ReceiptToRecords` | shipt/receipts.py:111-221 | the `for` loop over the lines computes `ReceiptRecords` |
| `Scanner.WindowLineFields` | shipt/receipts.py:129-144 | a Window line sets start and end (without `-`), and delivery and delivered date to the same `strptime` date of the given year; no other field changes |
| `Scanner.WindowLineTimes` | shipt/receipts.py:135-142 | a time range `<start>-<end>` with a single `-` gives exactly that start and end, whenever the date parses |
| `Scanner.WindowLineFaults` | shipt/receipts.py:132-140 | it raises exactly when the line is short, the date does not parse, or the times lack a `-`; the exception is the first the source meets |
| `Scanner.DeliveryWindowTimes` | shipt/receipts.py:158-164 | a window `<start>to<end>` after the last `:`, with `to` only between them, gives start `strip_punc` of the stripped start and end `strip_punc` of the stripped end |
| `Scanner.DeliveryWindowFields` | shipt/receipts.py:158-164 | a window line raises exactly when it has fewer than three tokens or no `to` after its last `:`; otherwise start and end are punctuation-free, the date has no `:`, and no other field changes |
| `Scanner.DeliveryLineWithoutWindow` | shipt/receipts.py:146-153 | `Delivery Only` only sets the flag to true; another line without "window" only defaults the flag to false |
| `Scanner.DeliveryLineJoin` | shipt/receipts.py:153-157 | a two-token window line is read joined with the next line, and raises when it is the last line |
| `Scanner.DeliveryLineOnlyFlag` | shipt/receipts.py:146-151 | any other Delivery line keeps a set flag and defaults a missing one to false |
| `Scanner.DeliveredLineFields` | shipt/receipts.py:165-170 | a Delivered line raises IndexError exactly when it has one token; otherwise the date is the second token without its last character, `Today,` becomes today's date, the time is empty on a two-token line, and no other field changes |
| `Scanner.DeliveredTimeRoundTrip` | shipt/receipts.py:169-170 | on three or more tokens the time splits back into the tokens after the date |
| `Scanner.OrderPayLineFields` | shipt/receipts.py:171-173 | an `Order Pay` line raises IndexError exactly below three tokens; otherwise it sets only the order pay, to the comma-free amount of the third token, and emits nothing |
| `Scanner.OrderLineFields` | shipt/receipts.py:174-202 | the order number is `strip_punc` of the second token; the total is NaN exactly below four tokens, and otherwise the comma-free amount of the fourth token after a marker and of the third without one; `Time` in the last token gives on time, otherwise `Late` gives late, otherwise `late` stays; no other field changes |
| `Scanner.OrderLineMarkedOnTime` | shipt/receipts.py:186-200 | a line of four or more tokens whose third is a marker and whose last holds `Time` takes its total from the fourth token and reads on time |
| `Scanner.OrderLineWithMarker` | shipt/receipts.py:186-191 | `Order #123456 + $45.67 On Time` reads number 123456, total 45.67, on time |
| `Scanner.OrderLineWithoutMarker` | shipt/receipts.py:192-202 | `Order #123456 $45.67 Late` reads number 123456, total 45.67, late |
| `Scanner.OrderLineWithoutTotal` | shipt/receipts.py:197-198 | `Order #123456` reads number 123456 and a NaN total |
| `Scanner.TipLineFields` | shipt/receipts.py:203-204 | a Tip line never raises and sets only the tip, to the last token without its first character, blanks and commas kept |
| `Scanner.PromoLineFields` | shipt/receipts.py:205-206 | a Promo line raises IndexError exactly below three tokens; otherwise it sets only the promo pay, to the third token without its first character and stripped, whose commas are kept: removing them gives the `Order Pay` amount |
| `Scanner.WindowWithoutTo` | shipt/receipts.py:153-164 | a window line of three or more tokens with no `to` after its last `:` raises IndexError |
| `Scanner.WrappedWindowRaises` | shipt/receipts.py:156-164 | `Delivery window: 9AM` followed by `to 10AM, Mar 14` raises IndexError |
| `Scanner.TotalLineFlush` | shipt/receipts.py:207-219 | a Total line sets the total pay, defaults promo to 0 and sets the file name; it resets the record, and emits the reconciled record exactly when that qualifies |
| `Scanner.StepEmission` | shipt/receipts.py:207-219 | only a Total line emits, what it emits qualifies and carries the file name, and every Total line resets the record |
| `Scanner.ScanOutput` | shipt/receipts.py:115-221 | the scan only appends, at most one record per remaining Total line, each qualifying and carrying the file name |
| `Scanner.NothingAfterLastTotal` | shipt/receipts.py:207-221 | lines after the last Total line emit nothing |
| `Scanner.ReceiptRecordsQualify` | shipt/receipts.py:215-218 | a screenshot yields no more records than Total lines, each with a non-empty order number, an order total and the file name |
| `Backend.TrimmedIsKept` | shipt/shipt_backend.py:62-72 | with `trim_dupes`, the survivors are exactly the batch rows that are the first with their order number and whose number is non-empty and not stored, in batch order |
| `Backend.TrimmedWithDupes` | shipt/shipt_backend.py:57-72 | every survivor is a batch row that is the first with its number, no two survivors share a number, and the surviving numbers are the batch's less the empty and the stored ones |
| `Backend.TrimmedWithoutDupes` | shipt/shipt_backend.py:68-72 | without `trim_dupes`, the survivors are exactly the batch rows with a non-empty number, duplicates and past numbers included |
| `Backend.TrimmedWithoutDupesConcat` | shipt/shipt_backend.py:68-72 | without `trim_dupes`, trimming a concatenation concatenates the trims, so batch order is kept |
| `Backend.TrimmedWithoutDupesRow` | shipt/shipt_backend.py:71-72 | without `trim_dupes`, one row is dropped exactly when its order number is empty |
| `Backend.Numeric` | shipt/shipt_backend.py:74-77 | a cell converts to a number or NaN, and makes the column raise exactly when it is non-empty text that is not a number |
| `Backend.V1PayBand` | shipt/shipt_backend.py:79-80 | `is_v1` holds exactly when the pay lies strictly between 4.95 and 5.05 above 7.5% of the total, and never with NaN |
| `Backend.V1PayExamples` | shipt/shipt_backend.py:79-80 | total 100 with pay 12.50 is v1; with pay 20 it is not |
| `Backend.NewShopsRows` | shipt/shipt_backend.py:62-89 | `add_shops` raises exactly when a survivor has unconvertible money text; otherwise it returns the survivors in order, money converted, other fields kept, `is_v1` set by the tolerance test |
| `Backend.AddedRows` | shipt/shipt_backend.py:62-89 | the returned rows have distinct, non-empty, new order numbers, namely all new numbers of the batch |
| `Backend.MergeFields` | shipt/shipt_backend.py:86 | a merged write stores every column of the row and keeps the stored fields the row does not name |
| `Backend.UpsertAllOthers` | shipt/shipt_backend.py:83-86 | documents whose id no written row carries are neither added, removed nor changed |
| `Backend.UpsertAllStores` | shipt/shipt_backend.py:83-86 | after writing rows with distinct non-empty numbers, each is stored under its number merged into what was there, and every other document is as it was |
| `Backend.UpsertAllKeyed` | shipt/shipt_backend.py:83-86 | writing keeps every document under the id equal to its order number |
| `Backend.StoredNumbers` | shipt/shipt_backend.py:55-86 | after the write, the phone's stored numbers include the old ones and those written |
| `Backend.ResendAddsNothing` | shipt/shipt_backend.py:55-89 | adding a batch of the phone's rows a second time returns no rows |
| `Backend.V1ShopsCounted` | shipt/shipt_backend.py:105-130 | the v1 shops of a phone are among its counted shops, so the ratio is at most 1 |
| `Backend.IsLikelyV1Cases` | shipt/shipt_backend.py:148-156 | the answer is absent exactly when no shop counts; all counted shops v1 gives true, none gives false |
| `Backend.AsWrittenWithoutPlus` | shipt/shipt_backend.py:148-156 | for a phone without a `+`, the function as written and the corrected one agree |
| `Backend.AsWrittenMissesPlusPhone` | shipt/shipt_backend.py:125-156 | for phone `+555` with one v1 shop of `555`, the function as written answers false and the corrected one true |
| `Backend.ShopStore.constructor` | shipt/shipt_backend.py:8-14 | a new store is empty |
| `Backend.ShopStore.AddShops` | shipt/shipt_backend.py:52-89 | returns `NewShops` against the phone's stored numbers, writes exactly `UpsertAll` of the returned rows (nothing when it raises), and keeps documents keyed by order number |
| `Backend.ShopStore.NRecords` | shipt/shipt_backend.py:101-103 | the count is the number of the phone's documents that are not delivery-only |
| `Backend.ShopStore.IsLikelyV1AlgoP` | shipt/shipt_backend.py:148-156 | computes the corrected `IsLikelyV1`: absent exactly when the phone has no counted shop, otherwise whether more than three quarters of them are v1 |

## Left out

- Image handling (`image_to_text`, shipt/receipts.py:19-33) is left out because it calls OpenCV and Tesseract and writes temporary files. The model starts from the OCR text.
- The pandas tail of `receipt_to_df` (shipt/receipts.py:222-226) is left out: `date_submitted`, the column-wise `to_number_or_none` and `fillna("")`. The scanner returns its records. `Backend.ShopStore.AddShops` takes the DataFrame rows that tail would produce.
- `verbose` and every `print` are left out because they are output only.
- `bad_entries_to_na` is left out because nothing calls it.
- Floating point is left out: money is an exact `real`, and `round(x / 10, 2)` rounds half up, as IEEE doubles do for all but ties. `0.075`, `0.05` and `0.75` are exact, and the ratio test is `4 * v1 > 3 * n`.
- `is_number` and `pd.to_numeric` accept sign, digits and at most one decimal point. Exponents, `inf`, `nan`, surrounding whitespace and underscores are not modelled.
- `int()` of the order number accepts an optionally signed run of ASCII digits inside whitespace. Underscores and non-ASCII digits are not modelled.
- `strptime` is modelled for the C locale and ASCII digits only. It does not model the whitespace other than the single space that Python's `_strptime` lets each space of the format match. For example, a tab after `Mar` is accepted by Python but rejected by the model.
- `to_number_or_none` of `None` is not modelled: the scanner never passes it one.
- The Firestore client, batches and queries are not modelled as such. The collection is a map, and a query is a set comprehension over it. `batch.commit()` commits an empty batch and is not modelled.
- Backend.ShopStore.AddShops: a batch that lacks a whole money or `order_number` column, which raises `KeyError` in pandas, is not modelled. Every row carries all of them.
- Sessions, metro storage, deletion, `get_metro_stats` (fuzzy matching), the pay averages, and `get_v2_shops` are not modelled. These are store queries and pandas means outside the classification.
- The SMS dialogue (`shipt/__init__.py`), `shipt/auth.py`, `shipt/api.py`, `shipt/export.py` and the scripts are not modelled. They are I/O, secrets and cloud storage.

## Findings

| source | as written | input that shows it | evidently intended | confidence | as-written member | corrected member |
|---|---|---|---|---|---|---|
| shipt/shipt_backend.py:125-156 | `get_v1_shops` matches the phone as given, while `n_records` (through `get_phone_shops`) strips the `+` first | phone `+555` whose one stored shop, of phone `555`, is v1: 1 shop counted, 0 v1 shops, answer false | both counts over the phone stripped of `+`, answer true | not executed; every caller in shipt/__init__.py strips `+` before calling | `Backend.IsLikelyV1AsWritten`, `Backend.AsWrittenMissesPlusPhone` | `Backend.IsLikelyV1`, `Backend.IsLikelyV1Cases` |
