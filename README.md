# mars-edi, modelled in Dafny

mars-edi turns inbound EDI records into plain-text shipment summaries. Two
parsers do the work:

- **Mars (204 load tender).** `mars-edi.py` takes the first physical line of
  a record and splits it on the ellipsis character U+2026 into segments. It
  then walks the segments left to right with a small per-transaction state:
  whether totals were already reported, and the purchase orders (POs) already
  seen. Each segment is split on `*` and dispatched on its tag (and for `ST`,
  `G62` and `N1` on the second field, for `L11` on the last). Every rule appends a fragment of
  report text. An `N1*ST` segment consumes the two segments after it, and an
  `SE` segment ends the transaction and clears the state.
- **Abacus (address and bill of lading).** `abacusedi.py` makes one pass over
  the lines of a record. It matches each line by prefix (`N1*`, `N3*`, `N4*`,
  `N9*BM*`), strips the fields the rule reads, and appends them on new lines.
  It then removes every `~`.

The project has four modules:

- `Wrappers` (`wrappers.dfy`): `Option` and `Result`.
- `Text` (`text.dfy`): the Python string operations both parsers rely on.
  These are `str.split` on one character, with `Join` as its inverse,
  `list.index`, clamped slicing, `str.strip()` with Python's whitespace set,
  and `str.replace(c, '')`.
- `Mars` (`mars.dfy`): the Mars parser.
  - `Dispatch` is one call of `parse_lines` on one segment, as a pure step on
    a `Control` state (index, totals flag, PO list).
  - `Run` is the tail recursion. `RunTo` is the same recursion stopped at a
    given index, so one transaction in the middle of a record can be
    studied on its own.
  - `ParseLines` is the same recursion written as the `while` loop it is. It
    is proved equal to `Run`, and the rules are proved as lemmas about
    `Dispatch` and `Run`.
- `Abacus` (`abacus.dfy`): the Abacus loop. `ParseRecord` updates
  `order_info` line by line and is proved equal to the fold `Summary`.
  `Summary` is tied to `Fragments`, an independent, compositional reference,
  and the extractor's properties are proved about that reference.

Python exceptions on malformed input are modelled as error results: `Err`
with the segment or line and the field index Python would have read. They
are not modelled as preconditions. The error checks run in the order Python
evaluates the expressions.

Some behaviour of the code as written is worth knowing; the model keeps it:

- For `S5`, cases and weight are the fields just *before* the first `CA` and
  the first `L`. For `S5*1*CA*10*G*L*2000` that gives cases `1` and weight
  `G`. A marker in first position makes Python read index -1, the last field;
  `Preceding` models that too.
- `format_edi_date` slices leniently. A date shorter than 8 characters gives
  a shorter result with both dashes still inserted. It never raises.
- Empty segments, such as the one after a trailing U+2026, are not
  discarded. Their tag `""` matches no rule, so they append nothing.
- `L11` rules compare the last field exactly. A segment whose last field
  still carries a `~` terminator (`...*WH~`) is therefore ignored.

## Model

| member | source | states |
|---|---|---|
| Text.Join | mars-edi.py:56 | no contract of its own: gluing pieces with a separator, the inverse that Text.SplitSpec and Text.SplitJoin relate to `split` |
| Text.Split | mars-edi.py:56 | `s.split(sep)` gives at least one piece, even for the empty text |
| Text.SplitSpec | mars-edi.py:56 | no piece of `s.split(sep)` contains `sep`, and joining the pieces with `sep` gives `s` back |
| Text.Fields | mars-edi.py:56 | no contract of its own: `split('*')`, the fields of an EDI segment or line, specified through Text.Split and Text.SplitSpec |
| Text.SplitJoin | mars-edi.py:56 | splitting the `sep`-join of at least one `sep`-free field gives exactly those fields |
| Text.IndexOf | mars-edi.py:65 | `list.index`: the position of the first occurrence, none exactly when the element is absent |
| Text.Slice | mars-edi.py:123 | Python slicing: `s[i:j]` inside the bounds, clamped to the end past it, empty when the start is past the end or the stop |
| Text.TrimStart | abacusedi.py:54 | no contract of its own: `lstrip()`, specified by Text.TrimStartSpec |
| Text.TrimEnd | abacusedi.py:54 | no contract of its own: `rstrip()`, specified by Text.TrimEndSpec |
| Text.Strip | abacusedi.py:54 | no contract of its own: `strip()` as `rstrip` after `lstrip`, specified by Text.StripSpec |
| Text.TrimStartSpec | abacusedi.py:54 | `lstrip` keeps a suffix of the input, everything it drops is whitespace, and the result does not start with whitespace |
| Text.TrimEndSpec | abacusedi.py:54 | `rstrip` keeps a prefix of the input, everything it drops is whitespace, and the result does not end with whitespace |
| Text.StripSpec | abacusedi.py:54 | `str.strip()`: the result is a contiguous piece of the input, everything cut from either end is whitespace, and the result neither starts nor ends with whitespace |
| Text.RemoveAll | abacusedi.py:63 | `replace(c, '')`: no `c` is left, the result is no longer, and a text without `c` is unchanged |
| Text.RemoveAllAppend | abacusedi.py:63 | removing a character distributes over concatenation |
| Text.RemoveSeparator | mars-edi.py:123 | removing the separator from two separator-free pieces joined by it gives their concatenation |
| Mars.Tokenize | mars-edi.py:47 | the U+2026 segments of the first line: at least one, none contains U+2026, and together they rebuild the line |
| Mars.TokenizeRoundTrip | mars-edi.py:47 | gluing U+2026-free segments into a line and tokenizing it gives exactly those segments back |
| Mars.Field | mars-edi.py:81-82 | reading field `k` succeeds exactly when the segment has it; otherwise it reports that field of that segment missing |
| Mars.Preceding | mars-edi.py:64-71 | the lenient `S5` lookup: the placeholder `No info provided.` when the marker is absent, else the field just before its first occurrence |
| Mars.Following | mars-edi.py:83-84 | the strict `OID` lookup: a missing-marker error when the marker is absent, success exactly when a field follows its first occurrence, and that field |
| Mars.FormatEdiDate | mars-edi.py:122-123 | the result has length min(len, 8) + 2; for at least 8 characters, dashes sit at 4 and 7 and the other characters are the first 8 of the input in order |
| Mars.DateIgnoresTail | mars-edi.py:122-123 | characters after the eighth never reach the formatted date |
| Mars.DateRoundTrip | mars-edi.py:122-123 | deleting the dashes of a formatted dash-free 8-character date gives the input back |
| Mars.DateExample | mars-edi.py:122-123 | `20240115` becomes `2024-01-15` |
| Mars.ParseOrder | mars-edi.py:80-84 | an `OID` is read exactly when it has a PO field and a field after the first `CA` and after the first `L`; BOL and PO are fields 1 and 2, cases and weight the fields after the first `CA` and the first `L` |
| Mars.DeliverTo | mars-edi.py:99-106 | the `N1*ST` block succeeds exactly when the name field and two following segments with street and city, state and zip exist, and renders `Deliver To:` with those fields |
| Mars.Classify | mars-edi.py:57-108 | the rule chosen: an unknown tag is ignored; totals exactly for `S5` with totals unreported; the order rule exactly for `OID`; the end rule exactly for `SE`; the delivery block exactly for `N1*ST`; a new record exactly for `ST*204` |
| Mars.ClassifyRules | mars-edi.py:57-111 | the `L11` rules exactly for a last field `WH`, else `MB`; a date rule exactly for `G62` with qualifier 38, 77, 70, 53 or 54, captioned as that qualifier's line; and a segment is ignored exactly when no rule of the chain claims it |
| Mars.Dispatch | mars-edi.py:55-117 | one segment's step moves the index past the segment itself, and past two more for `N1*ST` |
| Mars.DispatchTransactionState | mars-edi.py:63-111 | only `S5`, `OID` and `SE` touch the transaction state; `SE` clears it and appends nothing; short of `SE`, totals stay reported and the PO list only grows, by at most one PO not in it; an `OID` appends text exactly when its PO joins the list |
| Mars.RunUnfold | mars-edi.py:112-118 | the recursion fails with the step's error, or continues from the step's state with its fragment appended |
| Mars.RunPrefix | mars-edi.py:54-120 | output accumulated before a run stays in front of everything the run appends |
| Mars.RunAppends | mars-edi.py:54-120 | the summary is the accumulated output followed by what a fresh run appends, so output is append-only |
| Mars.Run | mars-edi.py:54-120 | no contract of its own: the recursion of `parse_lines` from a given state, specified by Mars.RunUnfold, Mars.RunAppends and Mars.ParseLines |
| Mars.Summarize | mars-edi.py:54-120 | no contract of its own: `parse_lines` from fresh state, which Mars.ParseLines computes |
| Mars.RunTo | mars-edi.py:54-120 | no contract of its own: the recursion cut short at a given index, specified by Mars.RunSplit and Mars.RunToEnd |
| Mars.RunSplit | mars-edi.py:112-118 | a run is its calls up to any index followed by the calls from the state reached there |
| Mars.RunToEnd | mars-edi.py:54-120 | cut short at the end of the segments, the run is the whole run |
| Mars.RunToReaches | mars-edi.py:112-118 | a run cut short at an index stops there or at the end, never before |
| Mars.OrdersTo | mars-edi.py:85-89 | no contract of its own: the POs of the `OID`s that append an Order line before a given index, in order |
| Mars.TotalsTo | mars-edi.py:63-73 | no contract of its own: how many `S5`s append totals before a given index |
| Mars.StepInTransaction | mars-edi.py:63-89 | one step other than `SE`: the PO list grows exactly by the PO of an `OID` that appends its Order line, a PO not seen before; totals become reported exactly when an `S5` appends them, which it does only while unreported |
| Mars.RunWithinTransaction | mars-edi.py:63-89 | over any stretch with no `SE`: the PO list becomes the one before followed by the reported POs, no PO gets two Order lines, and no PO seen before gets one |
| Mars.TotalsWithinTransaction | mars-edi.py:63-73 | over any stretch with no `SE`: totals are appended at most once and not at all once reported, and are reported afterwards exactly when they were before or were appended |
| Mars.TransactionReportsOnce | mars-edi.py:54-120 | in a record summarized without error, every stretch with no `SE`, including a transaction in the middle of the record, is part of the record's run and reports each PO at most once, none seen earlier in its transaction, and totals at most once |
| Mars.ParseLines | mars-edi.py:54-120 | the loop returns exactly the recursion's summary, or its error, from fresh state |
| Mars.ParseSegment | mars-edi.py:56-111 | one loop iteration: the step's error, or the output extended by the step's fragment and the step's new state |
| Mars.ParseRecord | mars-edi.py:45-48 | the record's summary: an error for a record with no lines, else the summary of the first line's segments |
| Mars.RecordSummary | mars-edi.py:45-48 | no contract of its own: `parse_record` after `readlines()`, which Mars.ParseRecord computes and Mars.LaterLinesIgnored relates |
| Mars.LaterLinesIgnored | mars-edi.py:45-48 | lines after the first never change a record's summary |
| Mars.EndResets | mars-edi.py:108-111 | `SE` appends nothing and leaves totals unreported and no PO seen |
| Mars.TotalsOnce | mars-edi.py:63-73 | an `S5` after totals were reported appends nothing and changes nothing |
| Mars.TotalsLenient | mars-edi.py:63-73 | an `S5` with totals unreported never fails: it appends the totals lines from the lenient lookups and marks totals reported |
| Mars.OrderAccepted | mars-edi.py:80-84 | an `OID` succeeds exactly when it has a PO field and a field after the first `CA` and after the first `L` |
| Mars.OrderRule | mars-edi.py:80-89 | for an accepted `OID`, the PO is field 2; a seen PO appends nothing, a new PO appends its Order line and joins the list |
| Mars.DeliverRule | mars-edi.py:99-107 | `N1*ST` succeeds exactly when the block is complete, appends the `Deliver To:` text and skips the two lookahead segments |
| Mars.NewRecordRule | mars-edi.py:57-58 | `ST*204` appends `\n\nNew Record: ` with the last field and changes no state |
| Mars.UnknownTagIgnored | mars-edi.py:55-118 | a segment with an unknown tag appends nothing and changes nothing |
| Mars.WarehouseRule | mars-edi.py:59-60 | `L11` ending in `WH` appends `Warehouse Link: ` with field 1 and changes no state |
| Mars.MasterBillRule | mars-edi.py:61-62 | `L11` ending in `MB` appends `Master Bill: ` with field 1 and changes no state |
| Mars.DatedRule | mars-edi.py:74-98 | `G62` with qualifier 38, 77, 70, 53 or 54 fails on a missing field 2, else appends the qualifier's caption and field 2 formatted as a date, changing no state |
| Mars.OtherQualifierIgnored | mars-edi.py:57-111 | `ST` not for a 204, `L11` ending in neither `WH` nor `MB`, `G62` with another qualifier and `N1` not for `ST` append nothing and change nothing |
| Mars.RepeatedPoReportedOnce | mars-edi.py:80-89 | two `OID`s with the same new PO in a row give one Order line, for the first |
| Mars.TotalsReportedOnce | mars-edi.py:63-73 | two `S5`s in a row with totals unreported report totals once, from the first |
| Mars.ResetReportsTotalsAgain | mars-edi.py:108-111 | after `SE`, an `S5` reports totals again although the previous transaction had reported them |
| Mars.ResetReportsPoAgain | mars-edi.py:108-111 | after `SE`, an `OID` reports its PO even if the previous transaction had seen it |
| Abacus.LineFragment | abacusedi.py:53-61 | one line fails exactly when its rule lacks a field it reads, naming the first missing index; a successful fragment is empty exactly when no prefix matches |
| Abacus.Collect | abacusedi.py:52-61 | no contract of its own: the `for` loop's pass from a line on, specified by Abacus.CollectFragments |
| Abacus.Fragments | abacusedi.py:52-61 | no contract of its own: the reference fold over the lines, specified by Abacus.FragmentsAppend, Abacus.FragmentsOkIff and Abacus.FirstErrorReported |
| Abacus.Summary | abacusedi.py:49-63 | a successful summary starts with a newline and contains no `~` |
| Abacus.ParseRecord | abacusedi.py:49-63 | the loop and clean-up return exactly the summary, or the first malformed line's error |
| Abacus.AppendLine | abacusedi.py:53-61 | one iteration: the line's error, or `order_info` extended by the line's fragment |
| Abacus.CollectFragments | abacusedi.py:52-61 | the loop's pass equals the text built so far followed by the reference fragments of the remaining lines |
| Abacus.SummaryFragments | abacusedi.py:49-63 | the summary is the reference fragments after the seed newline, with `~` removed, or their error |
| Abacus.FragmentsAppend | abacusedi.py:52-61 | fragments of `a + b` are those of `a` followed by those of `b`, and an error in `a` wins |
| Abacus.FragmentsOkIff | abacusedi.py:53-59 | the fragments exist exactly when every line has the fields its rule reads |
| Abacus.SummaryOkIff | abacusedi.py:53-59 | a record is summarized exactly when every line has the fields its rule reads |
| Abacus.FirstErrorReported | abacusedi.py:53-59 | the error reported is that of the first malformed line, naming its first missing field |
| Abacus.UnmatchedLineIgnored | abacusedi.py:52-61 | a line with no matching prefix leaves the summary as if it were absent |
| Abacus.NoMatchedLines | abacusedi.py:49-63 | a record with no matching line summarizes to a lone newline |
| Abacus.SummaryConcat | abacusedi.py:49-63 | the summary of two line lists together is the first summary followed by the second without its seed newline |
| Abacus.NameRendered | abacusedi.py:53-54 | an `N1` line renders as a newline and its stripped field 2 |
| Abacus.NameMissing | abacusedi.py:53-54 | an `N1` line with only two fields is the missing-field-2 error |
| Abacus.StreetRendered | abacusedi.py:55-56 | an `N3` line renders as a newline and its stripped field 1 |
| Abacus.CityRendered | abacusedi.py:57-59 | an `N4` line renders as a newline and `city, state zip` from its stripped fields 1 to 3 |
| Abacus.BillRendered | abacusedi.py:60-61 | an `N9*BM` line renders as a newline, `BOL: ` and its stripped field 2 |

## Left out

- Opening the record file and `readlines()` (mars-edi.py:42-45, abacusedi.py:46-50) are I/O: both parsers are modelled from the list of lines onward.
- Backup and import of records (`create_backup_folder`, `backup_record`, `import_record`) are filesystem side effects and are not modelled.
- `send_email` and the HTML wrapping of the message are network I/O through an external library and are not modelled.
- The `import_edi` driver, the directory listing, the date-stamp label, logging setup and the top-level exception handler are orchestration around the parsers and are not modelled; the `logging.*` calls inside the parsers have no effect on results and are omitted.
- Mars.ParseLines: uses a fresh, empty PO list on every call. In the source the default `pos=[]` (mars-edi.py:54) is one list shared by every call that relies on it, and `pos.append` (mars-edi.py:86) adds to it in place; only an `SE` (mars-edi.py:111) rebinds `pos` to a new list for the rest of that record. So the POs of the first transaction of each record (all of them, even when an `SE` closes it, and the whole record when it has no `SE`) pile up in the shared list over a batch, and a later record's `OID` with such a PO appends no Order line before that record's own first `SE`. The model does not capture this aliasing.
- Mars.Run: has no recursion bound. `parse_lines` recurses once per segment (mars-edi.py:112-118), so with CPython's default recursion limit of 1000 a first line of roughly a thousand segments raises `RecursionError`, while `Run` and `ParseLines` return a summary.
- The kinds of Python exception (`IndexError`, `ValueError`) are collapsed into the `Error` constructors `MissingField`, `MissingMarker`, `MissingSegment` and `EmptyRecord`; messages and tracebacks are not modelled.
- Characters are Unicode code points; file decoding, line-ending translation and Python's exact behaviour on unpaired surrogates are not modelled.
