/**
 * The Mars 204 load-tender summarizer (mars-edi.py): a record's first line is
 * cut into segments on U+2026, and the segments are walked left to right,
 * each one split into `*`-fields and dispatched on its tag (and, for some
 * tags, on a qualifier), appending text to a growing summary while keeping
 * two pieces of per-transaction state: whether totals were reported, and
 * the purchase orders already reported.
 */
module Mars {
  import opened Wrappers
  import opened Text

  /** The marker standing in for the segment terminator in Mars records. */
  const Ellipsis: char := '\U{2026}'

  /** What `S5` reports for a marker that is not there. */
  const NoInfo: string := "No info provided."

  /** The Python exceptions that abort a record, with where they arise. */
  datatype Error =
    | EmptyRecord                                // `edi[0]` on a file with no lines
    | MissingField(segment: nat, field: nat)     // list index out of range / too few values to unpack
    | MissingMarker(segment: nat, marker: string) // `list.index` finds no such field
    | MissingSegment(segment: nat)               // `edi[index + k]` past the end

  /** The scan position and per-transaction state `parse_lines` threads through its calls. */
  datatype Control = Control(index: nat, totalsParsed: bool, pos: seq<string>)

  /** What dispatching one segment does: the text it appends and the state after it. */
  datatype Step = Step(fragment: string, next: Control)

  /** The accumulated summary together with the final control state. */
  datatype Scan = Scan(output: string, last: Control)

  /** The fields of an `OID` segment the summary reports. */
  datatype Order = Order(bol: string, po: string, cases: string, weight: string)

  const Start: Control := Control(0, false, [])

  // ---------------------------------------------------------------------
  // Tokenizing and field access

  /** `edi[0].split('…')`: the segments of a record's first line. */
  function Tokenize(line: string): (segments: seq<string>)
    ensures |segments| >= 1
    ensures Join(segments, Ellipsis) == line
    ensures forall k :: 0 <= k < |segments| ==> Ellipsis !in segments[k]
  {
    SplitSpec(line, Ellipsis);
    Split(line, Ellipsis)
  }

  function Tag(segment: string): string
  {
    Fields(segment)[0]
  }

  function Last(fields: seq<string>): string
    requires |fields| > 0
  {
    fields[|fields| - 1]
  }

  /** `split_line[:2] == [a, b]`. */
  predicate Starts2(fields: seq<string>, a: string, b: string)
  {
    |fields| >= 2 && fields[0] == a && fields[1] == b
  }

  /** `split_line[k]` for a non-negative `k`. */
  function Field(fields: seq<string>, k: nat, segment: nat): (r: Result<string, Error>)
    ensures r.Ok? <==> k < |fields|
    ensures r.Ok? ==> r.value == fields[k]
    ensures r.Err? ==> r.error == MissingField(segment, k)
  {
    if k < |fields| then Ok(fields[k]) else Err(MissingField(segment, k))
  }

  /**
   * The lenient lookup of `S5`: the field just before the first `marker`,
   * or `NoInfo` when there is none. A marker in position 0 would make Python
   * read index -1, the last field.
   */
  function Preceding(fields: seq<string>, marker: string): (r: string)
    ensures marker !in fields ==> r == NoInfo
    ensures marker in fields && fields[0] != marker ==>
      0 < IndexOf(fields, marker).value && r == fields[IndexOf(fields, marker).value - 1]
  {
    match IndexOf(fields, marker)
    case None => NoInfo
    case Some(i) => if i == 0 then Last(fields) else fields[i - 1]
  }

  /** The strict lookup of `OID`: the field just after the first `marker`. */
  function Following(fields: seq<string>, marker: string, segment: nat): (r: Result<string, Error>)
    ensures marker !in fields ==> r == Err(MissingMarker(segment, marker))
    ensures r.Ok? <==> marker in fields && IndexOf(fields, marker).value + 1 < |fields|
    ensures r.Ok? ==> r.value == fields[IndexOf(fields, marker).value + 1]
  {
    match IndexOf(fields, marker)
    case None => Err(MissingMarker(segment, marker))
    case Some(i) => Field(fields, i + 1, segment)
  }

  // ---------------------------------------------------------------------
  // Dates and the text of each report line

  /** `raw_date[:4] + '-' + raw_date[4:6] + '-' + raw_date[6:8]`. */
  function FormatEdiDate(raw: string): (r: string)
    ensures |r| == Min(|raw|, 8) + 2
    ensures |raw| >= 8 ==> r[4] == '-' && r[7] == '-' && r[..4] + r[5..7] + r[8..] == raw[..8]
  {
    var y, m, d := Slice(raw, 0, 4), Slice(raw, 4, 6), Slice(raw, 6, 8);
    var r := y + "-" + m + "-" + d;
    assert |raw| >= 8 ==> |y| == 4 && |m| == 2 && |d| == 2 && y + m + d == raw[..8];
    assert |raw| >= 8 ==> r[..4] == y && r[5..7] == m && r[8..] == d;
    r
  }

  function NewRecordLine(id: string): string
  {
    "\n\nNew Record: " + id + "\n"
  }

  function WarehouseLine(link: string): string
  {
    "Warehouse Link: " + link + "\n"
  }

  function MasterBillLine(bill: string): string
  {
    "Master Bill: " + bill + "\n"
  }

  /** A `G62` line: `caption` followed by the formatted date. */
  function DatedLine(caption: string, raw: string): string
  {
    caption + FormatEdiDate(raw) + "\n"
  }

  function TotalsLines(cases: string, weight: string): string
  {
    "Total Cases: " + cases + "\nTotal Weight: " + weight + "\n"
  }

  function OrderLine(o: Order): string
  {
    "Order: BOL " + o.bol + " | PO " + o.po + " | PCS " + o.cases + " | LBS " + o.weight + "\n"
  }

  function DeliverToLines(name: string, address: string, city: string, state: string, zip: string): string
  {
    "Deliver To:\n" + name + "\n" + address + "\n" + city + ", " + state + " " + zip + "\n"
  }

  // ---------------------------------------------------------------------
  // Field extraction of the two multi-field rules

  /** The fields of an `OID` segment, evaluated in the order Python does. */
  function ParseOrder(fields: seq<string>, segment: nat): (r: Result<Order, Error>)
    ensures r.Ok? <==> (|fields| >= 3 && "CA" in fields && "L" in fields &&
      IndexOf(fields, "CA").value + 1 < |fields| && IndexOf(fields, "L").value + 1 < |fields|)
    ensures r.Ok? ==> r.value.bol == fields[1] && r.value.po == fields[2]
    ensures r.Ok? ==> r.value.cases == fields[IndexOf(fields, "CA").value + 1]
    ensures r.Ok? ==> r.value.weight == fields[IndexOf(fields, "L").value + 1]
  {
    if |fields| < 2 then Err(MissingField(segment, 1))
    else if |fields| < 3 then Err(MissingField(segment, 2))
    else
      match Following(fields, "CA", segment)
      case Err(e) => Err(e)
      case Ok(cases) =>
        match Following(fields, "L", segment)
        case Err(e) => Err(e)
        case Ok(weight) => Ok(Order(fields[1], fields[2], cases, weight))
  }

  /**
   * The `N1*ST` block: the name from this segment, the street from the next
   * one, and city, state and zip (fields 1 to 3) from the one after.
   */
  function DeliverTo(edi: seq<string>, i: nat): (r: Result<string, Error>)
    requires i < |edi|
    ensures r.Ok? <==> (|Fields(edi[i])| >= 3 && i + 2 < |edi| &&
      |Fields(edi[i + 1])| >= 2 && |Fields(edi[i + 2])| >= 4)
    ensures r.Ok? ==> r.value == DeliverToLines(Fields(edi[i])[2], Fields(edi[i + 1])[1],
      Fields(edi[i + 2])[1], Fields(edi[i + 2])[2], Fields(edi[i + 2])[3])
  {
    var f := Fields(edi[i]);
    if |f| < 3 then Err(MissingField(i, 2))
    else if i + 1 >= |edi| then Err(MissingSegment(i + 1))
    else if |Fields(edi[i + 1])| < 2 then Err(MissingField(i + 1, 1))
    else if i + 2 >= |edi| then Err(MissingSegment(i + 2))
    else
      var location := Fields(edi[i + 2]);
      if |location| < 4 then Err(MissingField(i + 2, 3))
      else Ok(DeliverToLines(f[2], Fields(edi[i + 1])[1], location[1], location[2], location[3]))
  }

  // ---------------------------------------------------------------------
  // The state machine

  /** The rule of `parse_lines` a segment falls under: its `if`/`elif` chain, tried in order. */
  datatype Rule =
    | NewRecord | WarehouseLink | MasterBill | Totals | Dated(caption: string)
    | Purchase | DeliverBlock | EndTransaction | Ignored

  /** The `G62` qualifiers that have a report line. */
  const DateQualifiers: set<string> := {"38", "77", "70", "53", "54"}

  /** The caption of the report line of a `G62` qualifier. */
  function DateCaption(qualifier: string): string
  {
    if qualifier == "38" then "Ship by: "
    else if qualifier == "77" then "Pickup Date: "
    else if qualifier == "70" then "Delivery Date: "
    else if qualifier == "53" then "Delivery Window Start: "
    else "Delivery Window End: "
  }

  /** Some rule of the chain claims the segment with fields `f`. */
  predicate Handled(f: seq<string>, totalsParsed: bool)
    requires |f| >= 1
  {
    || Starts2(f, "ST", "204")
    || (f[0] == "L11" && Last(f) in {"WH", "MB"})
    || (f[0] == "S5" && !totalsParsed)
    || (f[0] == "G62" && |f| >= 2 && f[1] in DateQualifiers)
    || f[0] == "OID"
    || Starts2(f, "N1", "ST")
    || f[0] == "SE"
  }

  function Classify(f: seq<string>, totalsParsed: bool): (r: Rule)
    requires |f| >= 1
    ensures f[0] !in {"ST", "L11", "S5", "G62", "OID", "N1", "SE"} ==> r == Ignored
    ensures r == Totals <==> f[0] == "S5" && !totalsParsed
    ensures r == Purchase <==> f[0] == "OID"
    ensures r == EndTransaction <==> f[0] == "SE"
    ensures r == DeliverBlock <==> Starts2(f, "N1", "ST")
    ensures r == NewRecord <==> Starts2(f, "ST", "204")
  {
    if Starts2(f, "ST", "204") then NewRecord
    else if f[0] == "L11" && Last(f) == "WH" then WarehouseLink
    else if f[0] == "L11" && Last(f) == "MB" then MasterBill
    else if f[0] == "S5" && !totalsParsed then Totals
    else if Starts2(f, "G62", "38") then Dated("Ship by: ")
    else if Starts2(f, "G62", "77") then Dated("Pickup Date: ")
    else if f[0] == "OID" then Purchase
    else if Starts2(f, "G62", "70") then Dated("Delivery Date: ")
    else if Starts2(f, "G62", "53") then Dated("Delivery Window Start: ")
    else if Starts2(f, "G62", "54") then Dated("Delivery Window End: ")
    else if Starts2(f, "N1", "ST") then DeliverBlock
    else if f[0] == "SE" then EndTransaction
    else Ignored
  }

  /**
   * The rest of the rule table: the two `L11` rules by last field, the five
   * `G62` rules by qualifier with their captions, and every segment no rule
   * claims, a known tag with another qualifier included, is ignored.
   */
  lemma ClassifyRules(f: seq<string>, totalsParsed: bool)
    requires |f| >= 1
    ensures var r := Classify(f, totalsParsed);
      && (r == WarehouseLink <==> f[0] == "L11" && Last(f) == "WH")
      && (r == MasterBill <==> f[0] == "L11" && Last(f) == "MB")
      && (r.Dated? <==> f[0] == "G62" && |f| >= 2 && f[1] in DateQualifiers)
      && (r.Dated? ==> r.caption == DateCaption(f[1]))
      && (r == Ignored <==> !Handled(f, totalsParsed))
  {
  }

  /** One call of `parse_lines` on segment `c.index`. */
  function Dispatch(edi: seq<string>, c: Control): (r: Result<Step, Error>)
    requires c.index < |edi|
    ensures r.Ok? ==> r.value.next.index == c.index + (if Starts2(Fields(edi[c.index]), "N1", "ST") then 3 else 1)
  {
    var i := c.index;
    var f := Fields(edi[i]);
    var next := c.(index := i + 1);
    match Classify(f, c.totalsParsed)
    case NewRecord => Ok(Step(NewRecordLine(Last(f)), next))
    case WarehouseLink => Ok(Step(WarehouseLine(f[1]), next))
    case MasterBill => Ok(Step(MasterBillLine(f[1]), next))
    case Totals =>
      Ok(Step(TotalsLines(Preceding(f, "CA"), Preceding(f, "L")), next.(totalsParsed := true)))
    case Dated(caption) =>
      if |f| < 3 then Err(MissingField(i, 2)) else Ok(Step(DatedLine(caption, f[2]), next))
    case Purchase =>
      (match ParseOrder(f, i)
       case Err(e) => Err(e)
       case Ok(o) =>
         if o.po in c.pos then Ok(Step("", next))
         else Ok(Step(OrderLine(o), next.(pos := c.pos + [o.po]))))
    case DeliverBlock =>
      (match DeliverTo(edi, i)
       case Err(e) => Err(e)
       case Ok(text) => Ok(Step(text, c.(index := i + 3))))
    case EndTransaction => Ok(Step("", next.(totalsParsed := false, pos := [])))
    case Ignored => Ok(Step("", next))
  }

  /**
   * What one step does to the per-transaction state: only `S5`, `OID` and
   * `SE` touch it; `SE` clears it; short of a reset, totals stay reported and
   * the PO list only grows, by one PO not yet in it; and an `OID` appends its
   * Order line exactly when its PO joins the list.
   */
  lemma DispatchTransactionState(edi: seq<string>, c: Control)
    requires c.index < |edi| && Dispatch(edi, c).Ok?
    ensures var s := Dispatch(edi, c).value;
      && (Tag(edi[c.index]) !in {"S5", "OID", "SE"} ==> s.next.totalsParsed == c.totalsParsed && s.next.pos == c.pos)
      && (Tag(edi[c.index]) == "SE" ==> s.fragment == "" && !s.next.totalsParsed && s.next.pos == [])
      && (Tag(edi[c.index]) != "SE" ==>
            && (c.totalsParsed ==> s.next.totalsParsed)
            && c.pos <= s.next.pos && |s.next.pos| <= |c.pos| + 1
            && (|s.next.pos| > |c.pos| ==> s.next.pos[|c.pos|] !in c.pos))
      && (Tag(edi[c.index]) == "OID" ==> (s.fragment != "" <==> |s.next.pos| > |c.pos|))
  {
  }

  /** The recursion of `parse_lines` from control `c` with summary `output` so far. */
  function Run(edi: seq<string>, c: Control, output: string): Result<Scan, Error>
    decreases |edi| - c.index
  {
    if c.index >= |edi| then Ok(Scan(output, c))
    else
      match Dispatch(edi, c)
      case Err(e) => Err(e)
      case Ok(s) => Run(edi, s.next, output + s.fragment)
  }

  /** `parse_lines(edi)` with fresh per-call state. */
  function Summarize(edi: seq<string>): Result<string, Error>
  {
    match Run(edi, Start, "")
    case Err(e) => Err(e)
    case Ok(s) => Ok(s.output)
  }

  /** `parse_record` from the list of lines `readlines()` returned. */
  function RecordSummary(edi: seq<string>): Result<string, Error>
  {
    if |edi| == 0 then Err(EmptyRecord) else Summarize(Tokenize(edi[0]))
  }

  // ---------------------------------------------------------------------
  // The loop

  /**
   * `parse_lines` as the loop its tail recursion is: the accumulators of the
   * recursive calls become local variables.
   */
  method ParseLines(edi: seq<string>) returns (r: Result<string, Error>)
    ensures r == Summarize(edi)
  {
    var output := "";
    var index := 0;
    var totalsParsed := false;
    var pos: seq<string> := [];
    while index < |edi|
      invariant Run(edi, Control(index, totalsParsed, pos), output) == Run(edi, Start, "")
      decreases |edi| - index
    {
      RunUnfold(edi, Control(index, totalsParsed, pos), output);
      var after := ParseSegment(edi, index, totalsParsed, pos, output);
      if after.Err? {
        return Err(after.error);
      }
      output := after.value.output;
      index, totalsParsed, pos := after.value.last.index, after.value.last.totalsParsed, after.value.last.pos;
    }
    r := Ok(output);
  }

  /**
   * The body of one `parse_lines` call: dispatch segment `index` and update
   * the accumulators (`output +=`, `totals_parsed`, `pos.append`, `index += 2`
   * and the `index + 1` of the recursive call).
   */
  method ParseSegment(edi: seq<string>, index: nat, totalsParsed: bool, pos: seq<string>, output: string)
    returns (r: Result<Scan, Error>)
    requires index < |edi|
    ensures Dispatch(edi, Control(index, totalsParsed, pos)).Err? ==>
      r == Err(Dispatch(edi, Control(index, totalsParsed, pos)).error)
    ensures Dispatch(edi, Control(index, totalsParsed, pos)).Ok? ==>
      var s := Dispatch(edi, Control(index, totalsParsed, pos)).value;
      r == Ok(Scan(output + s.fragment, s.next))
  {
    ghost var c := Control(index, totalsParsed, pos);
    var output, index, totalsParsed, pos := output, index, totalsParsed, pos;
    var f := Fields(edi[index]);
    match Classify(f, totalsParsed) {
      case NewRecord =>
        assert Dispatch(edi, c) == Ok(Step(NewRecordLine(Last(f)), c.(index := index + 1)));
        output := output + NewRecordLine(Last(f));
      case WarehouseLink =>
        assert Dispatch(edi, c) == Ok(Step(WarehouseLine(f[1]), c.(index := index + 1)));
        output := output + WarehouseLine(f[1]);
      case MasterBill =>
        assert Dispatch(edi, c) == Ok(Step(MasterBillLine(f[1]), c.(index := index + 1)));
        output := output + MasterBillLine(f[1]);
      case Totals =>
        assert Dispatch(edi, c).value.next == c.(index := index + 1, totalsParsed := true);
        var cases := Preceding(f, "CA");
        var weight := Preceding(f, "L");
        output := output + TotalsLines(cases, weight);
        totalsParsed := true;
      case Dated(caption) =>
        if |f| < 3 {
          assert Dispatch(edi, c) == Err(MissingField(index, 2));
          return Err(MissingField(index, 2));
        }
        assert Dispatch(edi, c) == Ok(Step(DatedLine(caption, f[2]), c.(index := index + 1)));
        output := output + DatedLine(caption, f[2]);
      case Purchase =>
        var order := ParseOrder(f, index);
        if order.Err? {
          assert Dispatch(edi, c) == Err(order.error);
          return Err(order.error);
        }
        var o := order.value;
        if o.po !in pos {
          assert Dispatch(edi, c) == Ok(Step(OrderLine(o), c.(index := index + 1, pos := pos + [o.po])));
          pos := pos + [o.po];
          output := output + OrderLine(o);
        } else {
          assert Dispatch(edi, c) == Ok(Step("", c.(index := index + 1)));
          assert output == output + "";
        }
      case DeliverBlock =>
        var block := DeliverTo(edi, index);
        if block.Err? {
          assert Dispatch(edi, c) == Err(block.error);
          return Err(block.error);
        }
        assert Dispatch(edi, c) == Ok(Step(block.value, c.(index := index + 3)));
        output := output + block.value;
        index := index + 2;
      case EndTransaction =>
        assert Dispatch(edi, c) == Ok(Step("", c.(index := index + 1, totalsParsed := false, pos := [])));
        assert output == output + "";
        totalsParsed := false;
        pos := [];
      case Ignored =>
        assert Dispatch(edi, c) == Ok(Step("", c.(index := index + 1)));
        assert output == output + "";
    }
    r := Ok(Scan(output, Control(index + 1, totalsParsed, pos)));
  }

  /** One unfolding of `Run` at a segment that exists. */
  lemma RunUnfold(edi: seq<string>, c: Control, output: string)
    requires c.index < |edi|
    ensures Dispatch(edi, c).Err? ==> Run(edi, c, output) == Err(Dispatch(edi, c).error)
    ensures Dispatch(edi, c).Ok? ==> var s := Dispatch(edi, c).value;
      Run(edi, c, output) == Run(edi, s.next, output + s.fragment)
  {
  }

  /** `parse_record` after `readlines()`: only the first line is tokenized and summarized. */
  method ParseRecord(edi: seq<string>) returns (r: Result<string, Error>)
    ensures r == RecordSummary(edi)
  {
    if |edi| == 0 {
      return Err(EmptyRecord);
    }
    r := ParseLines(Tokenize(edi[0]));
  }

  // ---------------------------------------------------------------------
  // Properties of the summarizer

  /** `output` with `prefix` put in front of a successful run's summary. */
  function Prepend(prefix: string, r: Result<Scan, Error>): Result<Scan, Error>
  {
    match r
    case Err(e) => Err(e)
    case Ok(s) => Ok(Scan(prefix + s.output, s.last))
  }

  /**
   * The summary is append-only: a run never reads what was produced before
   * it, so starting from `prefix + x` is starting from `x` with `prefix` kept in front.
   */
  lemma {:induction false} RunPrefix(edi: seq<string>, c: Control, prefix: string, x: string)
    ensures Run(edi, c, prefix + x) == Prepend(prefix, Run(edi, c, x))
    decreases |edi| - c.index
  {
    if c.index < |edi| && Dispatch(edi, c).Ok? {
      var s := Dispatch(edi, c).value;
      assert prefix + x + s.fragment == prefix + (x + s.fragment);
      RunPrefix(edi, s.next, prefix, x + s.fragment);
    }
  }

  /** Whatever was accumulated stays at the front of the result; fresh or not, the fragments are the same. */
  lemma RunAppends(edi: seq<string>, c: Control, output: string)
    ensures Run(edi, c, output) == Prepend(output, Run(edi, c, ""))
    ensures Run(edi, c, output).Ok? ==> output <= Run(edi, c, output).value.output
  {
    assert output + "" == output;
    RunPrefix(edi, c, output, "");
  }

  predicate NoDup(s: seq<string>)
  {
    forall i, j :: 0 <= i < j < |s| ==> s[i] != s[j]
  }

  /**
   * The recursion of `parse_lines` cut short: the calls from control `c`
   * until the index reaches `stop` (or the end), with the summary and the
   * control they leave.
   */
  function RunTo(edi: seq<string>, c: Control, output: string, stop: nat): Result<Scan, Error>
    decreases |edi| - c.index
  {
    if c.index >= |edi| || c.index >= stop then Ok(Scan(output, c))
    else
      match Dispatch(edi, c)
      case Err(e) => Err(e)
      case Ok(s) => RunTo(edi, s.next, output + s.fragment, stop)
  }

  /** The rest of the recursion, from where a `RunTo` left it. */
  function Resume(edi: seq<string>, r: Result<Scan, Error>): Result<Scan, Error>
  {
    match r
    case Err(e) => Err(e)
    case Ok(s) => Run(edi, s.last, s.output)
  }

  /** A run is its calls up to any `stop` followed by the calls from there on. */
  lemma {:induction false} RunSplit(edi: seq<string>, c: Control, output: string, stop: nat)
    ensures Run(edi, c, output) == Resume(edi, RunTo(edi, c, output, stop))
    decreases |edi| - c.index
  {
    if c.index < |edi| && c.index < stop && Dispatch(edi, c).Ok? {
      var s := Dispatch(edi, c).value;
      RunSplit(edi, s.next, output + s.fragment, stop);
    }
  }

  /** Running up to the end of the segments is the whole run. */
  lemma {:induction false} RunToEnd(edi: seq<string>, c: Control, output: string)
    ensures RunTo(edi, c, output, |edi|) == Run(edi, c, output)
    decreases |edi| - c.index
  {
    if c.index < |edi| && Dispatch(edi, c).Ok? {
      var s := Dispatch(edi, c).value;
      RunToEnd(edi, s.next, output + s.fragment);
    }
  }

  /** The PO one step reports: that of an `OID` segment with fields `f` appending its Order line. */
  function StepOrders(f: seq<string>, fragment: string): seq<string>
    requires |f| >= 1
  {
    if f[0] == "OID" && fragment != "" && |f| >= 3 then [f[2]] else []
  }

  /** Whether one step reports totals: an `S5` segment with fields `f` appending text. */
  function StepTotals(f: seq<string>, fragment: string): nat
    requires |f| >= 1
  {
    if f[0] == "S5" && fragment != "" then 1 else 0
  }

  /** The POs of the `OID`s that append an Order line before `stop`, in segment order. */
  function OrdersTo(edi: seq<string>, c: Control, stop: nat): seq<string>
    decreases |edi| - c.index
  {
    if c.index >= |edi| || c.index >= stop then []
    else
      match Dispatch(edi, c)
      case Err(_) => []
      case Ok(s) => StepOrders(Fields(edi[c.index]), s.fragment) + OrdersTo(edi, s.next, stop)
  }

  /** How many `S5`s append totals before `stop`. */
  function TotalsTo(edi: seq<string>, c: Control, stop: nat): nat
    decreases |edi| - c.index
  {
    if c.index >= |edi| || c.index >= stop then 0
    else
      match Dispatch(edi, c)
      case Err(_) => 0
      case Ok(s) => StepTotals(Fields(edi[c.index]), s.fragment) + TotalsTo(edi, s.next, stop)
  }

  /** One unfolding of `RunTo`, `OrdersTo` and `TotalsTo` at a successful step before `stop`. */
  lemma RunToUnfold(edi: seq<string>, c: Control, output: string, stop: nat)
    requires c.index < |edi| && c.index < stop && Dispatch(edi, c).Ok?
    ensures var s, f := Dispatch(edi, c).value, Fields(edi[c.index]);
      && RunTo(edi, c, output, stop) == RunTo(edi, s.next, output + s.fragment, stop)
      && OrdersTo(edi, c, stop) == StepOrders(f, s.fragment) + OrdersTo(edi, s.next, stop)
      && TotalsTo(edi, c, stop) == StepTotals(f, s.fragment) + TotalsTo(edi, s.next, stop)
  {
  }

  /**
   * One step short of an `SE`: the PO list grows by the PO of an `OID` that
   * appends its Order line, a PO not in it before, and by nothing else; and
   * totals become reported exactly when an `S5` appends them, which happens
   * only while they are unreported.
   */
  lemma StepInTransaction(edi: seq<string>, c: Control)
    requires c.index < |edi| && Dispatch(edi, c).Ok? && Tag(edi[c.index]) != "SE"
    ensures var s, f := Dispatch(edi, c).value, Fields(edi[c.index]);
      && s.next.pos == c.pos + StepOrders(f, s.fragment)
      && (forall k :: 0 <= k < |StepOrders(f, s.fragment)| ==> StepOrders(f, s.fragment)[k] !in c.pos)
      && StepTotals(f, s.fragment) <= (if c.totalsParsed then 0 else 1)
      && (s.next.totalsParsed <==> c.totalsParsed || StepTotals(f, s.fragment) == 1)
  {
    var f := Fields(edi[c.index]);
    match Classify(f, c.totalsParsed)
    case Purchase =>
      OrderRule(edi, c);
    case Totals =>
      TotalsLenient(edi, c);
    case _ =>
  }

  /** No segment from `from` up to `stop` is an `SE`: a stretch of one transaction. */
  predicate NoEndIn(edi: seq<string>, from: nat, stop: nat)
  {
    forall k :: from <= k < stop && k < |edi| ==> Tag(edi[k]) != "SE"
  }

  /**
   * The inductive step on PO lists: a step adding at most one PO new to
   * `seen`, followed by distinct POs new to the grown list.
   */
  lemma FreshAppend(seen: seq<string>, next: seq<string>, added: seq<string>, rest: seq<string>, last: seq<string>)
    requires next == seen + added && last == next + rest
    requires |added| <= 1 && forall k :: 0 <= k < |added| ==> added[k] !in seen
    requires NoDup(rest) && forall k :: 0 <= k < |rest| ==> rest[k] !in next
    ensures last == seen + (added + rest)
    ensures NoDup(added + rest)
    ensures forall k :: 0 <= k < |added + rest| ==> (added + rest)[k] !in seen
  {
    forall k | 0 <= k < |rest|
      ensures rest[k] !in seen && rest[k] !in added
    {
      assert rest[k] !in seen + added;
    }
    assert seen + added + rest == seen + (added + rest);
  }

  /**
   * Within one transaction (no `SE` from `c.index` up to `stop`), each PO
   * gets at most one Order line, and none gets one that was already seen;
   * and the PO list is the one before followed by the reported POs.
   */
  lemma {:induction false} RunWithinTransaction(edi: seq<string>, c: Control, output: string, stop: nat)
    requires NoEndIn(edi, c.index, stop)
    requires RunTo(edi, c, output, stop).Ok?
    ensures var last, orders := RunTo(edi, c, output, stop).value.last, OrdersTo(edi, c, stop);
      && last.pos == c.pos + orders
      && NoDup(orders)
      && (forall k :: 0 <= k < |orders| ==> orders[k] !in c.pos)
    decreases |edi| - c.index
  {
    if c.index < |edi| && c.index < stop {
      var s := Dispatch(edi, c).value;
      var added := StepOrders(Fields(edi[c.index]), s.fragment);
      var rest := OrdersTo(edi, s.next, stop);
      RunToUnfold(edi, c, output, stop);
      StepInTransaction(edi, c);
      RunWithinTransaction(edi, s.next, output + s.fragment, stop);
      FreshAppend(c.pos, s.next.pos, added, rest, RunTo(edi, s.next, output + s.fragment, stop).value.last.pos);
    }
  }

  /**
   * Within one transaction, totals are appended at most once, and not at all
   * once reported; they are reported at the end exactly when they were
   * before or were appended.
   */
  lemma {:induction false} TotalsWithinTransaction(edi: seq<string>, c: Control, output: string, stop: nat)
    requires NoEndIn(edi, c.index, stop)
    requires RunTo(edi, c, output, stop).Ok?
    ensures var last, n := RunTo(edi, c, output, stop).value.last, TotalsTo(edi, c, stop);
      && n <= (if c.totalsParsed then 0 else 1)
      && (last.totalsParsed <==> c.totalsParsed || n == 1)
    decreases |edi| - c.index
  {
    if c.index < |edi| && c.index < stop {
      var s := Dispatch(edi, c).value;
      RunToUnfold(edi, c, output, stop);
      StepInTransaction(edi, c);
      TotalsWithinTransaction(edi, s.next, output + s.fragment, stop);
    }
  }

  /** A cut-short run stops at `stop` or at the end, never before. */
  lemma {:induction false} RunToReaches(edi: seq<string>, c: Control, output: string, stop: nat)
    requires RunTo(edi, c, output, stop).Ok?
    ensures var last := RunTo(edi, c, output, stop).value.last;
      last.index >= c.index && (last.index >= stop || last.index >= |edi|)
    decreases |edi| - c.index
  {
    if c.index < |edi| && c.index < stop {
      var s := Dispatch(edi, c).value;
      RunToUnfold(edi, c, output, stop);
      RunToReaches(edi, s.next, output + s.fragment, stop);
    }
  }

  /**
   * In a record summarized without error, the calls from segment `from` up
   * to `stop`, a stretch with no `SE`, are part of the record's run, and
   * within them each PO is reported at most once and never when it was seen
   * earlier in the transaction, and totals are reported at most once.
   */
  lemma TransactionReportsOnce(edi: seq<string>, from: nat, stop: nat)
    requires Run(edi, Start, "").Ok?
    requires NoEndIn(edi, from, stop)
    ensures RunTo(edi, Start, "", from).Ok?
    ensures var m := RunTo(edi, Start, "", from).value;
      var orders := OrdersTo(edi, m.last, stop);
      && Run(edi, Start, "") == Resume(edi, RunTo(edi, m.last, m.output, stop))
      && RunTo(edi, m.last, m.output, stop).Ok?
      && NoDup(orders)
      && (forall k :: 0 <= k < |orders| ==> orders[k] !in m.last.pos)
      && TotalsTo(edi, m.last, stop) <= (if m.last.totalsParsed then 0 else 1)
  {
    RunSplit(edi, Start, "", from);
    var m := RunTo(edi, Start, "", from).value;
    RunToReaches(edi, Start, "", from);
    RunSplit(edi, m.last, m.output, stop);
    RunWithinTransaction(edi, m.last, m.output, stop);
    TotalsWithinTransaction(edi, m.last, m.output, stop);
  }

  /** An `SE` clears the transaction state whatever it was, and appends nothing. */
  lemma EndResets(edi: seq<string>, c: Control)
    requires c.index < |edi| && Tag(edi[c.index]) == "SE"
    ensures Dispatch(edi, c) == Ok(Step("", Control(c.index + 1, false, [])))
  {
  }

  /** Once totals are reported, a later `S5` of the same transaction appends nothing and changes nothing. */
  lemma TotalsOnce(edi: seq<string>, c: Control)
    requires c.index < |edi| && Tag(edi[c.index]) == "S5" && c.totalsParsed
    ensures Dispatch(edi, c) == Ok(Step("", c.(index := c.index + 1)))
  {
  }

  /**
   * An `S5` while totals are unreported never fails: cases and weight are
   * the fields before the first `CA` and the first `L`, or the placeholder.
   */
  lemma TotalsLenient(edi: seq<string>, c: Control)
    requires c.index < |edi| && Tag(edi[c.index]) == "S5" && !c.totalsParsed
    ensures var f := Fields(edi[c.index]);
      Dispatch(edi, c) == Ok(Step(TotalsLines(Preceding(f, "CA"), Preceding(f, "L")),
                                  Control(c.index + 1, true, c.pos)))
  {
  }

  /** An `OID` succeeds exactly when it has a PO field and a field after the first `CA` and after the first `L`. */
  lemma OrderAccepted(edi: seq<string>, c: Control)
    requires c.index < |edi| && Tag(edi[c.index]) == "OID"
    ensures var f := Fields(edi[c.index]);
      Dispatch(edi, c).Ok? <==> (|f| >= 3 && "CA" in f && "L" in f &&
        IndexOf(f, "CA").value + 1 < |f| && IndexOf(f, "L").value + 1 < |f|)
  {
    var f := Fields(edi[c.index]);
    assert Classify(f, c.totalsParsed) == Purchase;
    var parsed := ParseOrder(f, c.index);
    if parsed.Err? {
      assert Dispatch(edi, c) == Err(parsed.error);
    }
  }

  /**
   * An accepted `OID` reports a PO not yet seen in the transaction and adds
   * it to the list, and appends nothing for one already seen.
   */
  lemma OrderRule(edi: seq<string>, c: Control)
    requires c.index < |edi| && Tag(edi[c.index]) == "OID"
    requires ParseOrder(Fields(edi[c.index]), c.index).Ok?
    ensures var o := ParseOrder(Fields(edi[c.index]), c.index).value;
      && o.po == Fields(edi[c.index])[2]
      && (o.po in c.pos ==> Dispatch(edi, c) == Ok(Step("", c.(index := c.index + 1))))
      && (o.po !in c.pos ==>
            Dispatch(edi, c) == Ok(Step(OrderLine(o), c.(index := c.index + 1, pos := c.pos + [o.po]))))
  {
    var f := Fields(edi[c.index]);
    assert Classify(f, c.totalsParsed) == Purchase;
  }



  /**
   * `N1*ST` needs the two segments after it; it appends the address block
   * and moves three segments on, so those two are never dispatched themselves.
   */
  lemma DeliverRule(edi: seq<string>, c: Control)
    requires c.index < |edi| && Starts2(Fields(edi[c.index]), "N1", "ST")
    ensures Dispatch(edi, c).Ok? <==> (|Fields(edi[c.index])| >= 3 && c.index + 2 < |edi| &&
      |Fields(edi[c.index + 1])| >= 2 && |Fields(edi[c.index + 2])| >= 4)
    ensures Dispatch(edi, c).Ok? ==> var i := c.index;
      Dispatch(edi, c).value == Step(
        DeliverToLines(Fields(edi[i])[2], Fields(edi[i + 1])[1],
          Fields(edi[i + 2])[1], Fields(edi[i + 2])[2], Fields(edi[i + 2])[3]),
        c.(index := i + 3))
  {
  }

  /** `ST*204` opens a record line with the last field; control is untouched. */
  lemma NewRecordRule(edi: seq<string>, c: Control)
    requires c.index < |edi| && Starts2(Fields(edi[c.index]), "ST", "204")
    ensures Dispatch(edi, c) == Ok(Step("\n\nNew Record: " + Last(Fields(edi[c.index])) + "\n",
                                        c.(index := c.index + 1)))
  {
  }

  /** A segment whose tag no rule names appends nothing and changes nothing. */
  lemma UnknownTagIgnored(edi: seq<string>, c: Control)
    requires c.index < |edi|
    requires Tag(edi[c.index]) !in {"ST", "L11", "S5", "G62", "OID", "N1", "SE"}
    ensures Dispatch(edi, c) == Ok(Step("", c.(index := c.index + 1)))
  {
  }

  /** `L11` ending in `WH` reports field 1 as the warehouse link; control is untouched. */
  lemma WarehouseRule(edi: seq<string>, c: Control)
    requires c.index < |edi| && Tag(edi[c.index]) == "L11" && Last(Fields(edi[c.index])) == "WH"
    ensures |Fields(edi[c.index])| >= 2
    ensures Dispatch(edi, c) == Ok(Step("Warehouse Link: " + Fields(edi[c.index])[1] + "\n",
                                        c.(index := c.index + 1)))
  {
    ClassifyRules(Fields(edi[c.index]), c.totalsParsed);
  }

  /** `L11` ending in `MB` (and not `WH`) reports field 1 as the master bill; control is untouched. */
  lemma MasterBillRule(edi: seq<string>, c: Control)
    requires c.index < |edi| && Tag(edi[c.index]) == "L11" && Last(Fields(edi[c.index])) == "MB"
    ensures |Fields(edi[c.index])| >= 2
    ensures Dispatch(edi, c) == Ok(Step("Master Bill: " + Fields(edi[c.index])[1] + "\n",
                                        c.(index := c.index + 1)))
  {
    ClassifyRules(Fields(edi[c.index]), c.totalsParsed);
  }

  /**
   * A `G62` with a reported qualifier needs its field 2 and appends its
   * caption with that field formatted as a date; control is untouched.
   */
  lemma DatedRule(edi: seq<string>, c: Control)
    requires c.index < |edi| && Tag(edi[c.index]) == "G62"
    requires |Fields(edi[c.index])| >= 2 && Fields(edi[c.index])[1] in DateQualifiers
    ensures var f := Fields(edi[c.index]);
      |f| < 3 ==> Dispatch(edi, c) == Err(MissingField(c.index, 2))
    ensures var f := Fields(edi[c.index]);
      |f| >= 3 ==> Dispatch(edi, c) == Ok(Step(DateCaption(f[1]) + FormatEdiDate(f[2]) + "\n",
                                               c.(index := c.index + 1)))
  {
    ClassifyRules(Fields(edi[c.index]), c.totalsParsed);
  }

  /**
   * A segment with a known tag but a qualifier no rule names (`ST` not for a
   * 204, `L11` ending in neither `WH` nor `MB`, `G62` with an unreported
   * qualifier, `N1` not for `ST`) appends nothing and changes nothing.
   */
  lemma OtherQualifierIgnored(edi: seq<string>, c: Control)
    requires c.index < |edi|
    requires var f := Fields(edi[c.index]);
      || (f[0] == "ST" && !Starts2(f, "ST", "204"))
      || (f[0] == "L11" && Last(f) !in {"WH", "MB"})
      || (f[0] == "G62" && !(|f| >= 2 && f[1] in DateQualifiers))
      || (f[0] == "N1" && !Starts2(f, "N1", "ST"))
    ensures Dispatch(edi, c) == Ok(Step("", c.(index := c.index + 1)))
  {
    ClassifyRules(Fields(edi[c.index]), c.totalsParsed);
  }

  /** Two `OID`s with one PO inside a transaction give one Order line, for the first. */
  lemma {:induction false} RepeatedPoReportedOnce(edi: seq<string>, c: Control, output: string)
    requires c.index + 1 < |edi|
    requires Tag(edi[c.index]) == "OID" && Tag(edi[c.index + 1]) == "OID"
    requires ParseOrder(Fields(edi[c.index]), c.index).Ok?
    requires ParseOrder(Fields(edi[c.index + 1]), c.index + 1).Ok?
    requires Fields(edi[c.index])[2] == Fields(edi[c.index + 1])[2]
    requires Fields(edi[c.index])[2] !in c.pos
    ensures var first := ParseOrder(Fields(edi[c.index]), c.index).value;
      Run(edi, c, output) ==
        Run(edi, Control(c.index + 2, c.totalsParsed, c.pos + [first.po]), output + OrderLine(first))
  {
    var first := ParseOrder(Fields(edi[c.index]), c.index).value;
    OrderRule(edi, c);
    var c1 := Control(c.index + 1, c.totalsParsed, c.pos + [first.po]);
    OrderRule(edi, c1);
    RunUnfold(edi, c, output);
    RunUnfold(edi, c1, output + OrderLine(first));
    assert output + OrderLine(first) + "" == output + OrderLine(first);
  }

  /** Two `S5`s inside a transaction report totals once, from the first. */
  lemma {:induction false} TotalsReportedOnce(edi: seq<string>, c: Control, output: string)
    requires c.index + 1 < |edi| && !c.totalsParsed
    requires Tag(edi[c.index]) == "S5" && Tag(edi[c.index + 1]) == "S5"
    ensures var f := Fields(edi[c.index]);
      Run(edi, c, output) ==
        Run(edi, Control(c.index + 2, true, c.pos), output + TotalsLines(Preceding(f, "CA"), Preceding(f, "L")))
  {
    var f := Fields(edi[c.index]);
    var c1 := Control(c.index + 1, true, c.pos);
    TotalsLenient(edi, c);
    TotalsOnce(edi, c1);
    RunUnfold(edi, c, output);
    var o1 := output + TotalsLines(Preceding(f, "CA"), Preceding(f, "L"));
    RunUnfold(edi, c1, o1);
    assert o1 + "" == o1;
  }

  /** After an `SE`, totals already reported in the previous transaction are reported again. */
  lemma {:induction false} ResetReportsTotalsAgain(edi: seq<string>, c: Control, output: string)
    requires c.index + 1 < |edi| && c.totalsParsed
    requires Tag(edi[c.index]) == "SE" && Tag(edi[c.index + 1]) == "S5"
    ensures var f := Fields(edi[c.index + 1]);
      Run(edi, c, output) ==
        Run(edi, Control(c.index + 2, true, []), output + TotalsLines(Preceding(f, "CA"), Preceding(f, "L")))
  {
    var c1 := Control(c.index + 1, false, []);
    EndResets(edi, c);
    TotalsLenient(edi, c1);
    RunUnfold(edi, c, output);
    assert output + "" == output;
    RunUnfold(edi, c1, output);
  }

  /** After an `SE`, a PO seen in the previous transaction is reported again. */
  lemma {:induction false} ResetReportsPoAgain(edi: seq<string>, c: Control, output: string)
    requires c.index + 1 < |edi|
    requires Tag(edi[c.index]) == "SE" && Tag(edi[c.index + 1]) == "OID"
    requires ParseOrder(Fields(edi[c.index + 1]), c.index + 1).Ok?
    ensures var o := ParseOrder(Fields(edi[c.index + 1]), c.index + 1).value;
      Run(edi, c, output) == Run(edi, Control(c.index + 2, false, [o.po]), output + OrderLine(o))
  {
    var c1 := Control(c.index + 1, false, []);
    EndResets(edi, c);
    OrderRule(edi, c1);
    var o := ParseOrder(Fields(edi[c.index + 1]), c.index + 1).value;
    assert c1.pos + [o.po] == [o.po];
    assert Dispatch(edi, c1) == Ok(Step(OrderLine(o), Control(c.index + 2, false, [o.po])));
    RunUnfold(edi, c, output);
    assert output + "" == output;
    RunUnfold(edi, c1, output);
  }

  // ---------------------------------------------------------------------
  // Dates and records

  /** Characters after the eighth never reach the formatted date. */
  lemma DateIgnoresTail(raw: string)
    requires |raw| >= 8
    ensures FormatEdiDate(raw) == FormatEdiDate(raw[..8])
  {
  }

  /** Deleting the two dashes of a formatted `YYYYMMDD` gives the date back. */
  lemma DateRoundTrip(raw: string)
    requires |raw| == 8 && '-' !in raw
    ensures RemoveAll(FormatEdiDate(raw), '-') == raw
  {
    var y, m, d := raw[..4], raw[4..6], raw[6..8];
    assert FormatEdiDate(raw) == y + "-" + m + "-" + d;
    DashesRemoved(y, m, d);
    assert y + m + d == raw;
  }

  lemma DashesRemoved(y: string, m: string, d: string)
    requires '-' !in y && '-' !in m && '-' !in d
    ensures RemoveAll(y + "-" + m + "-" + d, '-') == y + m + d
  {
    var left := y + "-" + m;
    assert y + "-" + m + "-" + d == left + ([] + "-" + d);
    RemoveAllAppend(left, [] + "-" + d, '-');
    RemoveSeparator(y, m, '-');
    RemoveSeparator([], d, '-');
    assert [] + d == d;
  }


  lemma DateExample()
    ensures FormatEdiDate("20240115") == "2024-01-15"
  {
  }

  /** Lines after the first never affect a record's summary. */
  lemma LaterLinesIgnored(edi: seq<string>, more: seq<string>)
    requires |edi| > 0
    ensures RecordSummary(edi + more) == RecordSummary(edi)
  {
    assert (edi + more)[0] == edi[0];
  }

  /** Gluing U+2026-free segments into a line and tokenizing it gives those segments back. */
  lemma TokenizeRoundTrip(segments: seq<string>)
    requires |segments| >= 1
    requires forall k :: 0 <= k < |segments| ==> Ellipsis !in segments[k]
    ensures Tokenize(Join(segments, Ellipsis)) == segments
  {
    SplitJoin(segments, Ellipsis);
  }
}
