/**
 * The Abacus address and bill-of-lading extractor: one pass over a record's
 * physical lines, where each line is matched by prefix (`N1*`, `N3*`, `N4*`,
 * `N9*BM*`), the fields its rule reads are stripped of surrounding
 * whitespace and appended on a new line of the summary, and every `~` is
 * removed from the finished summary.
 */
module Abacus {
  import opened Wrappers
  import opened Text

  /** Reading field `field` of a line that has no such `*`-field (Python's IndexError). */
  datatype Error = MissingField(line: string, field: nat)

  /** `line[:n] == prefix` with `n == |prefix|`, which is never out of range. */
  predicate HasPrefix(line: string, prefix: string)
  {
    Slice(line, 0, |prefix|) == prefix
  }

  /** A line one of the four rules reports on; every other line is skipped. */
  predicate Matched(line: string)
  {
    HasPrefix(line, "N1*") || HasPrefix(line, "N3*") || HasPrefix(line, "N4*") || HasPrefix(line, "N9*BM*")
  }

  /** The line has every field its rule reads: the `N1*` rule reads field 2, the `N4*` rule field 3. */
  predicate WellFormed(line: string)
  {
    && (HasPrefix(line, "N1*") ==> |Fields(line)| >= 3)
    && (HasPrefix(line, "N4*") ==> |Fields(line)| >= 4)
  }

  /** A line that starts with a `*`-free tag and a `*` has that tag as field 0 and at least two fields. */
  lemma PrefixFields(line: string, tag: string)
    requires '*' !in tag && HasPrefix(line, tag + "*")
    ensures |Fields(line)| >= 2 && Fields(line)[0] == tag
  {
    var rest := line[|tag| + 1..];
    assert line == tag + ['*'] + rest;
    SplitCons(tag, '*', rest);
  }

  /** A line that starts with `N9*BM*` has at least three fields. */
  lemma BillFields(line: string)
    requires HasPrefix(line, "N9*BM*")
    ensures |Fields(line)| >= 3 && Fields(line)[0] == "N9" && Fields(line)[1] == "BM"
  {
    var rest := line[6..];
    assert line == "N9" + ['*'] + ("BM" + ['*'] + rest);
    SplitCons("N9", '*', "BM" + ['*'] + rest);
    SplitCons("BM", '*', rest);
  }

  /**
   * What one line appends to the summary, rules tried in source order.
   * A missing field is reported with the first index the rule reads that
   * the line does not have.
   */
  function LineFragment(line: string): (r: Result<string, Error>)
    ensures r.Err? <==> !WellFormed(line)
    ensures r.Err? ==> r.error == MissingField(line, |Fields(line)|)
    ensures r.Ok? ==> (r.value == "" <==> !Matched(line))
  {
    var f := Fields(line);
    if HasPrefix(line, "N1*") then
      PrefixFields(line, "N1");
      if |f| < 3 then Err(MissingField(line, 2))
      else Ok("\n" + Strip(f[2]))
    else if HasPrefix(line, "N3*") then
      PrefixFields(line, "N3");
      Ok("\n" + Strip(f[1]))
    else if HasPrefix(line, "N4*") then
      PrefixFields(line, "N4");
      if |f| < 3 then Err(MissingField(line, 2))
      else if |f| < 4 then Err(MissingField(line, 3))
      else Ok("\n" + Strip(f[1]) + ", " + Strip(f[2]) + " " + Strip(f[3]))
    else if HasPrefix(line, "N9*BM*") then
      BillFields(line);
      Ok("\n" + "BOL: " + Strip(f[2]))
    else
      Ok("")
  }

  /**
   * The pass over lines `i..` with `orderInfo` built so far: each line's
   * fragment is appended in order, and the first malformed line ends the
   * pass with its error.
   */
  function Collect(lines: seq<string>, i: nat, orderInfo: string): Result<string, Error>
    requires i <= |lines|
    decreases |lines| - i
  {
    if i == |lines| then Ok(orderInfo)
    else
      var f := LineFragment(lines[i]);
      if f.Err? then Err(f.error) else Collect(lines, i + 1, orderInfo + f.value)
  }

  /**
   * The summary the extractor returns for a record given as its lines: it
   * starts with the newline it was seeded with and holds no `~`.
   */
  function Summary(lines: seq<string>): (r: Result<string, Error>)
    ensures r.Ok? ==> |r.value| >= 1 && r.value[0] == '\n' && '~' !in r.value
  {
    CollectFragments(lines, 0, "\n");
    var info := Collect(lines, 0, "\n");
    if info.Err? then info
    else
      assert info.value[0] == '\n';
      Ok(RemoveAll(info.value, '~'))
  }

  /** `parse_record` after the file is read: the loop over the lines and the final clean-up. */
  method ParseRecord(edi: seq<string>) returns (r: Result<string, Error>)
    ensures r == Summary(edi)
  {
    var orderInfo := "\n";
    for i := 0 to |edi|
      invariant Collect(edi, i, orderInfo) == Collect(edi, 0, "\n")
    {
      var next := AppendLine(orderInfo, edi[i]);
      if next.Err? {
        return Err(next.error);
      }
      orderInfo := next.value;
    }
    return Ok(RemoveAll(orderInfo, '~'));
  }

  /** One iteration of the loop: `order_info` extended by the rule `line` matches. */
  method AppendLine(orderInfo: string, line: string) returns (r: Result<string, Error>)
    ensures LineFragment(line).Err? ==> r == Err(LineFragment(line).error)
    ensures LineFragment(line).Ok? ==> r == Ok(orderInfo + LineFragment(line).value)
  {
    var f := Fields(line);
    if HasPrefix(line, "N1*") {
      PrefixFields(line, "N1");
      if |f| < 3 {
        return Err(MissingField(line, 2));
      }
      var frag := "\n" + Strip(f[2]);
      assert LineFragment(line) == Ok(frag);
      r := Ok(orderInfo + frag);
    } else if HasPrefix(line, "N3*") {
      PrefixFields(line, "N3");
      var frag := "\n" + Strip(f[1]);
      assert LineFragment(line) == Ok(frag);
      r := Ok(orderInfo + frag);
    } else if HasPrefix(line, "N4*") {
      PrefixFields(line, "N4");
      if |f| < 4 {
        assert LineFragment(line) == Err(MissingField(line, |f|));
        return Err(MissingField(line, |f|));
      }
      var frag := "\n" + Strip(f[1]) + ", " + Strip(f[2]) + " " + Strip(f[3]);
      assert LineFragment(line) == Ok(frag);
      r := Ok(orderInfo + frag);
    } else if HasPrefix(line, "N9*BM*") {
      BillFields(line);
      var frag := "\n" + "BOL: " + Strip(f[2]);
      assert LineFragment(line) == Ok(frag);
      r := Ok(orderInfo + frag);
    } else {
      assert LineFragment(line) == Ok("");
      assert orderInfo + "" == orderInfo;
      r := Ok(orderInfo);
    }
  }


  /** `p` put in front of a successful pass; an error is passed on unchanged. */
  function Prepend(p: string, r: Result<string, Error>): Result<string, Error>
  {
    if r.Err? then r else Ok(p + r.value)
  }

  /**
   * The fragments of `lines` concatenated in order, or the error of the
   * first malformed line: an order-independent reference for the loop.
   */
  function Fragments(lines: seq<string>): Result<string, Error>
  {
    if lines == [] then Ok("")
    else
      var f := LineFragment(lines[0]);
      if f.Err? then Err(f.error) else Prepend(f.value, Fragments(lines[1..]))
  }

  /** The loop's pass from line `i` on is what was built so far followed by the remaining fragments. */
  lemma {:induction false} CollectFragments(lines: seq<string>, i: nat, orderInfo: string)
    requires i <= |lines|
    ensures Collect(lines, i, orderInfo) == Prepend(orderInfo, Fragments(lines[i..]))
    decreases |lines| - i
  {
    if i == |lines| {
      assert lines[i..] == [];
      assert orderInfo + "" == orderInfo;
    } else {
      var f := LineFragment(lines[i]);
      assert lines[i..][0] == lines[i] && lines[i..][1..] == lines[i + 1..];
      if f.Ok? {
        CollectFragments(lines, i + 1, orderInfo + f.value);
        PrependPrepend(orderInfo, f.value, Fragments(lines[i + 1..]));
      }
    }
  }

  /** The summary in terms of the reference: the fragments after the leading newline, with `~` removed. */
  lemma SummaryFragments(lines: seq<string>)
    ensures Fragments(lines).Err? ==> Summary(lines) == Err(Fragments(lines).error)
    ensures Fragments(lines).Ok? ==> Summary(lines) == Ok(RemoveAll("\n" + Fragments(lines).value, '~'))
  {
    CollectFragments(lines, 0, "\n");
    assert lines[0..] == lines;
  }

  lemma PrependEmpty(r: Result<string, Error>)
    ensures Prepend("", r) == r
  {
    if r.Ok? {
      assert "" + r.value == r.value;
    }
  }

  lemma PrependPrepend(p: string, q: string, r: Result<string, Error>)
    ensures Prepend(p, Prepend(q, r)) == Prepend(p + q, r)
  {
    if r.Ok? {
      assert p + (q + r.value) == p + q + r.value;
    }
  }

  /** Concatenated lines give concatenated fragments; an error in the first part wins. */
  lemma {:induction false} FragmentsAppend(a: seq<string>, b: seq<string>)
    ensures Fragments(a).Err? ==> Fragments(a + b) == Fragments(a)
    ensures Fragments(a).Ok? ==> Fragments(a + b) == Prepend(Fragments(a).value, Fragments(b))
  {
    if a == [] {
      assert a + b == b;
      PrependEmpty(Fragments(b));
    } else {
      assert (a + b)[0] == a[0] && (a + b)[1..] == a[1..] + b;
      FragmentsAppend(a[1..], b);
      var f := LineFragment(a[0]);
      if f.Ok? && Fragments(a[1..]).Ok? {
        PrependPrepend(f.value, Fragments(a[1..]).value, Fragments(b));
      }
    }
  }

  /** A record is summarized exactly when every line has the fields its rule reads. */
  lemma {:induction false} FragmentsOkIff(lines: seq<string>)
    ensures Fragments(lines).Ok? <==> forall k :: 0 <= k < |lines| ==> WellFormed(lines[k])
  {
    if lines != [] {
      FragmentsOkIff(lines[1..]);
      assert forall k :: 1 <= k < |lines| ==> lines[k] == lines[1..][k - 1];
    }
  }

  lemma SummaryOkIff(lines: seq<string>)
    ensures Summary(lines).Ok? <==> forall k :: 0 <= k < |lines| ==> WellFormed(lines[k])
  {
    SummaryFragments(lines);
    FragmentsOkIff(lines);
  }

  /** The error reported is the one of the first malformed line. */
  lemma FirstErrorReported(lines: seq<string>, k: nat)
    requires k < |lines| && !WellFormed(lines[k])
    requires forall j :: 0 <= j < k ==> WellFormed(lines[j])
    ensures Summary(lines) == Err(MissingField(lines[k], |Fields(lines[k])|))
  {
    var a, b := lines[..k], lines[k..];
    assert lines == a + b;
    assert forall j :: 0 <= j < |a| ==> a[j] == lines[j];
    FragmentsOkIff(a);
    FragmentsAppend(a, b);
    assert b[0] == lines[k];
    SummaryFragments(lines);
  }

  /** A line no rule matches leaves the summary as it would be without that line. */
  lemma UnmatchedLineIgnored(a: seq<string>, line: string, b: seq<string>)
    requires !Matched(line)
    ensures Summary(a + [line] + b) == Summary(a + b)
  {
    assert LineFragment(line) == Ok("");
    var tail := [line] + b;
    assert tail[0] == line && tail[1..] == b;
    assert Fragments(tail) == Fragments(b) by {
      if Fragments(b).Ok? {
        assert "" + Fragments(b).value == Fragments(b).value;
      }
    }
    assert a + [line] + b == a + tail;
    FragmentsAppend(a, tail);
    FragmentsAppend(a, b);
    SummaryFragments(a + [line] + b);
    SummaryFragments(a + b);
  }

  /** A record with no name, address or bill-of-lading line summarizes to the lone leading newline. */
  lemma {:induction false} NoMatchedLines(lines: seq<string>)
    requires forall k :: 0 <= k < |lines| ==> !Matched(lines[k])
    ensures Summary(lines) == Ok("\n")
  {
    if lines == [] {
      assert Summary(lines) == Ok(RemoveAll("\n", '~'));
    } else {
      var n := |lines| - 1;
      assert lines == lines[..n] + [lines[n]] + [];
      assert lines[..n] + [] == lines[..n];
      UnmatchedLineIgnored(lines[..n], lines[n], []);
      NoMatchedLines(lines[..n]);
    }
  }

  /** Removing `~` after seeding with a newline, for a text that is the concatenation of two. */
  lemma SeededRemoveAppend(x: string, y: string)
    ensures RemoveAll("\n" + (x + y), '~') == RemoveAll("\n" + x, '~') + RemoveAll("\n" + y, '~')[1..]
  {
    assert "\n" + (x + y) == ("\n" + x) + y;
    RemoveAllAppend("\n" + x, y, '~');
    assert "\n" + y == "\n" + y;
    RemoveAllAppend("\n", y, '~');
    assert RemoveAll("\n", '~') == "\n";
  }

  /** Two records' lines summarized together: the first summary, then the second without its leading newline. */
  lemma SummaryConcat(a: seq<string>, b: seq<string>)
    requires Summary(a).Ok? && Summary(b).Ok?
    ensures Summary(a + b) == Ok(Summary(a).value + Summary(b).value[1..])
  {
    SummaryFragments(a);
    SummaryFragments(b);
    SummaryFragments(a + b);
    FragmentsAppend(a, b);
    var fa, fb := Fragments(a).value, Fragments(b).value;
    assert Fragments(a + b) == Ok(fa + fb);
    var sa, sb := RemoveAll("\n" + fa, '~'), RemoveAll("\n" + fb, '~');
    assert Summary(a) == Ok(sa) && Summary(b) == Ok(sb);
    SeededRemoveAppend(fa, fb);
    assert Summary(a + b) == Ok(sa + sb[1..]);
  }

  /** A line written as `*`-joined fields starts with its first field and a `*`, and splits back into them. */
  lemma JoinedLine(parts: seq<string>)
    requires |parts| >= 2
    requires forall k :: 0 <= k < |parts| ==> '*' !in parts[k]
    ensures Fields(Join(parts, '*')) == parts
    ensures HasPrefix(Join(parts, '*'), parts[0] + "*")
  {
    SplitJoin(parts, '*');
    var line := Join(parts, '*');
    assert line == parts[0] + ['*'] + Join(parts[1..], '*');
    assert line[..|parts[0]| + 1] == parts[0] + "*";
  }

  /** `N1*<qualifier>*<name>...` contributes the stripped name on a line of its own. */
  lemma NameRendered(parts: seq<string>)
    requires |parts| >= 3 && parts[0] == "N1"
    requires forall k :: 0 <= k < |parts| ==> '*' !in parts[k]
    ensures LineFragment(Join(parts, '*')) == Ok("\n" + Strip(parts[2]))
  {
    JoinedLine(parts);
  }

  /** A name line with no name field is the error the rule raises. */
  lemma NameMissing(qualifier: string)
    requires '*' !in qualifier
    ensures LineFragment("N1*" + qualifier) == Err(MissingField("N1*" + qualifier, 2))
  {
    JoinedLine(["N1", qualifier]);
    assert Join(["N1", qualifier], '*') == "N1*" + qualifier;
  }

  /** `N3*<street>...` contributes the stripped street. */
  lemma StreetRendered(parts: seq<string>)
    requires |parts| >= 2 && parts[0] == "N3"
    requires forall k :: 0 <= k < |parts| ==> '*' !in parts[k]
    ensures LineFragment(Join(parts, '*')) == Ok("\n" + Strip(parts[1]))
  {
    JoinedLine(parts);
    var line := Join(parts, '*');
    assert "N3*"[1] != "N1*"[1];
    assert !HasPrefix(line, "N1*") && HasPrefix(line, "N3*");
    assert Fields(line)[1] == parts[1];
  }

  /** `N4*<city>*<state>*<zip>...` contributes `city, state zip`. */
  lemma CityRendered(parts: seq<string>)
    requires |parts| >= 4 && parts[0] == "N4"
    requires forall k :: 0 <= k < |parts| ==> '*' !in parts[k]
    ensures LineFragment(Join(parts, '*'))
      == Ok("\n" + Strip(parts[1]) + ", " + Strip(parts[2]) + " " + Strip(parts[3]))
  {
    JoinedLine(parts);
    assert "N4*"[1] != "N1*"[1] && "N4*"[1] != "N3*"[1];
  }

  /** A line joined from `N9`, `BM` and more fields starts with `N9*BM*` and with no other rule's prefix. */
  lemma BillPrefix(parts: seq<string>)
    requires |parts| >= 3 && parts[0] == "N9" && parts[1] == "BM"
    ensures HasPrefix(Join(parts, '*'), "N9*BM*")
    ensures !HasPrefix(Join(parts, '*'), "N1*") && !HasPrefix(Join(parts, '*'), "N3*")
    ensures !HasPrefix(Join(parts, '*'), "N4*")
  {
    var line, tail := Join(parts, '*'), Join(parts[2..], '*');
    assert line == "N9*BM*" + tail by {
      assert parts[1..][1..] == parts[2..];
      assert Join(parts[1..], '*') == "BM" + ['*'] + tail;
    }
    assert line[..6] == "N9*BM*";
    assert line[..3] == "N9*";
    assert "N9*"[1] == '9';
  }

  /** `N9*BM*<bill>...` contributes the stripped bill of lading after `BOL: `. */
  lemma BillRendered(parts: seq<string>)
    requires |parts| >= 3 && parts[0] == "N9" && parts[1] == "BM"
    requires forall k :: 0 <= k < |parts| ==> '*' !in parts[k]
    ensures LineFragment(Join(parts, '*')) == Ok("\n" + "BOL: " + Strip(parts[2]))
  {
    SplitJoin(parts, '*');
    BillPrefix(parts);
  }
}
