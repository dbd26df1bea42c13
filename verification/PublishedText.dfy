/**
 * What the user of a scanner can do with the text published for an option: the bounds, words or strings of
 * its descriptor are read back from the text alone, and choosing one of them sets the device accordingly.
 */
module PublishedText {
  import opened Options
  import opened Decimal
  import opened ScanOptions
  import opened ScanContext

  // ---------------------------------------------------------------------------------------
  // Reading ranges
  // ---------------------------------------------------------------------------------------

  /** Where the first two dots stand; the length if there are none. */
  function DotsAt(s: string): (i: nat)
    ensures i <= |s|
  {
    if |s| < 2 then |s| else if s[0] == '.' && s[1] == '.' then 0 else 1 + DotsAt(s[1..])
  }

  function BeforeDots(s: string): string {
    s[..DotsAt(s)]
  }

  function AfterDots(s: string): string {
    if DotsAt(s) + 2 <= |s| then s[DotsAt(s) + 2..] else ""
  }

  lemma {:induction false} DotsBetween(a: string, b: string)
    requires '.' !in a
    ensures BeforeDots(a + ".." + b) == a && AfterDots(a + ".." + b) == b
  {
    DotsFound(a, b);
    assert (a + ".." + b)[|a| + 2..] == b;
  }

  lemma {:induction false} DotsFound(a: string, b: string)
    requires '.' !in a
    ensures DotsAt(a + ".." + b) == |a|
  {
    var s := a + ".." + b;
    if a == "" {
      assert s[0] == '.' && s[1] == '.';
    } else {
      assert s[0] == a[0] && a[0] in a;
      assert s[1..] == a[1..] + ".." + b;
      DotsFound(a[1..], b);
    }
  }

  lemma {:induction false} Plain(n: int)
    ensures '.' !in ToString(n) && ',' !in ToString(n)
  {
    if n < 0 {
      assert forall c | c in ToString(n) :: c == '-' || c in NatToString(0 - n);
    }
  }

  // ---------------------------------------------------------------------------------------
  // Reading lists
  // ---------------------------------------------------------------------------------------

  /** The parts between commas. */
  function Split(s: string): (parts: seq<string>)
    ensures parts != []
  {
    if s == "" then [""]
    else
      var rest := Split(s[1..]);
      if s[0] == ',' then [""] + rest else [[s[0]] + rest[0]] + rest[1..]
  }

  lemma {:induction false} SplitOne(a: string)
    requires ',' !in a
    ensures Split(a) == [a]
  {
    if a == "" {
    } else {
      assert a[0] in a;
      SplitOne(a[1..]);
      assert [a[0]] + a[1..] == a;
    }
  }

  lemma {:induction false} SplitFirst(a: string, rest: string)
    requires ',' !in a
    ensures Split(a + "," + rest) == [a] + Split(rest)
  {
    var s := a + "," + rest;
    if a == "" {
      assert s[0] == ',' && s[1..] == rest;
    } else {
      assert a[0] in a && s[0] == a[0];
      assert s[1..] == a[1..] + "," + rest;
      SplitFirst(a[1..], rest);
      assert [a[0]] + a[1..] == a;
    }
  }

  lemma {:induction false} CommaTerminatedFirst(x: string, rest: seq<string>)
    ensures CommaTerminated([x] + rest) == x + "," + CommaTerminated(rest)
  {
    if rest == [] {
      assert [x] + rest == [x] && [x][..0] == [];
    } else {
      var front, last := rest[..|rest| - 1], rest[|rest| - 1];
      assert ([x] + rest)[..|rest|] == [x] + front;
      CommaTerminatedFirst(x, front);
      assert (x + "," + CommaTerminated(front)) + last + "," == x + "," + (CommaTerminated(front) + last + ",");
    }
  }

  predicate NoCommas(items: seq<string>) {
    forall i | 0 <= i < |items| :: ',' !in items[i]
  }

  /** Joining and splitting at commas are inverse on items without commas. */
  lemma {:induction false} SplitJoined(items: seq<string>)
    requires items != [] && NoCommas(items)
    ensures Split(DropLast(CommaTerminated(items))) == items
  {
    var x, rest := items[0], items[1..];
    assert items == [x] + rest;
    CommaTerminatedFirst(x, rest);
    if rest == [] {
      assert DropLast(x + "," + "") == x;
      SplitOne(x);
    } else {
      CommaTerminatedEmptyIff(rest);
      assert DropLast(x + "," + CommaTerminated(rest)) == x + "," + DropLast(CommaTerminated(rest));
      SplitFirst(x, DropLast(CommaTerminated(rest)));
      SplitJoined(rest);
    }
  }

  // ---------------------------------------------------------------------------------------
  // Published texts
  // ---------------------------------------------------------------------------------------

  /** The text says what the descriptor allows. */
  predicate Reads(desc: ScanOptionDescriptor, text: string) {
    match desc.limits
    case Range(min, max, quant) =>
      && text == BeforeDots(text) + ".." + AfterDots(text)
      && ParseInt32(BeforeDots(text)) == Some(PublishedMin(min, quant))
      && ParseInt32(AfterDots(text)) == Some(PublishedMax(max, quant))
    case WordList(words) =>
      |Split(text)| == |words| && forall i | 0 <= i < |words| :: ParseInt32(Split(text)[i]) == Some(words[i])
    case StringList(strings) => NoCommas(strings) ==> Split(text) == strings
    case NoConstraint => desc.optionType == 0 && Split(text) == ["yes", "no"]
    case Unsupported => false
  }

  lemma {:induction false} RangeReads(desc: ScanOptionDescriptor)
    requires desc.limits.Range? && RangeString(desc) != ""
    ensures Reads(desc, RangeString(desc))
  {
    var min, max, quant := desc.limits.min, desc.limits.max, desc.limits.quant;
    AcceptsIff(desc);
    PublishedBoundsFit(min, max, quant);
    var lo, hi := PublishedMin(min, quant), PublishedMax(max, quant);
    Plain(lo);
    DotsBetween(ToString(lo), ToString(hi));
    ParsePrint(lo);
    ParsePrint(hi);
  }

  lemma {:induction false} WordsRead(desc: ScanOptionDescriptor)
    requires desc.limits.WordList? && RangeString(desc) != ""
    ensures Reads(desc, RangeString(desc))
  {
    var words := desc.limits.words;
    AcceptsIff(desc);
    forall i | 0 <= i < |words|
      ensures ',' !in Words(words)[i] && ParseInt32(Words(words)[i]) == Some(words[i])
    {
      Plain(words[i]);
      ParsePrint(words[i]);
    }
    SplitJoined(Words(words));
  }

  lemma {:induction false} StringsRead(desc: ScanOptionDescriptor)
    requires desc.limits.StringList? && RangeString(desc) != ""
    ensures Reads(desc, RangeString(desc))
  {
    AcceptsIff(desc);
    if NoCommas(desc.limits.strings) {
      SplitJoined(desc.limits.strings);
    }
  }

  lemma {:induction false} YesNoReads()
    ensures Split("yes,no") == ["yes", "no"]
  {
    SplitFirst("yes", "no");
    SplitOne("no");
    assert "yes" + "," + "no" == "yes,no";
  }

  /** Every text in a scanner's table can be read back to what the option's descriptor allows. */
  lemma {:induction false} PublishedTextReads(table: Table, answer: nat -> Answer, count: nat, k: nat)
    requires Holds(table, answer, count) && k < |table.rangesBuff|
    ensures answer(Accepted(answer, count)[k]).Described?
    ensures Reads(answer(Accepted(answer, count)[k]).desc, table.rangesBuff[k])
  {
    AcceptedIs(answer, count);
    var i := Accepted(answer, count)[k];
    assert i in Accepted(answer, count) && Entry(table, answer, k, i);
    var desc := answer(i).desc;
    AcceptsIff(desc);
    match desc.limits
    case Range(_, _, _) => RangeReads(desc);
    case WordList(_) => WordsRead(desc);
    case StringList(_) => StringsRead(desc);
    case NoConstraint => YesNoReads();
    case Unsupported =>
  }

  /** What setting a choice for the k-th option of the table means. */
  function Chosen(table: Table, k: nat, choice: string): (int, ScanOptionValue)
    requires k < |table.optionTypeBuff|
  {
    OptionValue(table.optionTypeBuff[k], if k in table.quantMap then Some(table.quantMap[k]) else None, choice)
  }

  /**
   * A number between the two ends of the published text, printed and chosen, sets the device to itself times
   * the quantum, within the hull of zero and the device's bounds; without a quantum, to itself.
   */
  lemma {:induction false} PublishedRangeRoundTrip(table: Table, answer: nat -> Answer, count: nat, k: nat, v: int)
    requires Holds(table, answer, count) && k < |table.rangesBuff|
    requires answer(Accepted(answer, count)[k]).Described? && answer(Accepted(answer, count)[k]).desc.limits.Range?
    requires table.optionTypeBuff[k] != 0 && table.optionTypeBuff[k] != 3
    requires ParseInt32(BeforeDots(table.rangesBuff[k])).Some? && ParseInt32(AfterDots(table.rangesBuff[k])).Some?
    requires Between(v, ParseInt32(BeforeDots(table.rangesBuff[k])).value,
                     ParseInt32(AfterDots(table.rangesBuff[k])).value)
    ensures
      var range := answer(Accepted(answer, count)[k]).desc.limits;
      var product := if range.quant == 0 then v else v * range.quant;
      Chosen(table, k, ToString(v)) == (0, NumValue(product)) && InHull(product, range.min, range.max)
  {
    PublishedTextReads(table, answer, count, k);
    AcceptedIs(answer, count);
    var i := Accepted(answer, count)[k];
    assert i in Accepted(answer, count) && Entry(table, answer, k, i);
    var range := answer(i).desc.limits;
    if range.quant == 0 {
      ParsePrint(v);
    } else {
      PublishedValueRoundTrip(table, answer, count, k, v);
    }
  }

  /** A part of a published list, chosen, sets the device to the word or string it stands for; yes is 1 and no is 0. */
  lemma {:induction false} PublishedListRoundTrip(table: Table, answer: nat -> Answer, count: nat, k: nat, p: nat)
    requires Holds(table, answer, count) && k < |table.rangesBuff| && p < |Split(table.rangesBuff[k])|
    ensures answer(Accepted(answer, count)[k]).Described?
    ensures
      var desc := answer(Accepted(answer, count)[k]).desc;
      var chosen := Chosen(table, k, Split(table.rangesBuff[k])[p]);
      match desc.limits
      case WordList(words) =>
        desc.optionType != 0 && desc.optionType != 3 ==> p < |words| && chosen == (0, NumValue(words[p]))
      case StringList(strings) =>
        desc.optionType == 3 && NoCommas(strings) ==> p < |strings| && chosen == (0, StrValue(strings[p]))
      case NoConstraint => chosen == (0, NumValue(if p == 0 then 1 else 0))
      case _ => true
  {
    PublishedTextReads(table, answer, count, k);
    assert Entry(table, answer, k, Accepted(answer, count)[k]);
  }
}
