/** ParsePPDInfo: one PPD name per run of printer attributes in a CUPS response. */
module PpdInfo {
  import opened Options

  const IPP_TAG_PRINTER := 4
  const IPP_TAG_TEXT := 65
  const IPP_TAG_NAME := 66

  datatype Attribute = Attribute(groupTag: int, name: string, valueTag: int, text: string)

  predicate IsPrinter(attrs: seq<Attribute>, i: nat)
    requires i < |attrs|
  {
    attrs[i].groupTag == IPP_TAG_PRINTER
  }

  predicate IsMake(a: Attribute) {
    a.name == "ppd-make-and-model" && a.valueTag == IPP_TAG_TEXT
  }

  predicate IsName(a: Attribute) {
    a.name == "ppd-name" && a.valueTag == IPP_TAG_NAME
  }

  /** A maximal run of printer attributes: from a, up to but not including b. */
  predicate IsRun(attrs: seq<Attribute>, a: nat, b: nat) {
    && a < b <= |attrs|
    && (forall i | a <= i < b :: IsPrinter(attrs, i))
    && (a > 0 ==> !IsPrinter(attrs, a - 1))
    && (b < |attrs| ==> !IsPrinter(attrs, b))
  }

  /** The last ppd-name of a stretch of attributes. */
  function LastName(attrs: seq<Attribute>): Option<string> {
    if attrs == [] then None
    else if IsName(attrs[|attrs| - 1]) then Some(attrs[|attrs| - 1].text)
    else LastName(attrs[..|attrs| - 1])
  }

  predicate HasMake(attrs: seq<Attribute>) {
    exists i | 0 <= i < |attrs| :: IsMake(attrs[i])
  }

  /** What a run contributes. */
  function NameOf(run: seq<Attribute>): seq<string> {
    if HasMake(run) && LastName(run).Some? then [LastName(run).value] else []
  }

  lemma {:induction false} LastNameIs(run: seq<Attribute>)
    ensures LastName(run).None? <==>
            forall i | 0 <= i < |run| :: !(run[i].name == "ppd-name" && run[i].valueTag == 66)
    ensures LastName(run).Some? ==>
              exists i | 0 <= i < |run| ::
                && run[i].name == "ppd-name" && run[i].valueTag == 66 && run[i].text == LastName(run).value
                && forall j | i < j < |run| :: !(run[j].name == "ppd-name" && run[j].valueTag == 66)
  {
    if run == [] {
    } else {
      LastNameIs(run[..|run| - 1]);
    }
  }

  /**
   * What a run contributes, by its attributes: a name exactly if it has a make-and-model and a name, and then
   * the text of its last name.
   */
  lemma {:induction false} ContributionIs(run: seq<Attribute>)
    ensures NameOf(run) != [] <==>
            && (exists i | 0 <= i < |run| :: run[i].name == "ppd-make-and-model" && run[i].valueTag == 65)
            && (exists i | 0 <= i < |run| :: run[i].name == "ppd-name" && run[i].valueTag == 66)
    ensures |NameOf(run)| <= 1
    ensures NameOf(run) != [] ==>
              exists i | 0 <= i < |run| ::
                && run[i].name == "ppd-name" && run[i].valueTag == 66 && NameOf(run) == [run[i].text]
                && forall j | i < j < |run| :: !(run[j].name == "ppd-name" && run[j].valueTag == 66)
  {
    LastNameIs(run);
    if i :| 0 <= i < |run| && run[i].name == "ppd-make-and-model" && run[i].valueTag == 65 {
      assert IsMake(run[i]);
    }
  }

  /** The end of the stretch of printer attributes at i. */
  function RunEnd(attrs: seq<Attribute>, i: nat): (e: nat)
    requires i <= |attrs|
    ensures i <= e <= |attrs|
    ensures forall k | i <= k < e :: IsPrinter(attrs, k)
    ensures e < |attrs| ==> !IsPrinter(attrs, e)
    decreases |attrs| - i
  {
    if i < |attrs| && IsPrinter(attrs, i) then RunEnd(attrs, i + 1) else i
  }

  /** The runs from i on. */
  function RunsFrom(attrs: seq<Attribute>, i: nat): (runs: seq<(nat, nat)>)
    requires i <= |attrs|
    ensures forall r | r in runs :: r.0 <= r.1 <= |attrs|
    decreases |attrs| - i
  {
    if i == |attrs| then []
    else if IsPrinter(attrs, i) then [(i, RunEnd(attrs, i))] + RunsFrom(attrs, RunEnd(attrs, i))
    else RunsFrom(attrs, i + 1)
  }

  function NamesOf(attrs: seq<Attribute>, runs: seq<(nat, nat)>): seq<string>
    requires forall r | r in runs :: r.0 <= r.1 <= |attrs|
  {
    if runs == [] then [] else NameOf(attrs[runs[0].0..runs[0].1]) + NamesOf(attrs, runs[1..])
  }

  /** A run may begin here: it is not in the middle of one. */
  predicate AtBoundary(attrs: seq<Attribute>, i: nat) {
    i <= |attrs| && (0 < i < |attrs| && IsPrinter(attrs, i) ==> !IsPrinter(attrs, i - 1))
  }

  lemma {:induction false} RunsFromAre(attrs: seq<Attribute>, i: nat)
    requires AtBoundary(attrs, i)
    ensures forall r | r in RunsFrom(attrs, i) :: i <= r.0 && IsRun(attrs, r.0, r.1)
    decreases |attrs| - i
  {
    if i == |attrs| {
    } else {
      if IsPrinter(attrs, i) {
        assert IsRun(attrs, i, RunEnd(attrs, i));
        RunsFromAre(attrs, RunEnd(attrs, i));
      } else {
        RunsFromAre(attrs, i + 1);
      }
    }
  }

  lemma {:induction false} RunsFromAscend(attrs: seq<Attribute>, i: nat)
    requires AtBoundary(attrs, i)
    ensures forall j, k | 0 <= j < k < |RunsFrom(attrs, i)| :: RunsFrom(attrs, i)[j].1 < RunsFrom(attrs, i)[k].0
    decreases |attrs| - i
  {
    if i == |attrs| {
    } else {
      if IsPrinter(attrs, i) {
        var e := RunEnd(attrs, i);
        var rest := RunsFrom(attrs, e);
        RunsFromAscend(attrs, e);
        RunsFromAre(attrs, e);
        forall k | 0 <= k < |rest|
          ensures e < rest[k].0
        {
          assert rest[k] in rest && IsPrinter(attrs, rest[k].0);
        }
      } else {
        RunsFromAscend(attrs, i + 1);
      }
    }
  }

  lemma {:induction false} RunsFromCover(attrs: seq<Attribute>, i: nat, k: nat) returns (r: (nat, nat))
    requires i <= k < |attrs| && IsPrinter(attrs, k)
    ensures r in RunsFrom(attrs, i) && r.0 <= k < r.1
    decreases |attrs| - i
  {
    if IsPrinter(attrs, i) {
      var e := RunEnd(attrs, i);
      if k < e {
        r := (i, e);
      } else {
        r := RunsFromCover(attrs, e, k);
      }
    } else {
      r := RunsFromCover(attrs, i + 1, k);
    }
  }

  /** The runs are exactly the maximal ones, in order. */
  lemma {:induction false} RunsAreMaximal(attrs: seq<Attribute>)
    ensures forall a: nat, b: nat :: (a, b) in RunsFrom(attrs, 0) <==> IsRun(attrs, a, b)
    ensures forall j, k | 0 <= j < k < |RunsFrom(attrs, 0)| :: RunsFrom(attrs, 0)[j].1 < RunsFrom(attrs, 0)[k].0
  {
    RunsFromAre(attrs, 0);
    RunsFromAscend(attrs, 0);
    forall a: nat, b: nat | IsRun(attrs, a, b)
      ensures (a, b) in RunsFrom(attrs, 0)
    {
      assert IsPrinter(attrs, a);
      var r := RunsFromCover(attrs, 0, a);
      SameRun(attrs, a, b, r.0, r.1);
    }
  }

  lemma SameRun(attrs: seq<Attribute>, a: nat, b: nat, c: nat, d: nat)
    requires IsRun(attrs, a, b) && IsRun(attrs, c, d) && c <= a < d
    ensures (a, b) == (c, d)
  {
  }

  /** The names owed for the attributes from i on. */
  function NamesFrom(attrs: seq<Attribute>, i: nat): seq<string>
    requires i <= |attrs|
    decreases |attrs| - i
  {
    if i == |attrs| then []
    else if IsPrinter(attrs, i) then NameOf(attrs[i..RunEnd(attrs, i)]) + NamesFrom(attrs, RunEnd(attrs, i))
    else NamesFrom(attrs, i + 1)
  }

  lemma {:induction false} NamesFromRuns(attrs: seq<Attribute>, i: nat)
    requires i <= |attrs|
    ensures NamesFrom(attrs, i) == NamesOf(attrs, RunsFrom(attrs, i))
    decreases |attrs| - i
  {
    if i == |attrs| {
    } else {
      NamesFromRuns(attrs, if IsPrinter(attrs, i) then RunEnd(attrs, i) else i + 1);
    }
  }

  /** The inner loop over one run: what it has seen of the two names when it stops at the run's end. */
  method ReadRun(attrs: seq<Attribute>, start: nat) returns (end: nat, names: seq<string>)
    requires start < |attrs| && IsPrinter(attrs, start)
    ensures end == RunEnd(attrs, start) && names == NameOf(attrs[start..end])
  {
    var hasMake, ppdName := false, None;
    var attr := start;
    assert attrs[start..attr] == [];
    while attr < |attrs| && IsPrinter(attrs, attr)
      invariant start <= attr <= |attrs|
      invariant RunEnd(attrs, attr) == RunEnd(attrs, start)
      invariant hasMake == HasMake(attrs[start..attr])
      invariant ppdName == LastName(attrs[start..attr])
    {
      var a := attrs[attr];
      RunGrows(attrs, start, attr);
      if a.name == "ppd-make-and-model" && a.valueTag == IPP_TAG_TEXT {
        hasMake := true;
      } else if a.name == "ppd-name" && a.valueTag == IPP_TAG_NAME {
        ppdName := Some(a.text);
      }
      attr := attr + 1;
    }
    end := attr;
    names := if hasMake && ppdName.Some? then [ppdName.value] else [];
  }

  /** The walk over the attribute list; the end of the list is the null pointer. */
  method ParsePPDInfo(attrs: seq<Attribute>) returns (ppds: seq<string>)
    ensures ppds == NamesOf(attrs, RunsFrom(attrs, 0))
  {
    NamesFromRuns(attrs, 0);
    ppds := [];
    var attr := 0;
    while attr < |attrs|
      invariant 0 <= attr <= |attrs|
      invariant ppds + NamesFrom(attrs, attr) == NamesFrom(attrs, 0)
    {
      while attr < |attrs| && !IsPrinter(attrs, attr)
        invariant 0 <= attr <= |attrs|
        invariant ppds + NamesFrom(attrs, attr) == NamesFrom(attrs, 0)
      {
        attr := attr + 1;
      }
      if attr == |attrs| {
        break;
      }
      var end, names := ReadRun(attrs, attr);
      assert ppds + (names + NamesFrom(attrs, end)) == (ppds + names) + NamesFrom(attrs, end);
      ppds := ppds + names;
      attr := end;
      if attr == |attrs| {
        break;
      }
      assert NamesFrom(attrs, attr) == NamesFrom(attrs, attr + 1);
      attr := attr + 1;
    }
  }

  lemma RunGrows(attrs: seq<Attribute>, start: nat, i: nat)
    requires start <= i < |attrs|
    ensures HasMake(attrs[start..i + 1]) <==> HasMake(attrs[start..i]) || IsMake(attrs[i])
    ensures LastName(attrs[start..i + 1]) == if IsName(attrs[i]) then Some(attrs[i].text) else LastName(attrs[start..i])
  {
    var before, after := attrs[start..i], attrs[start..i + 1];
    assert after == before + [attrs[i]];
    if HasMake(before) {
      var k :| 0 <= k < |before| && IsMake(before[k]);
      assert IsMake(after[k]);
    }
    if IsMake(attrs[i]) {
      assert IsMake(after[|before|]);
    }
  }
}
