/**
 * The packed job sub-state: several two-digit fault codes in one uint32_t, written by
 * PrintCupsClient::GetNewSubstate and read back, independently, by PrintFailureAiNotifier
 * and by the security-guard audit.
 */
module Substate {
  import opened PrintConstants
  import opened Strings

  const NUMBER_FOR_SPLICING_SUBSTATE := 100
  const MAX_SINGLE_SUB_STATE_CODE := 99

  /** A single fault code; 0 (success) is not one. */
  type Code = c: int | 1 <= c <= 99 witness 1

  // ---------------------------------------------------------------------------------------
  // Writing
  // ---------------------------------------------------------------------------------------

  /** Appends one code; a code whose packing leaves 32 bits is dropped. The product cannot leave 64 bits. */
  function GetNewSubstate(substate: UInt32, singleSubstate: UInt32): UInt32 {
    var result := substate * NUMBER_FOR_SPLICING_SUBSTATE + singleSubstate;
    if result > UINT32_MAX then substate else result
  }

  /** The sub-state after appending the codes one by one to an empty one. */
  function Fold(codes: seq<Code>): UInt32 {
    if codes == [] then 0 else GetNewSubstate(Fold(codes[..|codes| - 1]), codes[|codes| - 1])
  }

  /** Plain base-100 notation, unbounded. */
  function Pack(codes: seq<Code>): nat {
    if codes == [] then 0 else Pack(codes[..|codes| - 1]) * 100 + codes[|codes| - 1]
  }

  /** The first code, if any, that still fits behind the four packed in head. */
  function FirstFitting(head: nat, rest: seq<Code>): (r: seq<Code>) {
    if rest == [] then [] else if head * 100 + rest[0] <= UINT32_MAX then [rest[0]] else FirstFitting(head, rest[1..])
  }

  /** Which codes survive, said without replaying the appends: the first four, then the first that fits. */
  function Kept(codes: seq<Code>): seq<Code> {
    if |codes| <= 4 then codes else codes[..4] + FirstFitting(Pack(codes[..4]), codes[4..])
  }

  lemma PackDigits(codes: seq<Code>)
    ensures |codes| == 1 ==> Pack(codes) == codes[0]
    ensures |codes| == 2 ==> Pack(codes) == (codes[0] as int) * 100 + codes[1]
    ensures |codes| == 3 ==> Pack(codes) == (codes[0] as int) * 10000 + (codes[1] as int) * 100 + codes[2]
    ensures |codes| == 4 ==>
              Pack(codes) ==
              (codes[0] as int) * 1000000 + (codes[1] as int) * 10000 + (codes[2] as int) * 100 + codes[3]
  {
  }

  lemma {:induction false} FirstFittingAppend(head: nat, rest: seq<Code>, c: Code)
    ensures FirstFitting(head, rest + [c]) ==
            if FirstFitting(head, rest) != [] then FirstFitting(head, rest) else FirstFitting(head, [c])
  {
    if rest == [] {
      assert [] + [c] == [c];
    } else {
      assert (rest + [c])[1..] == rest[1..] + [c];
      FirstFittingAppend(head, rest[1..], c);
    }
  }

  lemma {:induction false} FirstFittingIs(head: nat, rest: seq<Code>)
    ensures |FirstFitting(head, rest)| <= 1
    ensures FirstFitting(head, rest) == [] <==> forall c | c in rest :: head * 100 + c > UINT32_MAX
    ensures FirstFitting(head, rest) != [] ==>
              FirstFitting(head, rest)[0] in rest && head * 100 + FirstFitting(head, rest)[0] <= UINT32_MAX
    ensures rest != [] && head * 100 + rest[0] <= UINT32_MAX ==> FirstFitting(head, rest) == [rest[0]]
  {
    if rest == [] {
    } else {
      FirstFittingIs(head, rest[1..]);
      if FirstFitting(head, rest) == [] {
        forall c | c in rest
          ensures head * 100 + c > UINT32_MAX
        {
          assert c == rest[0] || c in rest[1..];
        }
      } else {
        assert FirstFitting(head, rest)[0] in rest;
      }
    }
  }

  lemma {:induction false} KeptFits(codes: seq<Code>)
    ensures Pack(Kept(codes)) <= UINT32_MAX
    ensures |Kept(codes)| >= 5 ==> Pack(Kept(codes)) >= 101010101
  {
    if |codes| <= 4 {
      PackDigits(codes);
    } else {
      var head := codes[..4];
      PackDigits(head);
      FirstFittingIs(Pack(head), codes[4..]);
      if |Kept(codes)| == 5 {
        assert Kept(codes)[..|Kept(codes)| - 1] == head;
      } else {
        assert Kept(codes) == head;
      }
    }
  }

  /** The kept codes after one more code, against the kept codes before it. */
  lemma {:induction false} KeptStep(front: seq<Code>, c: Code)
    ensures Kept(front + [c]) ==
            if |front| < 4 || (|Kept(front)| == 4 && Pack(Kept(front)) * 100 + c <= UINT32_MAX) then Kept(front) + [c]
            else Kept(front)
  {
    var codes := front + [c];
    if |front| == 4 {
      assert codes[..4] == front && codes[4..] == [c];
      assert FirstFitting(Pack(front), [c]) == (if Pack(front) * 100 + c <= UINT32_MAX then [c] else []);
    } else if |front| > 4 {
      var head := front[..4];
      assert codes[..4] == head && codes[4..] == front[4..] + [c];
      FirstFittingAppend(Pack(head), front[4..], c);
      FirstFittingIs(Pack(head), front[4..]);
      assert FirstFitting(Pack(head), [c]) == (if Pack(head) * 100 + c <= UINT32_MAX then [c] else []);
      if |Kept(front)| == 4 {
        assert Kept(front) == head;
      }
    }
  }

  /** Appending one by one, with drops, is the plain packing of the kept codes. */
  lemma {:induction false} FoldPacksKept(codes: seq<Code>)
    ensures Fold(codes) == Pack(Kept(codes))
  {
    if codes == [] {
    } else {
      var front, c := codes[..|codes| - 1], codes[|codes| - 1];
      assert codes == front + [c];
      FoldPacksKept(front);
      KeptStep(front, c);
      KeptFits(front);
      PackDigits(front);
      PackAppend(Kept(front), c);
    }
  }

  lemma {:induction false} PackAppend(codes: seq<Code>, c: Code)
    ensures Pack(codes + [c]) == Pack(codes) * 100 + c
  {
  }

  /** The first four codes always survive, a sixth never does, and the value stays within 32 bits. */
  lemma {:induction false} KeepsFourToFive(codes: seq<Code>)
    ensures |codes| <= 4 ==> Fold(codes) == Pack(codes)
    ensures |codes| > 4 ==> codes[..4] <= Kept(codes) && 4 <= |Kept(codes)| <= 5
    ensures Fold(codes) == Pack(Kept(codes)) <= UINT32_MAX
  {
    FoldPacksKept(codes);
    if |codes| > 4 {
      FirstFittingIs(Pack(codes[..4]), codes[4..]);
      assert Kept(codes)[..4] == codes[..4];
    }
  }

  /**
   * Is what survives an initial segment of what was reported? Not always: a dropped code may be
   * followed by a smaller one that still fits. This is exactly when.
   */
  predicate NothingSlipsPast(codes: seq<Code>) {
    |codes| <= 4 || Pack(codes[..4]) != 42949672 || codes[4] <= 95 || forall c | c in codes[4..] :: c > 95
  }

  lemma {:induction false} KeptIsPrefixIff(codes: seq<Code>)
    ensures Kept(codes) <= codes <==> NothingSlipsPast(codes)
  {
    if |codes| > 4 {
      var head, rest := Pack(codes[..4]), codes[4..];
      FirstFittingIs(head, rest);
      var kept := Kept(codes);
      assert codes == codes[..4] + rest;
      assert kept[4..] == FirstFitting(head, rest);
      if |kept| == 5 {
        assert kept <= codes <==> kept[4] == codes[4] by {
          assert kept[..4] == codes[..4];
          if kept[4] == codes[4] { assert codes[..5] == codes[..4] + [codes[4]] == kept; }
        }
        assert rest[0] == codes[4];
        if head == 42949672 && codes[4] > 95 {
          assert kept[4] in rest && kept[4] <= 95;
        }
      } else {
        assert kept == codes[..4];
        assert rest[0] in rest;
      }
    }
  }

  /** Of any codes: the second 96 is dropped as a sixth code would be, yet the 95 behind it slips in. */
  lemma SlipsPast()
    ensures !NothingSlipsPast([42, 94, 96, 72, 96, 95])
    ensures Kept([42, 94, 96, 72, 96, 95]) == [42, 94, 96, 72, 95]
  {
    PackDigits([42, 94, 96, 72]);
    var codes: seq<Code> := [42, 94, 96, 72, 96, 95];
    assert codes[..4] == [42, 94, 96, 72];
    assert codes[4..] == [96, 95];
    assert codes[4..][1..] == [95];
    assert 95 in codes[4..];
  }

  /** The two-digit values of PrintJobSubState. */
  predicate IsSubState(c: Code) {
    c <= 30 || 34 <= c <= 40 || 42 <= c <= 44 || c >= 98
  }

  /** Nothing slips past the sub-states there are: no four of them pack to 42949672, for want of a 94. */
  lemma {:induction false} SubStatesKeepPrefix(codes: seq<Code>)
    requires forall c | c in codes :: IsSubState(c)
    ensures Kept(codes) <= codes
  {
    if |codes| > 4 {
      PackDigits(codes[..4]);
      assert codes[1] in codes;
    }
    KeptIsPrefixIff(codes);
  }

  /** The codes that occur in the followed-state table or in the message table. */
  const POLLED_CODES: set<int> := {7, 8, 9, 10, 11, 14, 23, 24, 26, 27, 39, 42, 43, 99}

  /** These, and the code that is appended for a stopped job. */
  const TABLE_CODES: set<int> := POLLED_CODES + {2}

  /** Do the two leading codes, of four or more table codes, leave room for a fifth? */
  predicate LeavesRoom(codes: seq<Code>)
    requires |codes| >= 2
  {
    codes[0] < 42 || (codes[0] == 42 && codes[1] < 94)
  }

  /** How many of the table codes survive: five if the leading ones are small enough, else four. */
  function KeptCount(codes: seq<Code>): nat {
    if |codes| <= 4 then |codes| else if LeavesRoom(codes) then 5 else 4
  }

  /** For the codes the client ever appends, an initial segment survives, of a length two codes decide. */
  lemma {:induction false} TableCodesKeepPrefix(codes: seq<Code>)
    requires forall c | c in codes :: c in TABLE_CODES
    ensures KeptCount(codes) <= |codes| && Kept(codes) == codes[..KeptCount(codes)]
  {
    if |codes| > 4 {
      PackDigits(codes[..4]);
      FirstFittingIs(Pack(codes[..4]), codes[4..]);
      assert codes[0] in codes && codes[1] in codes && codes[4] == codes[4..][0];
      if KeptCount(codes) == 5 {
        assert codes[..5] == codes[..4] + [codes[4]];
      } else {
        assert FirstFitting(Pack(codes[..4]), codes[4..]) == [];
      }
    }
  }

  // ---------------------------------------------------------------------------------------
  // Reading
  // ---------------------------------------------------------------------------------------

  /** The non-zero base-100 digits of a number. */
  function SplitOf(n: nat): set<int> {
    if n == 0 then {}
    else (if n % 100 != 0 then {n % 100} else {}) + SplitOf(n / 100)
  }

  /** PrintFailureAiNotifier::SplitSubState */
  method SplitSubState(subState: UInt32) returns (uniqueStates: set<int>)
    ensures uniqueStates == SplitOf(subState)
  {
    uniqueStates := {};
    var rest := subState;
    while rest > 0
      invariant 0 <= rest
      invariant uniqueStates + SplitOf(rest) == SplitOf(subState)
    {
      var remainder := rest % NUMBER_FOR_SPLICING_SUBSTATE;
      if remainder != 0 {
        uniqueStates := uniqueStates + {remainder};
      }
      rest := rest / NUMBER_FOR_SPLICING_SUBSTATE;
    }
  }

  function Elements(codes: seq<Code>): set<int> {
    set c | c in codes
  }

  lemma {:induction false} SplitPack(codes: seq<Code>)
    ensures SplitOf(Pack(codes)) == Elements(codes)
  {
    if codes == [] {
    } else {
      var front, c := codes[..|codes| - 1], codes[|codes| - 1];
      SplitPack(front);
      var n := Pack(codes);
      assert n % 100 == c && n / 100 == Pack(front);
      assert codes == front + [c];
      assert Elements(codes) == Elements(front) + {c};
    }
  }

  /** Two different lists of codes never share a packed value. */
  lemma {:induction false} PackInjective(a: seq<Code>, b: seq<Code>)
    requires Pack(a) == Pack(b)
    ensures a == b
  {
    if a == [] || b == [] {
    } else {
      var x, y := a[|a| - 1], b[|b| - 1];
      assert Pack(a) % 100 == x && Pack(b) % 100 == y;
      PackInjective(a[..|a| - 1], b[..|b| - 1]);
      assert a == a[..|a| - 1] + [x] && b == b[..|b| - 1] + [y];
    }
  }

  /** What one file packs the other unpacks: exactly the kept codes. */
  lemma {:induction false} SplitFold(codes: seq<Code>)
    ensures SplitOf(Fold(codes)) == Elements(Kept(codes))
  {
    FoldPacksKept(codes);
    SplitPack(Kept(codes));
  }

  // ---------------------------------------------------------------------------------------
  // Error codes of the security-guard audit
  // ---------------------------------------------------------------------------------------

  const ERROR_CODE_UNKNOWN := "unknown"
  const ERROR_CODE_OTHER_ERROR := "other_error"

  const SUBSTATE_ERROR_MAP: map<int, string> := map[
    0 := "success", 1 := "failed", 2 := "cancelled", 3 := "file_corrupt", 4 := "offline", 5 := "busy",
    6 := "cancelled", 7 := "out_of_paper", 8 := "out_of_ink", 9 := "out_of_toner", 10 := "jammed",
    11 := "door_open", 12 := "service_request", 13 := "low_on_ink", 14 := "low_on_toner",
    15 := "really_low_on_ink", 16 := "bad_certificate", 17 := "driver_exception", 18 := "account_error",
    19 := "print_permission_error", 20 := "color_permission_error", 21 := "network_error",
    22 := "server_connection_error", 23 := "large_file_error", 24 := "file_parsing_error",
    25 := "slow_file_conversion", 30 := "file_uploading_error", 34 := "driver_missing", 35 := "interrupt",
    36 := "authentication_required", 37 := "banned", 38 := "smb_printer_error", 39 := "input_tray_missing",
    40 := "security_policy_restricted", 98 := "printer_unavailable", 99 := ERROR_CODE_UNKNOWN
  ]

  function SubStateToErrorCodeStr(subState: int): string {
    if subState in SUBSTATE_ERROR_MAP then SUBSTATE_ERROR_MAP[subState] else ERROR_CODE_OTHER_ERROR
  }

  /** The audit name of one code: everything without a name of its own is "unknown". */
  function ErrorName(code: int): string {
    var name := SubStateToErrorCodeStr(code);
    if name == ERROR_CODE_UNKNOWN || name == ERROR_CODE_OTHER_ERROR then ERROR_CODE_UNKNOWN else name
  }

  /** A code without a name of its own, and 99, are "unknown"; no code is ever named "other_error". */
  lemma {:induction false} ErrorNameIs(code: int)
    ensures code !in SUBSTATE_ERROR_MAP ==> ErrorName(code) == "unknown"
    ensures code in SUBSTATE_ERROR_MAP && SUBSTATE_ERROR_MAP[code] != "other_error" ==>
              ErrorName(code) == SUBSTATE_ERROR_MAP[code]
    ensures ErrorName(code) != "other_error"
  {
    assert |"unknown"| != |"other_error"|;
  }

  lemma ErrorNameExamples()
    ensures ErrorName(7) == "out_of_paper" && ErrorName(43) == "unknown" && ErrorName(99) == "unknown"
  {
    assert 43 !in SUBSTATE_ERROR_MAP;
    ErrorNameIs(43);
    assert |"out_of_paper"| == 12 && |"unknown"| == 7 && |"other_error"| == 11;
  }

  /** The names owed for a set of sub-states. */
  ghost function NamesOf(subStates: set<UInt32>): set<string> {
    set s, c | s in subStates && c in SplitOf(s) :: ErrorName(c)
  }

  /** The addErrorCode lambda: errorSet is the ascending listing of a std::set. */
  method AddErrorCode(errorSet: seq<string>, subState: UInt32) returns (r: seq<string>)
    requires Sorted(errorSet)
    ensures Sorted(r)
    ensures forall x :: x in r <==> x in errorSet || (subState != 0 && x == ErrorName(subState))
  {
    if subState == PRINT_JOB_COMPLETED_SUCCESS {
      return errorSet;
    }
    var code := SubStateToErrorCodeStr(subState);
    if code == ERROR_CODE_UNKNOWN || code == ERROR_CODE_OTHER_ERROR {
      r := Insert(errorSet, ERROR_CODE_UNKNOWN);
    } else {
      r := Insert(errorSet, code);
    }
  }

  /** The digit loop: subState > 99 is taken apart, anything else is one code. */
  method AddErrorCodes(errorSet: seq<string>, subState: UInt32) returns (r: seq<string>)
    requires Sorted(errorSet)
    ensures Sorted(r)
    ensures forall x :: x in r <==> x in errorSet || exists c :: c in SplitOf(subState) && x == ErrorName(c)
  {
    if subState > MAX_SINGLE_SUB_STATE_CODE {
      r := errorSet;
      var tmp := subState;
      while tmp > 0
        invariant 0 <= tmp <= UINT32_MAX
        invariant Sorted(r)
        invariant forall x :: (x in r || exists c :: c in SplitOf(tmp) && x == ErrorName(c)) <==>
                              (x in errorSet || exists c :: c in SplitOf(subState) && x == ErrorName(c))
      {
        var digit := tmp % NUMBER_FOR_SPLICING_SUBSTATE;
        ghost var before := r;
        r := AddErrorCode(r, digit);
        DigitStep(tmp, before, r);
        tmp := tmp / NUMBER_FOR_SPLICING_SUBSTATE;
      }
    } else {
      r := AddErrorCode(errorSet, subState);
      assert SplitOf(subState / 100) == {};
      assert SplitOf(subState) == if subState == 0 then {} else {subState};
    }
  }

  lemma DigitStep(tmp: nat, before: seq<string>, after: seq<string>)
    requires tmp > 0
    requires forall x :: x in after <==> x in before || (tmp % 100 != 0 && x == ErrorName(tmp % 100))
    ensures forall x :: (x in after || exists c :: c in SplitOf(tmp / 100) && x == ErrorName(c)) <==>
                        (x in before || exists c :: c in SplitOf(tmp) && x == ErrorName(c))
  {
  }

  /**
   * GenerateErrorCodes: sorted, free of duplicates, and naming exactly the digits of the given sub-states.
   * No other list does, so neither the order of the sub-states nor that of their digits matters.
   */
  method GenerateErrorCodes(blockedSubStates: set<UInt32>) returns (codes: seq<string>)
    ensures Sorted(codes)
    ensures forall x :: x in codes <==> x in NamesOf(blockedSubStates)
    ensures forall s | Sorted(s) && (forall x :: x in s <==> x in NamesOf(blockedSubStates)) :: s == codes
  {
    codes := [];
    var rest := blockedSubStates;
    while rest != {}
      invariant rest <= blockedSubStates
      invariant Sorted(codes)
      invariant forall x :: x in codes <==> x in NamesOf(blockedSubStates - rest)
      decreases |rest|
    {
      var subState :| subState in rest;
      ghost var done := blockedSubStates - rest;
      codes := AddErrorCodes(codes, subState);
      rest := rest - {subState};
      assert blockedSubStates - rest == done + {subState};
    }
    assert blockedSubStates - rest == blockedSubStates;
    forall s | Sorted(s) && (forall x :: x in s <==> x in NamesOf(blockedSubStates))
      ensures s == codes
    {
      SortedUnique(s, codes);
    }
  }

  /** The audit of a packed sub-state lists the sorted names of exactly the codes that survived packing. */
  method AuditOfPacked(codes: seq<Code>) returns (names: seq<string>)
    ensures Sorted(names)
    ensures forall x :: x in names <==> exists c :: c in Kept(codes) && x == ErrorName(c)
  {
    names := GenerateErrorCodes({Fold(codes)});
    SplitFold(codes);
    assert forall x :: x in NamesOf({Fold(codes)}) <==> exists c :: c in SplitOf(Fold(codes)) && x == ErrorName(c);
    assert forall c :: c in SplitOf(Fold(codes)) <==> c in Kept(codes);
  }
}
