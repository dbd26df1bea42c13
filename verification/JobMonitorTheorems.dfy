/** What one evaluation of a monitored job reports, and what the reported sub-state means. */
module JobMonitorTheorems {
  import opened Options
  import opened PrintConstants
  import opened Strings
  import opened Substate
  import opened JobMonitor

  // ---------------------------------------------------------------------------------------
  // Tables
  // ---------------------------------------------------------------------------------------

  /** The words whose mere presence blocks a job of a printer without a policy of its own. */
  const BLOCKING_WORDS: set<string> := {"cover-open", "door-open", "input-tray-missing", "media-empty", "media-jam"}

  predicate HasBlockingWord(reasons: string) {
    exists w | w in BLOCKING_WORDS :: Contains(reasons, w)
  }

  predicate HasErrorWord(reasons: string) {
    exists e | e in FOLLOW_STATE_LIST :: Contains(reasons, e.word + PRINTER_STATE_ERROR)
  }

  /** Every make ends up with the default policies: "default" is the only key of the table. */
  lemma PoliciesAreAligned(make: string, i: nat)
    requires i < |FOLLOW_STATE_LIST|
    ensures PolicyArray(make)[i] ==
            if FOLLOW_STATE_LIST[i].word in BLOCKING_WORDS then STATE_POLICY_BLOCK else STATE_POLICY_STANDARD
  {
  }

  lemma {:induction false} BlockingWordBlocks(m: Monitor, make: string)
    requires m.policyArray == PolicyArray(make)
    requires HasBlockingWord(m.printerReasons)
    ensures SomeReasonBlocks(m, |FOLLOW_STATE_LIST|)
  {
    var w :| w in BLOCKING_WORDS && Contains(m.printerReasons, w);
    var i := BlockingWordIsFollowed(w);
    PoliciesAreAligned(make, i);
    assert BlocksAt(m, i);
  }

  lemma {:induction false} ErrorWordBlocks(m: Monitor, make: string)
    requires m.policyArray == PolicyArray(make)
    requires HasErrorWord(m.printerReasons)
    ensures SomeReasonBlocks(m, |FOLLOW_STATE_LIST|)
  {
    var e :| e in FOLLOW_STATE_LIST && Contains(m.printerReasons, e.word + PRINTER_STATE_ERROR);
    var i :| 0 <= i < |FOLLOW_STATE_LIST| && FOLLOW_STATE_LIST[i] == e;
    ContainsPrefix(m.printerReasons, e.word, PRINTER_STATE_ERROR);
    PoliciesAreAligned(make, i);
    assert BlocksAt(m, i);
  }

  lemma {:induction false} OnlyThoseBlock(m: Monitor, make: string)
    requires m.policyArray == PolicyArray(make)
    requires SomeReasonBlocks(m, |FOLLOW_STATE_LIST|)
    ensures HasBlockingWord(m.printerReasons) || HasErrorWord(m.printerReasons)
  {
  }

  /** ParseStateReasons decides blocking exactly as a reader of the policy would. */
  lemma {:induction false} BlockedIff(m: Monitor, make: string)
    requires m.policyArray == PolicyArray(make)
    ensures WellFormed(m)
    ensures ReasonsParsed(m).isBlock <==> HasBlockingWord(m.printerReasons) || HasErrorWord(m.printerReasons)
  {
    if SomeReasonBlocks(m, |FOLLOW_STATE_LIST|) {
      OnlyThoseBlock(m, make);
    }
    if HasBlockingWord(m.printerReasons) {
      BlockingWordBlocks(m, make);
    }
    if HasErrorWord(m.printerReasons) {
      ErrorWordBlocks(m, make);
    }
  }

  lemma BlockingWordIsFollowed(w: string) returns (i: nat)
    requires w in BLOCKING_WORDS
    ensures i < |FOLLOW_STATE_LIST| && FOLLOW_STATE_LIST[i].word == w
  {
    i := if w == "cover-open" then 0 else if w == "door-open" then 1 else if w == "input-tray-missing" then 2
         else if w == "media-empty" then 5 else 6;
  }

  /** More reasons never unblock a job, whatever the policies. */
  lemma {:induction false} MoreReasonsNeverUnblock(m: Monitor, before: string, after: string)
    requires WellFormed(m) && ReasonsParsed(m).isBlock
    ensures ReasonsParsed(m.(printerReasons := before + m.printerReasons + after)).isBlock
  {
    var n, m' := |FOLLOW_STATE_LIST|, m.(printerReasons := before + m.printerReasons + after);
    var i :| 0 <= i < n && BlocksAt(m, i);
    var w := FOLLOW_STATE_LIST[i].word;
    ContainsInContext(before, m.printerReasons, after, w);
    if Contains(m.printerReasons, w + PRINTER_STATE_ERROR) {
      ContainsInContext(before, m.printerReasons, after, w + PRINTER_STATE_ERROR);
    }
    assert BlocksAt(m', i);
  }

  /** What each policy makes of a word: of its mere presence, and of its "-error" form. */
  lemma {:induction false} BlocksByPolicy(reasons: string, word: string, timesOfSameState: int)
    ensures Blocks(reasons, word, STATE_POLICY_STANDARD, timesOfSameState) <==> Contains(reasons, word + "-error")
    ensures Blocks(reasons, word, STATE_POLICY_BLOCK, timesOfSameState) <==> Contains(reasons, word)
    ensures !Blocks(reasons, word, STATE_POLICY_HINT, timesOfSameState)
    ensures Blocks(reasons, word, STATE_POLICY_DELAY, timesOfSameState) <==>
            Contains(reasons, word + "-error") && timesOfSameState != 0
  {
    if Contains(reasons, word + "-error") {
      ContainsPrefix(reasons, word, "-error");
    }
  }

  // ---------------------------------------------------------------------------------------
  // The sub-state of a polled job
  // ---------------------------------------------------------------------------------------

  predicate Occurs(text: string, table: seq<Entry>, i: nat) {
    i < |table| && Contains(text, table[i].word)
  }

  /** Ascending indices of table entries, and exactly those whose word occurs among the first n. */
  ghost predicate AreHits(text: string, table: seq<Entry>, n: nat, hits: seq<nat>) {
    && (forall p, q | 0 <= p < q < |hits| :: hits[p] < hits[q])
    && (forall i: nat :: i in hits <==> i < n && Occurs(text, table, i))
  }

  /** The codes of some table entries, in the order given. */
  predicate Spells(codes: seq<Code>, table: seq<Entry>, hits: seq<nat>) {
    |codes| == |hits| && forall p | 0 <= p < |hits| :: hits[p] < |table| && codes[p] == table[hits[p]].code
  }

  lemma HitsStep(text: string, table: seq<Entry>, n: nat, hits: seq<nat>)
    requires AreHits(text, table, n, hits)
    ensures AreHits(text, table, n + 1, if Occurs(text, table, n) then hits + [n] else hits)
  {
    assert forall p | 0 <= p < |hits| :: hits[p] in hits;
  }

  lemma SpellsStep(codes: seq<Code>, table: seq<Entry>, hits: seq<nat>, n: nat)
    requires Spells(codes, table, hits) && n < |table|
    ensures Spells(codes + [table[n].code], table, hits + [n])
  {
  }

  lemma MatchedAdds(text: string, table: seq<Entry>, n: nat)
    requires n < |table|
    ensures Matched(text, table, n + 1) ==
            if Occurs(text, table, n) then Matched(text, table, n) + [table[n].code] else Matched(text, table, n)
  {
  }

  /** The matched codes are those of the entries whose word occurs, each once, in table order. */
  lemma {:induction false} MatchedAre(text: string, table: seq<Entry>, n: nat) returns (hits: seq<nat>)
    requires n <= |table|
    ensures AreHits(text, table, n, hits) && Spells(Matched(text, table, n), table, hits)
  {
    if n == 0 {
      hits := [];
    } else {
      var before := MatchedAre(text, table, n - 1);
      hits := OneMoreMatched(text, table, n - 1, before);
    }
  }

  lemma {:induction false} OneMoreMatched(text: string, table: seq<Entry>, n: nat, before: seq<nat>)
    returns (hits: seq<nat>)
    requires n < |table| && AreHits(text, table, n, before) && Spells(Matched(text, table, n), table, before)
    ensures AreHits(text, table, n + 1, hits) && Spells(Matched(text, table, n + 1), table, hits)
  {
    HitsStep(text, table, n, before);
    MatchedAdds(text, table, n);
    if Occurs(text, table, n) {
      SpellsStep(Matched(text, table, n), table, before, n);
      hits := before + [n];
    } else {
      hits := before;
    }
  }

  lemma {:induction false} FoldFromFold(a: seq<Code>, b: seq<Code>)
    ensures FoldFrom(Fold(a), b) == Fold(a + b)
  {
    if b == [] {
      assert a + b == a;
    } else {
      FoldFromFold(a, b[..|b| - 1]);
      assert (a + b)[..|a + b| - 1] == a + b[..|b| - 1];
    }
  }

  lemma {:induction false} MatchedCodesArePolledCodes(text: string, table: seq<Entry>, n: nat)
    requires n <= |table|
    requires forall e | e in table :: e.code in POLLED_CODES
    ensures forall c | c in Matched(text, table, n) :: c in POLLED_CODES
  {
    if n == 0 {
    } else {
      MatchedCodesArePolledCodes(text, table, n - 1);
      assert table[n - 1] in table;
    }
  }

  lemma {:induction false} MessageCodesArePolledCodes(m: Monitor, clocks: seq<Clock>, n: nat)
    requires n <= |MESSAGE_LIST| == |clocks|
    ensures forall c | c in MessageScan(m, clocks, n).codes :: c in POLLED_CODES
  {
    if n == 0 {
    } else {
      MessageCodesArePolledCodes(m, clocks, n - 1);
    }
  }

  /** All codes a poll appends: those of the reasons, then those of the message. */
  function PolledCodes(m: Monitor, clocks: seq<Clock>): seq<Code>
    requires WellFormed(m) && |clocks| == |MESSAGE_LIST|
  {
    ReasonCodes(m.printerReasons) + MessageScan(ReasonsParsed(m), clocks, |MESSAGE_LIST|).codes
  }

  /** What a poll appends are table codes, and never the code of a cancelled job. */
  lemma {:induction false} TablesHoldPolledCodes(m: Monitor, clocks: seq<Clock>)
    requires WellFormed(m) && |clocks| == |MESSAGE_LIST|
    ensures forall c | c in PolledCodes(m, clocks) :: c in POLLED_CODES
  {
    MatchedCodesArePolledCodes(m.printerReasons, FOLLOW_STATE_LIST, |FOLLOW_STATE_LIST|);
    MessageCodesArePolledCodes(ReasonsParsed(m), clocks, |MESSAGE_LIST|);
  }

  lemma {:induction false} PolledSubstateFolds(m: Monitor, clocks: seq<Clock>)
    requires WellFormed(m) && |clocks| == |MESSAGE_LIST|
    ensures MessageParsed(ReasonsParsed(m), clocks).substate == Fold(PolledCodes(m, clocks))
  {
    FoldFromFold(ReasonCodes(m.printerReasons), MessageScan(ReasonsParsed(m), clocks, |MESSAGE_LIST|).codes);
  }

  lemma {:induction false} FoldPositive(codes: seq<Code>)
    requires codes != []
    ensures Fold(codes) > 0
  {
  }

  /**
   * The sub-state a poll leaves behind, read back by SplitSubState, is the set of the first four or
   * five matched codes: an initial segment of reasons and message, in table order.
   */
  lemma {:induction false} PolledSubstateDecodes(m: Monitor, clocks: seq<Clock>)
    requires WellFormed(m) && |clocks| == |MESSAGE_LIST|
    ensures
      var codes := PolledCodes(m, clocks);
      KeptCount(codes) <= |codes| &&
      SplitOf(MessageParsed(ReasonsParsed(m), clocks).substate) == Elements(codes[..KeptCount(codes)])
  {
    var codes := PolledCodes(m, clocks);
    TablesHoldPolledCodes(m, clocks);
    PolledSubstateFolds(m, clocks);
    TableCodesKeepPrefix(codes);
    SplitFold(codes);
  }

  lemma {:induction false} MatchedGrows(text: string, table: seq<Entry>, i: nat, n: nat)
    requires i < n <= |table| && Contains(text, table[i].word)
    ensures table[i].code in Matched(text, table, n)
    decreases n
  {
    if i == n - 1 {
    } else {
      MatchedGrows(text, table, i, n - 1);
    }
  }

  /** A blocking reason always leaves its code behind, so the "unknown" fallback of ParseStateReasons is dead. */
  lemma {:induction false} BlockedImpliesSubstate(m: Monitor)
    requires WellFormed(m) && ReasonsParsed(m).isBlock
    ensures ReasonsParsed(m).substate != 0
  {
    var n := |FOLLOW_STATE_LIST|;
    var i :| 0 <= i < n && BlocksAt(m, i);
    MatchedGrows(m.printerReasons, FOLLOW_STATE_LIST, i, n);
    FoldPositive(ReasonCodes(m.printerReasons));
  }

  predicate HasMessageError(message: string) {
    Contains(message, "file-parsing-error") || Contains(message, "large-file-error") || Contains(message, "port-error")
  }

  lemma MessageScanBlocks(m: Monitor, clocks: seq<Clock>, n: nat)
    requires n <= |MESSAGE_LIST| == |clocks|
    ensures MessageScan(m, clocks, n).isBlock <==>
            m.isBlock ||
            (n > 1 && Contains(m.message, "file-parsing-error")) ||
            (n > 2 && Contains(m.message, "large-file-error")) ||
            (n > 3 && Contains(m.message, "port-error"))
  {
  }

  /** After both parsers a job is blocked exactly by a blocking reason, an error reason, or a message error. */
  lemma {:induction false} PolledBlockIff(m: Monitor, make: string, clocks: seq<Clock>)
    requires m.policyArray == PolicyArray(make) && |clocks| == |MESSAGE_LIST|
    ensures WellFormed(m)
    ensures MessageParsed(ReasonsParsed(m), clocks).isBlock <==>
            HasBlockingWord(m.printerReasons) || HasErrorWord(m.printerReasons) || HasMessageError(m.message)
  {
    BlockedIff(m, make);
    MessageScanBlocks(ReasonsParsed(m), clocks, |MESSAGE_LIST|);
  }

  predicate NoWord(message: string) {
    forall e | e in MESSAGE_LIST :: !Contains(message, e.word)
  }

  lemma {:induction false} ScanOfNoWord(m: Monitor, clocks: seq<Clock>, n: nat)
    requires n <= |MESSAGE_LIST| == |clocks| && NoWord(m.message)
    ensures MessageScan(m, clocks, n) == Scan([], m.isBlock, m.uploadingFilesStartTime)
  {
    if n == 0 {
    } else {
      ScanOfNoWord(m, clocks, n - 1);
      assert MESSAGE_LIST[n - 1] in MESSAGE_LIST;
    }
  }

  /** An unrelated message leaves everything, the conversion timer included, as it was. */
  lemma {:induction false} TimerOutlivesConversion(m: Monitor, clocks: seq<Clock>)
    requires |clocks| == |MESSAGE_LIST| && NoWord(m.message)
    ensures MessageParsed(m, clocks) == m
  {
    ScanOfNoWord(m, clocks, |MESSAGE_LIST|);
  }

  /**
   * Does the COMPLETED report of a stopped job say "cancelled"? Only if the fault codes left room:
   * exactly when the sub-state is at most 42949672.
   */
  lemma {:induction false} StoppedReportSaysCancelledIff(m: Monitor, codes: seq<Code>)
    requires m.substate == Fold(codes) && PRINT_JOB_COMPLETED_CANCELLED !in codes
    ensures
      var o := HandleStoppedState(m, false);
      |o.reports| == 1 && o.reports[0].state == PRINT_JOB_COMPLETED &&
      (PRINT_JOB_COMPLETED_CANCELLED in SplitOf(o.reports[0].subState) <==> m.substate <= 42949672)
  {
    SplitFold(codes);
    KeptComesFromCodes(codes);
    var n := m.substate * 100 + 2;
    assert n % 100 == 2 && n / 100 == m.substate;
  }

  lemma {:induction false} KeptComesFromCodes(codes: seq<Code>)
    ensures forall c | c in Kept(codes) :: c in codes
  {
    if |codes| > 4 {
      FirstFittingIs(Pack(codes[..4]), codes[4..]);
    }
  }

  // ---------------------------------------------------------------------------------------
  // Reports of one evaluation
  // ---------------------------------------------------------------------------------------

  /** A report that ends the monitoring of a job. */
  predicate IsFinal(r: Report) {
    r.state == PRINT_JOB_COMPLETED
    || r == Report(PRINT_JOB_BLOCKED, PRINT_JOB_BLOCKED_INTERRUPT)
    || r == Report(PRINT_JOB_BLOCKED, PRINT_JOB_BLOCKED_UNKNOWN)
  }

  /** The one silent end: CUPS aborted a job the user had already cancelled. */
  predicate EndsSilently(o: Outcome) {
    o.m.jobState == IPP_JOB_ABORTED && o.m.isCanceled && o.reports == []
  }

  /** What every step of an evaluation of a job with a service keeps. */
  predicate Disciplined(o: Outcome) {
    && |o.reports| <= 1
    && (o.verdict == Proceed ==> o.reports == [])
    && (o.verdict == Drop ==> EndsSilently(o) || (|o.reports| == 1 && IsFinal(o.reports[0])))
    && (o.reports != [] && o.reports[0].state == PRINT_JOB_COMPLETED ==> o.verdict == Drop)
  }

  lemma CallbackIsDisciplined(m: Monitor, stopped: bool)
    ensures Disciplined(JobStatusCallback(m, stopped)) && JobStatusCallback(m, stopped).verdict != Proceed
    ensures JobStatusCallback(m, stopped).m == m
  {
  }

  /** An evaluation never touches what identifies the job, its flags or its policies. */
  predicate SameJob(m: Monitor, m': Monitor) {
    m'.hasService == m.hasService && m'.serviceJobId == m.serviceJobId && m'.policyArray == m.policyArray &&
    m'.isIppOverUsb == m.isIppOverUsb && m'.isCanceled == m.isCanceled && m'.isInterrupt == m.isInterrupt
  }

  lemma ParsersKeepJob(m: Monitor, clocks: seq<Clock>)
    requires WellFormed(m) && |clocks| == |MESSAGE_LIST|
    ensures SameJob(m, MessageParsed(ReasonsParsed(m), clocks))
  {
  }

  lemma QueryCases(m: Monitor, poll: Poll, u: Monitor)
    requires WellFormed(m) && ValidPoll(poll)
    requires poll.online && !m.isFirstQueryState && poll.response.Some?
    requires u == Updated(m, poll.response.value)
    ensures WellFormed(u) && SameJob(m, u)
    ensures Query(m, poll) ==
            if !Passes(m, poll.response.value) then Outcome(u, [], Keep)
            else JobStatusCallback(MessageParsed(ReasonsParsed(u), poll.clocks), poll.stopped)
  {
  }

  lemma {:induction false} QueryIsDisciplined(m: Monitor, poll: Poll)
    requires WellFormed(m) && ValidPoll(poll)
    ensures Disciplined(Query(m, poll)) && Query(m, poll).verdict != Proceed
    ensures SameJob(m, Query(m, poll).m)
  {
    if poll.online && !m.isFirstQueryState && poll.response.Some? {
      var u := Updated(m, poll.response.value);
      QueryCases(m, poll, u);
      if Passes(m, poll.response.value) {
        var p := MessageParsed(ReasonsParsed(u), poll.clocks);
        CallbackIsDisciplined(p, poll.stopped);
        ParsersKeepJob(u, poll.clocks);
      }
    }
  }

  /**
   * Each evaluation makes at most one report, and the one that ends the monitoring makes exactly one,
   * a final one, unless CUPS aborted an already cancelled job; whatever the flags read meanwhile.
   */
  lemma {:induction false} OneReportPerEvaluation(
      m: Monitor, canceledFirst: bool, interrupted: bool, canceledLater: bool, cancelOk: bool, poll: Poll)
    requires WellFormed(m) && ValidPoll(poll) && m.hasService
    ensures
      var o := Evaluate(m, canceledFirst, interrupted, canceledLater, cancelOk, poll);
      Disciplined(o) && o.verdict != Proceed
  {
    QueryIsDisciplined(m.(isCanceled := canceledLater), poll);
  }

  /** A response that reaches the job-state handlers. */
  predicate IsHandled(m: Monitor, poll: Poll) {
    poll.online && !m.isFirstQueryState && poll.response.Some? && Passes(m, poll.response.value)
  }

  /** The job states in which CUPS still has something to do, or has just been told to cancel. */
  predicate StillActive(jobState: int, stopped: bool) {
    jobState == IPP_JOB_PENDING || jobState == IPP_JOB_HELD || jobState == IPP_JOB_PROCESSING ||
    (jobState == IPP_JOB_STOPPED && stopped)
  }

  lemma CallbackKeepsIff(m: Monitor, stopped: bool)
    ensures JobStatusCallback(m, stopped).verdict == Keep <==> StillActive(m.jobState, stopped)
    ensures Report(PRINT_JOB_COMPLETED, PRINT_JOB_COMPLETED_SUCCESS) in JobStatusCallback(m, stopped).reports ==>
              m.jobState == IPP_JOB_COMPLETED || m.jobState == IPP_JOB_STOPPED
    ensures m.jobState == IPP_JOB_COMPLETED ==>
              JobStatusCallback(m, stopped).reports == [Report(PRINT_JOB_COMPLETED, PRINT_JOB_COMPLETED_SUCCESS)]
  {
  }

  lemma QueryKeepsIff(m: Monitor, poll: Poll)
    requires WellFormed(m) && ValidPoll(poll)
    ensures Query(m, poll).verdict == Keep <==>
            && (poll.online || !m.isIppOverUsb)
            && (IsHandled(m, poll) ==> StillActive(Received(poll.response.value).jobState, poll.stopped))
  {
    if IsHandled(m, poll) {
      var u := Updated(m, poll.response.value);
      QueryCases(m, poll, u);
      CallbackKeepsIff(MessageParsed(ReasonsParsed(u), poll.clocks), poll.stopped);
    }
  }

  /**
   * A job with a service stays monitored exactly when no cancel failed, no interrupt is seen, no IPP-over-USB
   * printer went away, and CUPS, if it was heard at all, still holds the job active.
   */
  lemma {:induction false} StaysMonitoredIff(
      m: Monitor, canceledFirst: bool, interrupted: bool, canceledLater: bool, cancelOk: bool, poll: Poll)
    requires WellFormed(m) && ValidPoll(poll) && m.hasService
    ensures Evaluate(m, canceledFirst, interrupted, canceledLater, cancelOk, poll).verdict == Keep <==>
            && !(canceledFirst && !cancelOk) && !interrupted
            && (poll.online || !m.isIppOverUsb)
            && (IsHandled(m, poll) ==> StillActive(Received(poll.response.value).jobState, poll.stopped))
  {
    QueryKeepsIff(m.(isCanceled := canceledLater), poll);
  }

  /** Success is reported exactly for a job CUPS has completed: a stopped job's packed code is never zero. */
  lemma {:induction false} SuccessReportedIff(m: Monitor, poll: Poll)
    requires WellFormed(m) && ValidPoll(poll)
    ensures Report(PRINT_JOB_COMPLETED, PRINT_JOB_COMPLETED_SUCCESS) in Query(m, poll).reports <==>
            IsHandled(m, poll) && Received(poll.response.value).jobState == IPP_JOB_COMPLETED
  {
    if IsHandled(m, poll) {
      var u := Updated(m, poll.response.value);
      QueryCases(m, poll, u);
      var p := MessageParsed(ReasonsParsed(u), poll.clocks);
      CallbackKeepsIff(p, poll.stopped);
      CancelCodeIsNotZero(p.substate);
    }
  }

  lemma CancelCodeIsNotZero(substate: UInt32)
    ensures GetNewSubstate(substate, PRINT_JOB_COMPLETED_CANCELLED) != PRINT_JOB_COMPLETED_SUCCESS
  {
  }

  lemma ProcessingCase(p: Monitor, stopped: bool)
    requires p.jobState == IPP_JOB_PROCESSING && !p.isCanceled
    ensures JobStatusCallback(p, stopped) ==
            Outcome(p, [Report(if p.isBlock then PRINT_JOB_BLOCKED else PRINT_JOB_RUNNING, p.substate)], Keep)
  {
  }

  /** What a running or blocked job reports decodes to the leading matched codes of the poll. */
  lemma {:induction false} ProcessingReportDecodes(m: Monitor, make: string, poll: Poll)
    requires m.policyArray == PolicyArray(make) && ValidPoll(poll)
    requires poll.online && !m.isFirstQueryState && poll.response.Some?
    requires Passes(m, poll.response.value) && Received(poll.response.value).jobState == IPP_JOB_PROCESSING
    requires !m.isCanceled
    ensures WellFormed(m)
    ensures
      var u := Updated(m, poll.response.value);
      var t, codes, o := Received(poll.response.value), PolledCodes(u, poll.clocks), Query(m, poll);
      && o.verdict == Keep && |o.reports| == 1 && KeptCount(codes) <= |codes|
      && SplitOf(o.reports[0].subState) == Elements(codes[..KeptCount(codes)])
      && o.reports[0].state ==
           if HasBlockingWord(t.printerReasons) || HasErrorWord(t.printerReasons) || HasMessageError(t.message)
           then PRINT_JOB_BLOCKED else PRINT_JOB_RUNNING
  {
    var u := Updated(m, poll.response.value);
    QueryCases(m, poll, u);
    PolledSubstateDecodes(u, poll.clocks);
    PolledBlockIff(u, make, poll.clocks);
    ProcessingCase(MessageParsed(ReasonsParsed(u), poll.clocks), poll.stopped);
    assert Stored(u) == Received(poll.response.value);
  }

  // ---------------------------------------------------------------------------------------
  // The last report of a stopped job
  // ---------------------------------------------------------------------------------------

  lemma StoppedCase(p: Monitor)
    requires p.jobState == IPP_JOB_STOPPED
    ensures JobStatusCallback(p, false) ==
            Outcome(p, [Report(PRINT_JOB_COMPLETED, GetNewSubstate(p.substate, PRINT_JOB_COMPLETED_CANCELLED))], Drop)
  {
  }

  lemma {:induction false} FoldAppend(codes: seq<Code>, c: Code)
    ensures Fold(codes + [c]) == GetNewSubstate(Fold(codes), c)
  {
    assert (codes + [c])[..|codes|] == codes;
  }

  /** A further code of the table's kind survives exactly when four were not already too many. */
  lemma {:induction false} LastCodeSurvivesIff(codes: seq<Code>, c: Code)
    requires c in TABLE_CODES && c !in codes && forall k | k in codes :: k in TABLE_CODES
    ensures SplitOf(Fold(codes + [c])) == Elements((codes + [c])[..KeptCount(codes + [c])])
    ensures c in SplitOf(Fold(codes + [c])) <==> |codes| < 4 || (|codes| == 4 && LeavesRoom(codes))
  {
    var all := codes + [c];
    TableCodesKeepPrefix(all);
    SplitFold(all);
    var kept := all[..KeptCount(all)];
    if KeptCount(all) == |all| {
      assert kept[|codes|] == c;
    } else {
      assert kept == codes[..KeptCount(all)];
    }
  }

  /** The code "cancelled" is in a stopped job's COMPLETED report exactly when the poll's own codes left room for it. */
  lemma {:induction false} StoppedQuerySaysCancelledIff(m: Monitor, poll: Poll)
    requires WellFormed(m) && ValidPoll(poll) && IsHandled(m, poll)
    requires Received(poll.response.value).jobState == IPP_JOB_STOPPED && !poll.stopped
    ensures WellFormed(Updated(m, poll.response.value))
    ensures
      var codes, o := PolledCodes(Updated(m, poll.response.value), poll.clocks), Query(m, poll);
      && o.verdict == Drop && |o.reports| == 1 && o.reports[0].state == PRINT_JOB_COMPLETED
      && (PRINT_JOB_COMPLETED_CANCELLED in SplitOf(o.reports[0].subState) <==>
          |codes| < 4 || (|codes| == 4 && LeavesRoom(codes)))
  {
    var u := Updated(m, poll.response.value);
    QueryCases(m, poll, u);
    var codes := PolledCodes(u, poll.clocks);
    TablesHoldPolledCodes(u, poll.clocks);
    PolledSubstateFolds(u, poll.clocks);
    StoppedCase(MessageParsed(ReasonsParsed(u), poll.clocks));
    FoldAppend(codes, PRINT_JOB_COMPLETED_CANCELLED);
    LastCodeSurvivesIff(codes, PRINT_JOB_COMPLETED_CANCELLED);
  }

  lemma {:induction false} MatchedExtends(text: string, table: seq<Entry>, i: nat, n: nat)
    requires i <= n <= |table|
    ensures |Matched(text, table, i)| <= |Matched(text, table, n)|
    decreases n
  {
    if i == n {
    } else {
      MatchedExtends(text, table, i, n - 1);
    }
  }

  /** How IPP writes one more keyword of a multi-valued attribute. */
  function AndReason(text: string, word: string): (r: string)
    ensures |r| == |text| + 1 + |word|
  {
    text + "," + word
  }

  lemma {:induction false} AndReasonContains(text: string, word: string)
    ensures Contains(AndReason(text, word), word)
    ensures forall w | Contains(text, w) :: Contains(AndReason(text, word), w)
  {
    assert OccursAt(AndReason(text, word), word, |text| + 1);
    forall w | Contains(text, w)
      ensures Contains(AndReason(text, word), w)
    {
      ContainsInContext("", text, "," + word, w);
      assert "" + text + ("," + word) == AndReason(text, word);
    }
  }

  const TWO_REASONS := AndReason("cover-open", "door-open")
  const FOUR_REASONS := AndReason(AndReason(TWO_REASONS, "input-tray-missing"), "marker-ink-almost-empty")
  const FIVE_REASONS := AndReason(FOUR_REASONS, "marker-supply-empty")

  lemma TwoReasonsContained()
    ensures Contains(TWO_REASONS, "cover-open") && Contains(TWO_REASONS, "door-open")
  {
    assert OccursAt("cover-open", "cover-open", 0);
    AndReasonContains("cover-open", "door-open");
  }

  lemma FiveReasonsContained()
    ensures forall i | 0 <= i < 5 :: Contains(FIVE_REASONS, FOLLOW_STATE_LIST[i].word)
  {
    TwoReasonsContained();
    AndReasonContains(TWO_REASONS, "input-tray-missing");
    AndReasonContains(AndReason(TWO_REASONS, "input-tray-missing"), "marker-ink-almost-empty");
    AndReasonContains(FOUR_REASONS, "marker-supply-empty");
  }

  lemma {:induction false} AllMatched(text: string, table: seq<Entry>, n: nat)
    requires n <= |table| && forall i | 0 <= i < n :: Contains(text, table[i].word)
    ensures |Matched(text, table, n)| == n
  {
    if n == 0 {
    } else {
      AllMatched(text, table, n - 1);
    }
  }

  /** Five reasons at once, and the COMPLETED report of the stopped job does not say "cancelled". */
  lemma {:induction false} StoppedReportCanLackCancelled(m: Monitor, poll: Poll)
    requires WellFormed(m) && ValidPoll(poll) && poll.online && !poll.stopped && !m.isFirstQueryState
    requires m.jobState != IPP_JOB_STOPPED
    requires poll.response == Some(Response(Some(IPP_JOB_STOPPED), None, Some(FIVE_REASONS), None))
    ensures
      var o := Query(m, poll);
      && o.verdict == Drop && |o.reports| == 1 && o.reports[0].state == PRINT_JOB_COMPLETED
      && PRINT_JOB_COMPLETED_CANCELLED !in SplitOf(o.reports[0].subState)
  {
    StoppedQuerySaysCancelledIff(m, poll);
    FiveReasonsContained();
    AllMatched(FIVE_REASONS, FOLLOW_STATE_LIST, 5);
    MatchedExtends(FIVE_REASONS, FOLLOW_STATE_LIST, 5, |FOLLOW_STATE_LIST|);
  }
}
