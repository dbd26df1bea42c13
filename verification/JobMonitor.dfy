/**
 * What the monitor loop does with one polled job: IPP responses are throttled, printer state
 * reasons and messages are folded into a sub-state, and the job state decides what is reported
 * and whether the job stays monitored. Here on values; JobMonitorParam.dfy holds the in-place form.
 */
module JobMonitor {
  import opened Options
  import opened PrintConstants
  import opened Strings
  import opened Substate

  // ---------------------------------------------------------------------------------------
  // Tables
  // ---------------------------------------------------------------------------------------

  datatype StatePolicy = STATE_POLICY_STANDARD | STATE_POLICY_BLOCK | STATE_POLICY_HINT | STATE_POLICY_DELAY

  datatype Entry = Entry(word: string, code: Code)

  /** FOLLOW_STATE_LIST in the order a std::map iterates it. */
  const FOLLOW_STATE_LIST: seq<Entry> := [
    Entry("cover-open", PRINT_JOB_BLOCKED_DOOR_OPEN),
    Entry("door-open", PRINT_JOB_BLOCKED_DOOR_OPEN),
    Entry("input-tray-missing", PRINT_JOB_BLOCKED_INPUT_TRAY_MISSING),
    Entry("marker-ink-almost-empty", PRINT_JOB_BLOCKED_OUT_OF_INK),
    Entry("marker-supply-empty", PRINT_JOB_BLOCKED_OUT_OF_INK),
    Entry("media-empty", PRINT_JOB_BLOCKED_OUT_OF_PAPER),
    Entry("media-jam", PRINT_JOB_BLOCKED_JAMMED),
    Entry("media-needed", PRINT_JOB_BLOCKED_OUT_OF_PAPER),
    Entry("other", PRINT_JOB_BLOCKED_UNKNOWN),
    Entry("spool-area-full", PRINT_JOB_BLOCKED_UNKNOWN),
    Entry("timed-out", PRINT_JOB_BLOCKED_UNKNOWN),
    Entry("toner-empty", PRINT_JOB_BLOCKED_OUT_OF_TONER),
    Entry("toner-low", PRINT_JOB_BLOCKED_LOW_ON_TONER)
  ]

  /** JOB_PRINTER_STATE_MESSAGE_LIST in the order a std::map iterates it. */
  const MESSAGE_LIST: seq<Entry> := [
    Entry("converting-files", PRINT_JOB_RUNNING_CONVERTING_FILES),
    Entry("file-parsing-error", PRINT_JOB_BLOCKED_FILE_PARSING_ERROR),
    Entry("large-file-error", PRINT_JOB_BLOCKED_LARGE_FILE_ERROR),
    Entry("port-error", PRINT_JOB_BLOCKED_PORT_ERROR),
    Entry("slow-file-conversion", PRINT_JOB_RUNNING_SLOW_FILE_CONVERSION),
    Entry("uploading-files", PRINT_JOB_RUNNING_UPLOADING_FILES)
  ]

  const PRINTER_STATE_ERROR := "-error"
  const DEFAULT_POLICY := "default"
  const POLICY_ARRAY_SIZE := 16

  const SPECIAL_PRINTER_POLICY: map<string, map<string, StatePolicy>> := map[
    DEFAULT_POLICY := map[
      "media-empty" := STATE_POLICY_BLOCK,
      "media-jam" := STATE_POLICY_BLOCK,
      "door-open" := STATE_POLICY_BLOCK,
      "input-tray-missing" := STATE_POLICY_BLOCK,
      "cover-open" := STATE_POLICY_BLOCK
    ]
  ]

  /** The policies of a printer make, or the default ones. */
  function PolicyTable(make: string): map<string, StatePolicy> {
    if make in SPECIAL_PRINTER_POLICY then SPECIAL_PRINTER_POLICY[make] else SPECIAL_PRINTER_POLICY[DEFAULT_POLICY]
  }

  function PolicyOf(make: string, word: string): StatePolicy {
    if word in PolicyTable(make) then PolicyTable(make)[word] else STATE_POLICY_STANDARD
  }

  /** The array BuildMonitorPolicy fills: aligned with the followed-state table, standard elsewhere. */
  function PolicyArray(make: string): seq<StatePolicy> {
    seq(POLICY_ARRAY_SIZE,
        i requires 0 <= i < POLICY_ARRAY_SIZE =>
          if i < |FOLLOW_STATE_LIST| then PolicyOf(make, FOLLOW_STATE_LIST[i].word) else STATE_POLICY_STANDARD)
  }

  // ---------------------------------------------------------------------------------------
  // The monitored job
  // ---------------------------------------------------------------------------------------

  // ipp_jstate_t, section 5.3.7 of RFC 8011
  const IPP_JOB_PENDING := 3
  const IPP_JOB_HELD := 4
  const IPP_JOB_PROCESSING := 5
  const IPP_JOB_STOPPED := 6
  const IPP_JOB_ABORTED := 8
  const IPP_JOB_COMPLETED := 9

  const STATE_UPDATE_STEP := 5
  const SLOW_FILE_CONVERSION_THRESHOLD_TIME := 5000
  const TWO_TO_THE_64 := 0x1_0000_0000_0000_0000

  /** The fields of a JobMonitorParam that its evaluation reads or writes. */
  datatype Monitor = Monitor(
    hasService: bool,               // serviceAbility != nullptr
    serviceJobId: string,
    isIppOverUsb: bool,             // printerId contains ":IPP-"
    policyArray: seq<StatePolicy>,
    jobState: int,
    jobStateReasons: string,
    printerReasons: string,
    message: string,
    isFirstQueryState: bool,
    timesOfSameState: int,
    isBlock: bool,
    substate: UInt32,
    isCanceled: bool,
    isInterrupt: bool,
    uploadingFilesStartTime: nat)

  /** A JobMonitorParam as HandleFilesAndStartMonitoring constructs it. */
  function NewMonitor(hasService: bool, serviceJobId: string, isIppOverUsb: bool, make: string): Monitor {
    Monitor(hasService, serviceJobId, isIppOverUsb, PolicyArray(make), IPP_JOB_PENDING, "", "", "",
            true, -1, false, 0, false, false, 0)
  }

  predicate WellFormed(m: Monitor) {
    |m.policyArray| == POLICY_ARRAY_SIZE
  }

  // ---------------------------------------------------------------------------------------
  // UpdateJobState: throttling of IPP responses
  // ---------------------------------------------------------------------------------------

  /** The four attributes asked for, each of which a response may lack. */
  datatype Response = Response(
    jobState: Option<int>,
    jobStateReasons: Option<string>,
    printerReasons: Option<string>,
    message: Option<string>)

  /** A C string in one of the 1024-byte buffers. */
  function Buffer(s: Option<string>): string {
    if s.None? then "" else if |s.value| < 1024 then s.value else s.value[..1023]
  }

  datatype Triple = Triple(jobState: int, printerReasons: string, message: string)

  function Received(r: Response): Triple {
    Triple(if r.jobState.Some? then r.jobState.value else IPP_JOB_PENDING, Buffer(r.printerReasons), Buffer(r.message))
  }

  function Stored(m: Monitor): Triple {
    Triple(m.jobState, m.printerReasons, m.message)
  }

  /** The remainder as C++ computes it: the sign follows the dividend. */
  function TruncatedRemainder(a: int, b: int): int
    requires b != 0
  {
    if a >= 0 then a % b else -((-a) % b)
  }

  /** UpdateJobState returned true: the response is handed on. */
  predicate Passes(m: Monitor, r: Response) {
    Stored(m) != Received(r) || TruncatedRemainder(m.timesOfSameState + 1, STATE_UPDATE_STEP) == 0
  }

  /** The monitored job after UpdateJobState. job_state_reasons is not compared, and only copied on a change. */
  function Updated(m: Monitor, r: Response): Monitor {
    if Stored(m) == Received(r) then m.(timesOfSameState := m.timesOfSameState + 1)
    else
      var t := Received(r);
      m.(timesOfSameState := -1, jobState := t.jobState, jobStateReasons := Buffer(r.jobStateReasons),
         printerReasons := t.printerReasons, message := t.message)
  }

  // ---------------------------------------------------------------------------------------
  // ParseStateReasons and ParseStateMessage
  // ---------------------------------------------------------------------------------------

  /** Does a matched reason block the job under its policy? The result of GetBlockedAndUpdateSubstate. */
  predicate Blocks(reasons: string, word: string, policy: StatePolicy, timesOfSameState: int) {
    Contains(reasons, word) &&
    if Contains(reasons, word + PRINTER_STATE_ERROR) then
      policy != STATE_POLICY_HINT && !(policy == STATE_POLICY_DELAY && timesOfSameState == 0)
    else
      policy == STATE_POLICY_BLOCK
  }

  /** The codes of the table entries, among the first n, that a text contains: in table order. */
  function Matched(text: string, table: seq<Entry>, n: nat): seq<Code>
    requires n <= |table|
  {
    if n == 0 then []
    else Matched(text, table, n - 1) + if Contains(text, table[n - 1].word) then [table[n - 1].code] else []
  }

  function ReasonCodes(reasons: string): seq<Code> {
    Matched(reasons, FOLLOW_STATE_LIST, |FOLLOW_STATE_LIST|)
  }

  predicate BlocksAt(m: Monitor, i: nat)
    requires WellFormed(m) && i < |FOLLOW_STATE_LIST|
  {
    Blocks(m.printerReasons, FOLLOW_STATE_LIST[i].word, m.policyArray[i], m.timesOfSameState)
  }

  predicate SomeReasonBlocks(m: Monitor, n: nat)
    requires WellFormed(m) && n <= |FOLLOW_STATE_LIST|
  {
    exists i | 0 <= i < n :: BlocksAt(m, i)
  }

  /** The monitored job after ParseStateReasons. */
  function ReasonsParsed(m: Monitor): Monitor
    requires WellFormed(m)
  {
    m.(isBlock := SomeReasonBlocks(m, |FOLLOW_STATE_LIST|), substate := Fold(ReasonCodes(m.printerReasons)))
  }

  /** GetNowTime as read for one table entry: once to start the timer, once to check it. */
  datatype Clock = Clock(start: nat, check: nat)

  /** What ParseStateMessage has collected so far. */
  datatype Scan = Scan(codes: seq<Code>, isBlock: bool, startTime: nat)

  /** uint64_t subtraction */
  function Elapsed(now: nat, start: nat): nat {
    (now - start) % TWO_TO_THE_64
  }

  /** One matched message entry. */
  function MessageItem(s: Scan, code: Code, clock: Clock): Scan {
    var codes := s.codes + [code];
    if code == PRINT_JOB_BLOCKED_LARGE_FILE_ERROR || code == PRINT_JOB_BLOCKED_FILE_PARSING_ERROR ||
       code == PRINT_JOB_BLOCKED_PORT_ERROR
    then Scan(codes, true, 0)
    else if code == PRINT_JOB_RUNNING_UPLOADING_FILES || code == PRINT_JOB_RUNNING_CONVERTING_FILES then
      var startTime := if s.startTime == 0 then clock.start else s.startTime;
      if Elapsed(clock.check, startTime) >= SLOW_FILE_CONVERSION_THRESHOLD_TIME
      then Scan(codes + [PRINT_JOB_RUNNING_SLOW_FILE_CONVERSION], s.isBlock, startTime)
      else Scan(codes, s.isBlock, startTime)
    else Scan(codes, s.isBlock, 0)
  }

  /** The first n message entries, against the clock readings made for each. */
  function MessageScan(m: Monitor, clocks: seq<Clock>, n: nat): Scan
    requires n <= |MESSAGE_LIST| == |clocks|
  {
    if n == 0 then Scan([], m.isBlock, m.uploadingFilesStartTime)
    else
      var s := MessageScan(m, clocks, n - 1);
      if Contains(m.message, MESSAGE_LIST[n - 1].word)
      then MessageItem(s, MESSAGE_LIST[n - 1].code, clocks[n - 1])
      else s
  }

  /** Appending further codes to a sub-state already present. */
  function FoldFrom(substate: UInt32, codes: seq<Code>): UInt32 {
    if codes == [] then substate
    else GetNewSubstate(FoldFrom(substate, codes[..|codes| - 1]), codes[|codes| - 1])
  }

  /** The monitored job after ParseStateMessage. */
  function MessageParsed(m: Monitor, clocks: seq<Clock>): Monitor
    requires |clocks| == |MESSAGE_LIST|
  {
    var s := MessageScan(m, clocks, |MESSAGE_LIST|);
    m.(isBlock := s.isBlock, substate := FoldFrom(m.substate, s.codes), uploadingFilesStartTime := s.startTime)
  }

  // ---------------------------------------------------------------------------------------
  // Evaluation of one monitored job
  // ---------------------------------------------------------------------------------------

  /** The arguments of PrintServiceAbility::UpdatePrintJobState. */
  datatype Report = Report(state: UInt32, subState: UInt32)

  /** What the outside world answers during one evaluation. */
  datatype Poll = Poll(
    online: bool,                   // the connection is (again) open and the printer answers
    stopped: bool,                  // CancelPrinterJob on a stopped job succeeds
    response: Option<Response>,     // None: the job attributes could not be fetched
    clocks: seq<Clock>)

  predicate ValidPoll(poll: Poll) {
    |poll.clocks| == |MESSAGE_LIST|
  }

  /** Proceed: the evaluation goes on. Keep: it is over, the job stays monitored. Drop: so is the monitoring. */
  datatype Verdict = Proceed | Keep | Drop

  datatype Outcome = Outcome(m: Monitor, reports: seq<Report>, verdict: Verdict)

  /** IfContinueToHandleJobState up to the first read of isCanceled; cancelOk is CancelPrinterJob's answer. */
  function CheckCanceled(m: Monitor, cancelOk: bool): Outcome {
    if !m.hasService then Outcome(m, [], Drop)
    else if m.isCanceled && !cancelOk then
      Outcome(m, [Report(PRINT_JOB_COMPLETED, PRINT_JOB_COMPLETED_CANCELLED)], Drop)
    else Outcome(m, [], Proceed)
  }

  /** The read of isInterrupt. */
  function CheckInterrupt(m: Monitor): Outcome {
    if m.isInterrupt then Outcome(m, [Report(PRINT_JOB_BLOCKED, PRINT_JOB_BLOCKED_INTERRUPT)], Drop)
    else Outcome(m, [], Proceed)
  }

  function HandleJobIsQueued(m: Monitor): Outcome {
    if m.jobStateReasons == "printer-stopped" then
      Outcome(m, [Report(PRINT_JOB_BLOCKED, PRINT_JOB_BLOCKED_PRINTER_UNAVAILABLE)], Keep)
    else if m.jobStateReasons == "job-hold-until-specified" && m.printerReasons == "stopped" then
      Outcome(m, [Report(PRINT_JOB_BLOCKED, PRINT_JOB_BLOCKED_UNKNOWN)], Keep)
    else Outcome(m, [Report(PRINT_JOB_QUEUED, PRINT_JOB_COMPLETED_SUCCESS)], Keep)
  }

  function HandleHeldState(m: Monitor): Outcome {
    if m.printerReasons == "smb-printer-connected-failed" then
      Outcome(m, [Report(PRINT_JOB_BLOCKED, PRINT_JOB_BLOCKED_SMB_PRINTER)], Keep)
    else if m.jobStateReasons == "cups-held-for-authentication" then
      Outcome(m, [Report(PRINT_JOB_BLOCKED, PRINT_JOB_BLOCKED_AUTHENTICATION)], Keep)
    else HandleJobIsQueued(m)
  }

  function HandleProcessingState(m: Monitor): Outcome {
    if m.isCanceled then Outcome(m, [], Keep)
    else if m.isBlock then Outcome(m, [Report(PRINT_JOB_BLOCKED, m.substate)], Keep)
    else Outcome(m, [Report(PRINT_JOB_RUNNING, m.substate)], Keep)
  }

  function HandleStoppedState(m: Monitor, stopped: bool): Outcome {
    if stopped then Outcome(m, [], Keep)
    else
      Outcome(m, [Report(PRINT_JOB_COMPLETED, GetNewSubstate(m.substate, PRINT_JOB_COMPLETED_CANCELLED))], Drop)
  }

  function HandleAbortedState(m: Monitor): Outcome {
    if m.isCanceled then Outcome(m, [], Drop)
    else Outcome(m, [Report(PRINT_JOB_BLOCKED, PRINT_JOB_BLOCKED_UNKNOWN)], Drop)
  }

  /** JobStatusCallback: every state without a handler of its own counts as cancelled. */
  function JobStatusCallback(m: Monitor, stopped: bool): Outcome {
    if m.jobState == IPP_JOB_PROCESSING then HandleProcessingState(m)
    else if m.jobState == IPP_JOB_HELD then HandleHeldState(m)
    else if m.jobState == IPP_JOB_PENDING then HandleJobIsQueued(m)
    else if m.jobState == IPP_JOB_STOPPED then HandleStoppedState(m, stopped)
    else if m.jobState == IPP_JOB_COMPLETED then
      Outcome(m, [Report(PRINT_JOB_COMPLETED, PRINT_JOB_COMPLETED_SUCCESS)], Drop)
    else if m.jobState == IPP_JOB_ABORTED then HandleAbortedState(m)
    else Outcome(m, [Report(PRINT_JOB_COMPLETED, PRINT_JOB_COMPLETED_CANCELLED)], Drop)
  }

  /** QueryJobStateAndCallback */
  function Query(m: Monitor, poll: Poll): Outcome
    requires WellFormed(m) && ValidPoll(poll)
  {
    if !poll.online then
      if m.isIppOverUsb then Outcome(m, [Report(PRINT_JOB_COMPLETED, PRINT_JOB_COMPLETED_FAILED)], Drop)
      else Outcome(m, [Report(PRINT_JOB_BLOCKED, PRINT_JOB_BLOCKED_OFFLINE)], Keep)
    else if m.isFirstQueryState then Outcome(m.(isFirstQueryState := false), [], Keep)
    else if poll.response.None? then Outcome(m, [], Keep)
    else
      var u := Updated(m, poll.response.value);
      if !Passes(m, poll.response.value) then Outcome(u, [], Keep)
      else JobStatusCallback(MessageParsed(ReasonsParsed(u), poll.clocks), poll.stopped)
  }

  /**
   * A whole evaluation, whatever happens meanwhile: isCanceled and isInterrupt are atomics other
   * threads may set at any time, so each of the three reads has a value of its own.
   */
  function Evaluate(m: Monitor, canceledFirst: bool, interrupted: bool, canceledLater: bool, cancelOk: bool, poll: Poll)
    : Outcome
    requires WellFormed(m) && ValidPoll(poll)
  {
    var first := CheckCanceled(m.(isCanceled := canceledFirst), cancelOk);
    if first.verdict != Proceed then first
    else
      var second := CheckInterrupt(m.(isInterrupt := interrupted));
      if second.verdict != Proceed then second
      else Query(m.(isCanceled := canceledLater), poll)
  }

  // ---------------------------------------------------------------------------------------
  // Throttling over any sequence of responses
  // ---------------------------------------------------------------------------------------

  /** The monitored job after a sequence of responses. */
  function Fed(m: Monitor, rs: seq<Response>): Monitor {
    if rs == [] then m else Updated(Fed(m, rs[..|rs| - 1]), rs[|rs| - 1])
  }

  /** Was the k-th response of the sequence handed on? */
  predicate PassedOn(m: Monitor, rs: seq<Response>, k: nat)
    requires k < |rs|
  {
    Passes(Fed(m, rs[..k]), rs[k])
  }

  /** The triple before the k-th response: that of the previous response, or the initial one. */
  function Previous(m: Monitor, rs: seq<Response>, k: nat): Triple
    requires k <= |rs|
  {
    if k == 0 then Stored(m) else Received(rs[k - 1])
  }

  lemma {:induction false} FedStep(m: Monitor, rs: seq<Response>, k: nat)
    requires k < |rs|
    ensures Fed(m, rs[..k + 1]) == Updated(Fed(m, rs[..k]), rs[k])
  {
    assert rs[..k + 1][..k] == rs[..k];
  }

  /** The stored triple is always the last received one, although most responses are suppressed. */
  lemma {:induction false} StoredIsLastReceived(m: Monitor, rs: seq<Response>, k: nat)
    requires k <= |rs|
    ensures Stored(Fed(m, rs[..k])) == Previous(m, rs, k)
  {
  }

  /** Every change of job state, printer reasons or message is handed on. */
  lemma {:induction false} ChangesPassOn(m: Monitor, rs: seq<Response>, k: nat)
    requires k < |rs|
    requires Received(rs[k]) != Previous(m, rs, k)
    ensures PassedOn(m, rs, k)
  {
  }

  lemma {:induction false} CounterStaysAboveMinusOne(m: Monitor, rs: seq<Response>)
    requires m.timesOfSameState >= -1
    ensures Fed(m, rs).timesOfSameState >= -1
  {
    if rs == [] {
    } else {
      CounterStaysAboveMinusOne(m, rs[..|rs| - 1]);
    }
  }

  /** Never more than four responses in a row are suppressed. */
  lemma {:induction false} AtMostFourSuppressed(m: Monitor, rs: seq<Response>, k: nat)
    requires m.timesOfSameState >= -1
    requires k + 5 <= |rs|
    ensures exists j | k <= j < k + 5 :: PassedOn(m, rs, j)
  {
    CounterStaysAboveMinusOne(m, rs[..k]);
    var t := Fed(m, rs[..k]).timesOfSameState;
    var j := k + (4 - t) % 5;
    if forall i | k <= i < j :: !PassedOn(m, rs, i) {
      CounterWhileSuppressed(m, rs, k, j);
      FifthPasses(Fed(m, rs[..j]), t, rs[j]);
      assert PassedOn(m, rs, j);
    } else {
      var i :| k <= i < j && PassedOn(m, rs, i);
    }
  }

  lemma FifthPasses(m: Monitor, t: int, r: Response)
    requires t >= -1 && m.timesOfSameState == t + (4 - t) % 5
    ensures Passes(m, r)
  {
  }

  lemma {:induction false} CounterWhileSuppressed(m: Monitor, rs: seq<Response>, k: nat, j: nat)
    requires k <= j < |rs|
    requires forall i | k <= i < j :: !PassedOn(m, rs, i)
    ensures Fed(m, rs[..j]).timesOfSameState == Fed(m, rs[..k]).timesOfSameState + (j - k)
    decreases j
  {
    if k == j {
    } else {
      CounterWhileSuppressed(m, rs, k, j - 1);
      FedStep(m, rs, j - 1);
      assert !PassedOn(m, rs, j - 1);
    }
  }

  /** The k-th response brings nothing new. */
  predicate Repeats(m: Monitor, rs: seq<Response>, k: nat)
    requires k < |rs|
  {
    Received(rs[k]) == Previous(m, rs, k)
  }

  /** The counter before the k-th response, told from the changes alone. */
  function Count(m: Monitor, rs: seq<Response>, k: nat): int
    requires k <= |rs|
  {
    if k == 0 then m.timesOfSameState else if Repeats(m, rs, k - 1) then Count(m, rs, k - 1) + 1 else -1
  }

  lemma {:induction false} CountIs(m: Monitor, rs: seq<Response>, k: nat)
    requires k <= |rs|
    ensures Fed(m, rs[..k]).timesOfSameState == Count(m, rs, k)
  {
    if k == 0 {
      assert rs[..k] == [];
    } else {
      CountIs(m, rs, k - 1);
      FedStep(m, rs, k - 1);
      StoredIsLastReceived(m, rs, k - 1);
    }
  }

  lemma {:induction false} CountWhileRepeated(m: Monitor, rs: seq<Response>, k: nat, n: nat)
    requires k + n <= |rs| && Count(m, rs, k) == -1
    requires forall i | k <= i < k + n :: Repeats(m, rs, i)
    ensures Count(m, rs, k + n) == n - 1
  {
    if n == 0 {
    } else {
      CountWhileRepeated(m, rs, k, n - 1);
      assert Repeats(m, rs, k + n - 1);
    }
  }

  lemma RepeatPasses(m: Monitor, r: Response, n: nat)
    requires Stored(m) == Received(r) && m.timesOfSameState == n - 1
    ensures Passes(m, r) <==> n % 5 == 0
  {
  }

  lemma {:induction false} RepeatCount(m: Monitor, rs: seq<Response>, k: nat, j: nat)
    requires k <= j < |rs|
    requires if k == 0 then m.timesOfSameState == -1 else !Repeats(m, rs, k - 1)
    requires forall i | k <= i <= j :: Repeats(m, rs, i)
    ensures Stored(Fed(m, rs[..j])) == Received(rs[j]) && Fed(m, rs[..j]).timesOfSameState == j - k - 1
  {
    assert Count(m, rs, k) == -1;
    CountWhileRepeated(m, rs, k, j - k);
    CountIs(m, rs, j);
    StoredIsLastReceived(m, rs, j);
    assert Repeats(m, rs, j);
  }

  /**
   * Of the responses that only repeat the stored triple the first, the sixth, the eleventh and so on are
   * handed on, and all others are suppressed.
   */
  lemma {:induction false} RepeatedPassesIff(m: Monitor, rs: seq<Response>, k: nat, j: nat)
    requires k <= j < |rs|
    requires if k == 0 then m.timesOfSameState == -1 else !Repeats(m, rs, k - 1)
    requires forall i | k <= i <= j :: Repeats(m, rs, i)
    ensures PassedOn(m, rs, j) <==> (j - k) % 5 == 0
  {
    RepeatCount(m, rs, k, j);
    RepeatPasses(Fed(m, rs[..j]), rs[j], j - k);
  }

  /** The response that last changed the triple, or -1 if none did. */
  function LastChange(m: Monitor, rs: seq<Response>): (k: int)
    ensures -1 <= k < |rs|
  {
    if rs == [] then -1
    else if Received(rs[|rs| - 1]) != Previous(m, rs, |rs| - 1) then |rs| - 1
    else LastChange(m, rs[..|rs| - 1])
  }

  /** What a response says when it leaves something out, or says too much: no job state means pending. */
  lemma ReceivedIs(r: Response)
    ensures Received(r).jobState == if r.jobState.Some? then r.jobState.value else 3
    ensures r.printerReasons.Some? && |r.printerReasons.value| <= 1023 ==>
              Received(r).printerReasons == r.printerReasons.value
    ensures r.message.Some? && |r.message.value| <= 1023 ==> Received(r).message == r.message.value
    ensures r.printerReasons.Some? ==>
              Received(r).printerReasons <= r.printerReasons.value && |Received(r).printerReasons| <= 1023
    ensures r.printerReasons.Some? && |r.printerReasons.value| > 1023 ==> |Received(r).printerReasons| == 1023
    ensures r.printerReasons.None? ==> Received(r).printerReasons == ""
    ensures r.message.None? ==> Received(r).message == ""
  {
  }

  /** What a new job compares with: it counts as pending, with nothing said. */
  function PreviousOfNew(rs: seq<Response>, k: nat): Triple
    requires k <= |rs|
  {
    if k == 0 then Triple(3, "", "") else Received(rs[k - 1])
  }

  /**
   * Which responses of a new job are handed on: each that differs from the one before it, and of those that
   * repeat it the first, the sixth, the eleventh and so on since the last that differed.
   */
  lemma {:induction false} NewJobPassesIff(
      hasService: bool, id: string, usb: bool, make: string, rs: seq<Response>, j: nat)
    requires j < |rs|
    ensures
      var m := NewMonitor(hasService, id, usb, make);
      PassedOn(m, rs, j) <==>
      Received(rs[j]) != PreviousOfNew(rs, j) || (j - (LastChange(m, rs[..j]) + 1)) % 5 == 0
  {
    PassesIff(NewMonitor(hasService, id, usb, make), rs, j);
  }

  lemma {:induction false} PassesIff(m: Monitor, rs: seq<Response>, j: nat)
    requires j < |rs| && m.timesOfSameState == -1
    ensures PassedOn(m, rs, j) <==> !Repeats(m, rs, j) || (j - (LastChange(m, rs[..j]) + 1)) % 5 == 0
  {
    var k := LastChange(m, rs[..j]) + 1;
    if Repeats(m, rs, j) {
      RepeatsSince(m, rs, k, j);
      RepeatedPassesIff(m, rs, k, j);
    } else {
      ChangesPassOn(m, rs, j);
    }
  }

  lemma PrefixRepeats(m: Monitor, rs: seq<Response>, j: nat, i: nat)
    requires i < j <= |rs|
    ensures Repeats(m, rs[..j], i) <==> Repeats(m, rs, i)
  {
  }

  lemma {:induction false} RepeatsSince(m: Monitor, rs: seq<Response>, k: nat, j: nat)
    requires k <= j < |rs| && k == LastChange(m, rs[..j]) + 1 && Repeats(m, rs, j)
    ensures k > 0 ==> !Repeats(m, rs, k - 1)
    ensures forall i | k <= i <= j :: Repeats(m, rs, i)
  {
    LastChangeIs(m, rs[..j]);
    if k > 0 {
      PrefixRepeats(m, rs, j, k - 1);
    }
    forall i | k <= i <= j
      ensures Repeats(m, rs, i)
    {
      if i < j {
        assert Repeats(m, rs[..j], i);
        PrefixRepeats(m, rs, j, i);
      }
    }
  }

  lemma {:induction false} LastChangeIs(m: Monitor, rs: seq<Response>)
    ensures
      var k := LastChange(m, rs);
      (k >= 0 ==> !Repeats(m, rs, k)) && forall i | k < i < |rs| :: Repeats(m, rs, i)
  {
    if rs == [] {
    } else {
      var last := |rs| - 1;
      LastChangeIs(m, rs[..last]);
      forall i | 0 <= i < last
        ensures Repeats(m, rs[..last], i) <==> Repeats(m, rs, i)
      {
        PrefixRepeats(m, rs, last, i);
      }
    }
  }

  function LastChangeReasons(m: Monitor, rs: seq<Response>): string {
    var k := LastChange(m, rs);
    if 0 <= k < |rs| then Buffer(rs[k].jobStateReasons) else m.jobStateReasons
  }

  /**
   * job_state_reasons is not compared, so what the Handle*State functions read of it is the value of
   * the last response that changed the triple.
   */
  lemma {:induction false} StoredReasonsAreOfLastChange(m: Monitor, rs: seq<Response>)
    requires rs != []
    ensures Fed(m, rs).jobStateReasons == LastChangeReasons(m, rs)
  {
    var front := rs[..|rs| - 1];
    StoredIsLastReceived(m, rs, |rs| - 1);
    if front == [] {
      assert LastChange(m, front) == -1;
    } else {
      StoredReasonsAreOfLastChange(m, front);
    }
    if Received(rs[|rs| - 1]) == Previous(m, rs, |rs| - 1) {
      assert Fed(m, rs).jobStateReasons == Fed(m, front).jobStateReasons;
      assert LastChange(m, rs) == LastChange(m, front);
      assert LastChangeReasons(m, rs) == LastChangeReasons(m, front);
    }
  }

  /**
   * When is the stored job_state_reasons, which the handlers read, that of the last response? Exactly when
   * this response changed the triple, or has the reasons of the last one that did.
   */
  lemma {:induction false} ReasonsAreFreshIff(m: Monitor, rs: seq<Response>)
    requires rs != []
    ensures
      var last := |rs| - 1;
      var k := LastChange(m, rs[..last]);
      Fed(m, rs).jobStateReasons == Buffer(rs[last].jobStateReasons) <==>
      || Received(rs[last]) != Previous(m, rs, last)
      || Buffer(rs[last].jobStateReasons) == if k < 0 then m.jobStateReasons else Buffer(rs[k].jobStateReasons)
  {
    StoredReasonsAreOfLastChange(m, rs);
  }

  /** A held job that only now asks for authentication: the poll is handed on, but reads the old reasons. */
  lemma ReasonsCanBeStale(m: Monitor)
    requires m == NewMonitor(true, "job", false, "make").(isFirstQueryState := false)
    ensures
      var held := Response(Some(IPP_JOB_HELD), Some("none"), None, None);
      var auth := held.(jobStateReasons := Some("cups-held-for-authentication"));
      PassedOn(m, [held, auth], 1) && Fed(m, [held, auth]).jobStateReasons == "none"
  {
    var held := Response(Some(IPP_JOB_HELD), Some("none"), None, None);
    var auth := held.(jobStateReasons := Some("cups-held-for-authentication"));
    assert [held, auth][..1] == [held] && [held][..0] == [];
    assert Fed(m, [held]) == Updated(m, held);
    assert Fed(m, [held, auth]) == Updated(Fed(m, [held]), auth);
  }
}
