/**
 * The monitored job in place: the object whose fields UpdateJobState, ParseStateReasons,
 * ParseStateMessage and the Handle*State functions update, and the loops that do it.
 */
module JobMonitorParam {
  import opened PrintConstants
  import opened Strings
  import opened Substate
  import opened JobMonitor
  import opened JobMonitorTheorems

  /** The receiver of reports. */
  class PrintServiceAbility {
    var updates: seq<(string, Report)>

    constructor ()
      ensures updates == []
    {
      updates := [];
    }

    method UpdatePrintJobState(jobId: string, state: UInt32, subState: UInt32)
      modifies this
      ensures updates == old(updates) + [(jobId, Report(state, subState))]
    {
      updates := updates + [(jobId, Report(state, subState))];
    }
  }

  class JobMonitorParam {
    const serviceAbility: PrintServiceAbility?
    const serviceJobId: string
    const isIppOverUsb: bool
    const policyArray: array<StatePolicy>
    var jobState: int
    var jobStateReasons: string
    var printerReasons: string
    var message: string
    var isFirstQueryState: bool
    var timesOfSameState: int
    var isBlock: bool
    var substate: UInt32
    var isCanceled: bool
    var isInterrupt: bool
    var uploadingFilesStartTime: nat

    constructor (service: PrintServiceAbility?, id: string, usb: bool)
      ensures fresh(policyArray) && serviceAbility == service && serviceJobId == id && isIppOverUsb == usb
      ensures policyArray.Length == POLICY_ARRAY_SIZE
      ensures forall i | 0 <= i < POLICY_ARRAY_SIZE :: policyArray[i] == STATE_POLICY_STANDARD
      ensures View() == NewMonitor(service != null, id, usb, DEFAULT_POLICY).(policyArray := policyArray[..])
    {
      serviceAbility, serviceJobId, isIppOverUsb := service, id, usb;
      policyArray := new StatePolicy[POLICY_ARRAY_SIZE](_ => STATE_POLICY_STANDARD);
      jobState, jobStateReasons, printerReasons, message := IPP_JOB_PENDING, "", "", "";
      isFirstQueryState, timesOfSameState, isBlock, substate := true, -1, false, 0;
      isCanceled, isInterrupt, uploadingFilesStartTime := false, false, 0;
    }

    function View(): Monitor
      reads this, policyArray
    {
      Monitor(serviceAbility != null, serviceJobId, isIppOverUsb, policyArray[..], jobState, jobStateReasons,
              printerReasons, message, isFirstQueryState, timesOfSameState, isBlock, substate, isCanceled,
              isInterrupt, uploadingFilesStartTime)
    }

    /** The array holds the followed states' policies, entry by entry, and nothing else changes. */
    method BuildMonitorPolicy(make: string)
      requires policyArray.Length == POLICY_ARRAY_SIZE
      requires forall i | 0 <= i < POLICY_ARRAY_SIZE :: policyArray[i] == STATE_POLICY_STANDARD
      modifies policyArray
      ensures policyArray[..] == PolicyArray(make)
    {
      var policies := PolicyTable(make);
      var index := 0;
      while index < |FOLLOW_STATE_LIST|
        invariant 0 <= index <= |FOLLOW_STATE_LIST|
        invariant forall i | 0 <= i < index :: policyArray[i] == PolicyOf(make, FOLLOW_STATE_LIST[i].word)
        invariant forall i | index <= i < POLICY_ARRAY_SIZE :: policyArray[i] == STATE_POLICY_STANDARD
      {
        var word := FOLLOW_STATE_LIST[index].word;
        if word in policies {
          policyArray[index] := policies[word];
        }
        index := index + 1;
      }
    }

    method UpdateJobState(response: Response) returns (needUpdate: bool)
      modifies this
      ensures needUpdate == Passes(old(View()), response) && View() == Updated(old(View()), response)
    {
      var state := if response.jobState.Some? then response.jobState.value else IPP_JOB_PENDING;
      var reasons := Buffer(response.printerReasons);
      var text := Buffer(response.message);
      if jobState == state && printerReasons == reasons && message == text {
        timesOfSameState := timesOfSameState + 1;
        return TruncatedRemainder(timesOfSameState, STATE_UPDATE_STEP) == 0;
      }
      timesOfSameState := -1;
      jobState := state;
      jobStateReasons := Buffer(response.jobStateReasons);
      printerReasons := reasons;
      message := text;
      return true;
    }

    method GetBlockedAndUpdateSubstate(policy: StatePolicy, word: string, code: Code) returns (blocked: bool)
      modifies this`substate
      ensures blocked == Blocks(printerReasons, word, policy, timesOfSameState)
      ensures substate == if Contains(printerReasons, word) then GetNewSubstate(old(substate), code) else old(substate)
    {
      if Contains(printerReasons, word) {
        substate := GetNewSubstate(substate, code);
        if Contains(printerReasons, word + PRINTER_STATE_ERROR) {
          if policy == STATE_POLICY_HINT {
            return false;
          }
          if policy == STATE_POLICY_DELAY && timesOfSameState == 0 {
            return false;
          }
          return true;
        } else {
          return policy == STATE_POLICY_BLOCK;
        }
      }
      return false;
    }

    method ParseStateReasons()
      requires policyArray.Length == POLICY_ARRAY_SIZE
      modifies this`isBlock, this`substate
      ensures View() == ReasonsParsed(old(View()))
    {
      isBlock := false;
      substate := 0;
      var index := 0;
      ghost var before := old(View());
      while index < |FOLLOW_STATE_LIST|
        invariant 0 <= index <= |FOLLOW_STATE_LIST|
        invariant isBlock == SomeReasonBlocks(before, index)
        invariant substate == Fold(Matched(printerReasons, FOLLOW_STATE_LIST, index))
      {
        var entry := FOLLOW_STATE_LIST[index];
        var blocked := GetBlockedAndUpdateSubstate(policyArray[index], entry.word, entry.code);
        MatchedStep(before, index);
        isBlock := isBlock || blocked;
        index := index + 1;
      }
      if isBlock && substate == 0 {
        BlockedImpliesSubstate(before);
        assert false;
      }
    }

    method ParseStateMessage(clocks: seq<Clock>)
      requires |clocks| == |MESSAGE_LIST|
      modifies this`isBlock, this`substate, this`uploadingFilesStartTime
      ensures View() == MessageParsed(old(View()), clocks)
    {
      var index := 0;
      ghost var before := old(View());
      ghost var scan := MessageScan(before, clocks, 0);
      while index < |MESSAGE_LIST|
        invariant 0 <= index <= |MESSAGE_LIST|
        invariant scan == MessageScan(before, clocks, index)
        invariant isBlock == scan.isBlock && uploadingFilesStartTime == scan.startTime
        invariant substate == FoldFrom(before.substate, scan.codes)
      {
        if Contains(message, MESSAGE_LIST[index].word) {
          HandleMessage(MESSAGE_LIST[index].code, clocks[index], before.substate, scan);
          scan := MessageItem(scan, MESSAGE_LIST[index].code, clocks[index]);
        }
        index := index + 1;
      }
    }

    /** The body of the message loop for a matched entry. */
    method HandleMessage(code: Code, clock: Clock, ghost base: UInt32, ghost scan: Scan)
      requires isBlock == scan.isBlock && uploadingFilesStartTime == scan.startTime
      requires substate == FoldFrom(base, scan.codes)
      modifies this`isBlock, this`substate, this`uploadingFilesStartTime
      ensures
        var next := MessageItem(scan, code, clock);
        isBlock == next.isBlock && uploadingFilesStartTime == next.startTime && substate == FoldFrom(base, next.codes)
    {
      FoldFromStep(base, scan.codes, code);
      substate := GetNewSubstate(substate, code);
      if code == PRINT_JOB_BLOCKED_LARGE_FILE_ERROR || code == PRINT_JOB_BLOCKED_FILE_PARSING_ERROR ||
         code == PRINT_JOB_BLOCKED_PORT_ERROR {
        uploadingFilesStartTime := 0;
        isBlock := true;
      } else if code == PRINT_JOB_RUNNING_UPLOADING_FILES || code == PRINT_JOB_RUNNING_CONVERTING_FILES {
        if uploadingFilesStartTime == 0 {
          uploadingFilesStartTime := clock.start;
        }
        var elapsedTime := Elapsed(clock.check, uploadingFilesStartTime);
        if elapsedTime >= SLOW_FILE_CONVERSION_THRESHOLD_TIME {
          FoldFromStep(base, scan.codes + [code], PRINT_JOB_RUNNING_SLOW_FILE_CONVERSION);
          substate := GetNewSubstate(substate, PRINT_JOB_RUNNING_SLOW_FILE_CONVERSION);
        }
      } else {
        uploadingFilesStartTime := 0;
      }
    }

    // --- evaluation: reports go to the service, the result says whether to keep monitoring ---

    /** What an evaluation step has done to the job and told the service, given its outcome. */
    twostate predicate Did(o: Outcome, keep: bool)
      requires serviceAbility != null
      reads this, policyArray, serviceAbility
    {
      && View() == o.m
      && keep == (o.verdict == Keep)
      && o.verdict != Proceed
      && serviceAbility.updates == old(serviceAbility.updates) + Tagged(serviceJobId, o.reports)
    }

    method Tell(state: UInt32, subState: UInt32)
      requires serviceAbility != null
      modifies serviceAbility
      ensures serviceAbility.updates == old(serviceAbility.updates) + Tagged(serviceJobId, [Report(state, subState)])
    {
      serviceAbility.UpdatePrintJobState(serviceJobId, state, subState);
    }

    method QueuedState() returns (keep: bool)
      requires serviceAbility != null
      modifies serviceAbility
      ensures Did(HandleJobIsQueued(View()), keep)
    {
      if jobStateReasons == "printer-stopped" {
        Tell(PRINT_JOB_BLOCKED, PRINT_JOB_BLOCKED_PRINTER_UNAVAILABLE);
        return true;
      }
      if jobStateReasons == "job-hold-until-specified" && printerReasons == "stopped" {
        Tell(PRINT_JOB_BLOCKED, PRINT_JOB_BLOCKED_UNKNOWN);
        return true;
      }
      Tell(PRINT_JOB_QUEUED, PRINT_JOB_COMPLETED_SUCCESS);
      return true;
    }

    method HeldState() returns (keep: bool)
      requires serviceAbility != null
      modifies serviceAbility
      ensures Did(HandleHeldState(View()), keep)
    {
      if printerReasons == "smb-printer-connected-failed" {
        Tell(PRINT_JOB_BLOCKED, PRINT_JOB_BLOCKED_SMB_PRINTER);
        return true;
      }
      if jobStateReasons == "cups-held-for-authentication" {
        Tell(PRINT_JOB_BLOCKED, PRINT_JOB_BLOCKED_AUTHENTICATION);
        return true;
      }
      keep := QueuedState();
    }

    method ProcessingState() returns (keep: bool)
      requires serviceAbility != null
      modifies serviceAbility
      ensures Did(HandleProcessingState(View()), keep)
    {
      if isCanceled {
        assert Tagged(serviceJobId, []) == [];
        return true;
      }
      if isBlock {
        Tell(PRINT_JOB_BLOCKED, substate);
        return true;
      }
      Tell(PRINT_JOB_RUNNING, substate);
      return true;
    }

    method StoppedState(cancelled: bool) returns (keep: bool)
      requires serviceAbility != null
      modifies serviceAbility
      ensures Did(HandleStoppedState(View(), cancelled), keep)
    {
      if cancelled {
        assert Tagged(serviceJobId, []) == [];
        return true;
      }
      Tell(PRINT_JOB_COMPLETED, GetNewSubstate(substate, PRINT_JOB_COMPLETED_CANCELLED));
      return false;
    }

    method AbortedState() returns (keep: bool)
      requires serviceAbility != null
      modifies serviceAbility
      ensures Did(HandleAbortedState(View()), keep)
    {
      if isCanceled {
        assert Tagged(serviceJobId, []) == [];
        return false;
      }
      Tell(PRINT_JOB_BLOCKED, PRINT_JOB_BLOCKED_UNKNOWN);
      return false;
    }

    method StatusCallback(stopped: bool) returns (keep: bool)
      requires serviceAbility != null
      modifies serviceAbility
      ensures Did(JobStatusCallback(View(), stopped), keep)
    {
      if jobState == IPP_JOB_PROCESSING {
        keep := ProcessingState();
      } else if jobState == IPP_JOB_HELD {
        keep := HeldState();
      } else if jobState == IPP_JOB_PENDING {
        keep := QueuedState();
      } else if jobState == IPP_JOB_STOPPED {
        keep := StoppedState(stopped);
      } else if jobState == IPP_JOB_COMPLETED {
        Tell(PRINT_JOB_COMPLETED, PRINT_JOB_COMPLETED_SUCCESS);
        keep := false;
      } else if jobState == IPP_JOB_ABORTED {
        keep := AbortedState();
      } else {
        Tell(PRINT_JOB_COMPLETED, PRINT_JOB_COMPLETED_CANCELLED);
        keep := false;
      }
    }

    method QueryJobStateAndCallback(poll: Poll) returns (keep: bool)
      requires serviceAbility != null && policyArray.Length == POLICY_ARRAY_SIZE && ValidPoll(poll)
      modifies this, serviceAbility
      ensures Did(Query(old(View()), poll), keep)
    {
      if !poll.online {
        if isIppOverUsb {
          Tell(PRINT_JOB_COMPLETED, PRINT_JOB_COMPLETED_FAILED);
          return false;
        }
        Tell(PRINT_JOB_BLOCKED, PRINT_JOB_BLOCKED_OFFLINE);
        return true;
      }
      assert Tagged(serviceJobId, []) == [];
      if isFirstQueryState {
        isFirstQueryState := false;
        return true;
      }
      if poll.response.None? {
        return true;
      }
      var needUpdate := UpdateJobState(poll.response.value);
      if !needUpdate {
        return true;
      }
      ParseStateReasons();
      ParseStateMessage(poll.clocks);
      keep := StatusCallback(poll.stopped);
    }

    /** With nobody else touching the flags meanwhile, this is Evaluate with the flags as they are. */
    method IfContinueToHandleJobState(cancelOk: bool, poll: Poll) returns (keep: bool)
      requires policyArray.Length == POLICY_ARRAY_SIZE && ValidPoll(poll)
      modifies this, if serviceAbility == null then {} else {serviceAbility}
      ensures serviceAbility == null ==> !keep && View() == old(View())
      ensures serviceAbility != null ==>
                Did(Evaluate(old(View()), old(isCanceled), old(isInterrupt), old(isCanceled), cancelOk, poll), keep)
    {
      if serviceAbility == null {
        return false;
      }
      if isCanceled {
        if !cancelOk {
          Tell(PRINT_JOB_COMPLETED, PRINT_JOB_COMPLETED_CANCELLED);
          return false;
        }
      }
      if isInterrupt {
        Tell(PRINT_JOB_BLOCKED, PRINT_JOB_BLOCKED_INTERRUPT);
        return false;
      }
      FlagsAsTheyAre(View(), cancelOk, poll);
      keep := QueryJobStateAndCallback(poll);
    }
  }

  /** Reports as the service receives them. */
  function Tagged(id: string, reports: seq<Report>): seq<(string, Report)> {
    seq(|reports|, i requires 0 <= i < |reports| => (id, reports[i]))
  }

  lemma FlagsAsTheyAre(m: Monitor, cancelOk: bool, poll: Poll)
    requires WellFormed(m) && ValidPoll(poll) && m.hasService && !m.isInterrupt && (m.isCanceled ==> cancelOk)
    ensures Evaluate(m, m.isCanceled, m.isInterrupt, m.isCanceled, cancelOk, poll) == Query(m, poll)
  {
  }

  lemma FoldFromStep(base: UInt32, codes: seq<Code>, code: Code)
    ensures FoldFrom(base, codes + [code]) == GetNewSubstate(FoldFrom(base, codes), code)
  {
  }

  lemma MatchedStep(m: Monitor, i: nat)
    requires WellFormed(m) && i < |FOLLOW_STATE_LIST|
    ensures SomeReasonBlocks(m, i + 1) <==> SomeReasonBlocks(m, i) || BlocksAt(m, i)
    ensures Fold(Matched(m.printerReasons, FOLLOW_STATE_LIST, i + 1)) ==
            var s := Fold(Matched(m.printerReasons, FOLLOW_STATE_LIST, i));
            if Contains(m.printerReasons, FOLLOW_STATE_LIST[i].word) then GetNewSubstate(s, FOLLOW_STATE_LIST[i].code)
            else s
  {
    var codes, e := Matched(m.printerReasons, FOLLOW_STATE_LIST, i), FOLLOW_STATE_LIST[i];
    if Contains(m.printerReasons, e.word) {
      assert (codes + [e.code])[..|codes|] == codes;
    } else {
      assert codes + [] == codes;
    }
  }
}
