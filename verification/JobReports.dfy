/**
 * What the service is told about a monitored job, over any run of evaluations: said from what the run was
 * given (flag readings, answers of CUPS) and in the numbers that go out, without the functions in between.
 */
module JobReports {
  import opened JobMonitor
  import opened JobMonitorTheorems
  import opened ConversionTimer

  // ---------------------------------------------------------------------------------------
  // What a run has heard
  // ---------------------------------------------------------------------------------------

  /** The evaluation gets as far as asking CUPS about a printer that is there. */
  predicate Asks(v: Visit) {
    (v.canceledFirst ==> v.cancelOk) && !v.interrupted && v.poll.online
  }

  predicate HasAsked(vs: seq<Visit>) {
    exists j | 0 <= j < |vs| :: Asks(vs[j])
  }

  /** The responses a run has looked at: the first time it would ask, it does not. */
  function Answers(vs: seq<Visit>): seq<Response> {
    if vs == [] then []
    else
      var front, v := vs[..|vs| - 1], vs[|vs| - 1];
      Answers(front) +
      if Asks(v) && HasAsked(front) && v.poll.response.Some? then [v.poll.response.value] else []
  }

  /** The fields that responses decide. */
  predicate SameAnswers(a: Monitor, b: Monitor) {
    Stored(a) == Stored(b) && a.jobStateReasons == b.jobStateReasons && a.timesOfSameState == b.timesOfSameState
  }

  lemma UpdatedAlike(a: Monitor, b: Monitor, r: Response)
    requires SameAnswers(a, b)
    ensures SameAnswers(Updated(a, r), Updated(b, r))
  {
    if Stored(a) != Received(r) {
      assert Stored(Updated(a, r)) == Received(r) && Stored(Updated(b, r)) == Received(r);
    }
  }

  lemma PassesAlike(a: Monitor, b: Monitor, r: Response)
    requires SameAnswers(a, b)
    ensures Passes(a, r) <==> Passes(b, r)
  {
    var n := a.timesOfSameState + 1;
    assert b.timesOfSameState + 1 == n;
  }

  lemma CheckedAlike(m: Monitor, v: Visit)
    requires WellFormed(m) && ValidPoll(v.poll) && m.hasService && (v.canceledFirst ==> v.cancelOk) && !v.interrupted
    ensures VisitedOnce(m, v) == Query(m.(isCanceled := v.canceledLater), v.poll).m
  {
  }

  lemma Unasked(m: Monitor, v: Visit)
    requires WellFormed(m) && ValidPoll(v.poll) && m.hasService && !Asks(v)
    ensures SameAnswers(VisitedOnce(m, v), m) && VisitedOnce(m, v).isFirstQueryState == m.isFirstQueryState
  {
  }

  lemma AskedInVain(m: Monitor, v: Visit)
    requires WellFormed(m) && ValidPoll(v.poll) && m.hasService && Asks(v)
    requires m.isFirstQueryState || v.poll.response.None?
    ensures SameAnswers(VisitedOnce(m, v), m) && !VisitedOnce(m, v).isFirstQueryState
  {
    CheckedAlike(m, v);
  }

  lemma QueryAnswered(m: Monitor, poll: Poll)
    requires WellFormed(m) && ValidPoll(poll) && poll.online && !m.isFirstQueryState && poll.response.Some?
    ensures SameAnswers(Query(m, poll).m, Updated(m, poll.response.value)) && !Query(m, poll).m.isFirstQueryState
  {
    QueryCases(m, poll, Updated(m, poll.response.value));
    if Passes(m, poll.response.value) {
      QueryTimer(m, poll);
    }
  }

  lemma AskedAndAnswered(m: Monitor, v: Visit)
    requires WellFormed(m) && ValidPoll(v.poll) && m.hasService && Asks(v)
    requires !m.isFirstQueryState && v.poll.response.Some?
    ensures SameAnswers(VisitedOnce(m, v), Updated(m, v.poll.response.value))
    ensures !VisitedOnce(m, v).isFirstQueryState
  {
    CheckedAlike(m, v);
    var m' := m.(isCanceled := v.canceledLater);
    QueryAnswered(m', v.poll);
    UpdatedAlike(m', m, v.poll.response.value);
  }

  /** One more evaluation, next to the job that has only been fed the answers. */
  lemma StepSays(m: Monitor, fed: Monitor, v: Visit, asked: bool)
    requires WellFormed(m) && ValidPoll(v.poll) && m.hasService && SameAnswers(m, fed)
    requires m.isFirstQueryState <==> !asked
    ensures SameAnswers(VisitedOnce(m, v),
                        if Asks(v) && asked && v.poll.response.Some? then Updated(fed, v.poll.response.value) else fed)
    ensures VisitedOnce(m, v).isFirstQueryState <==> !(asked || Asks(v))
  {
    if !Asks(v) {
      Unasked(m, v);
    } else if m.isFirstQueryState || v.poll.response.None? {
      AskedInVain(m, v);
    } else {
      AskedAndAnswered(m, v);
      UpdatedAlike(m, fed, v.poll.response.value);
    }
  }

  lemma SameMonitoredJob(m: Monitor, v: Visit)
    requires WellFormed(m) && ValidPoll(v.poll)
    ensures
      var r := VisitedOnce(m, v);
      r.hasService == m.hasService && r.isIppOverUsb == m.isIppOverUsb && r.policyArray == m.policyArray
  {
    QueryIsDisciplined(m.(isCanceled := v.canceledLater), v.poll);
  }

  /** What a run has made of a job, as far as responses go: what its answers make of it. */
  ghost predicate RunSays(m: Monitor, vs: seq<Visit>)
    requires WellFormed(m) && ValidVisits(vs)
  {
    var r := Visited(m, vs);
    && SameAnswers(r, Fed(m, Answers(vs))) && (r.isFirstQueryState <==> !HasAsked(vs))
    && r.hasService && r.isIppOverUsb == m.isIppOverUsb && r.policyArray == m.policyArray
  }

  lemma AnswersStep(m: Monitor, front: seq<Visit>, v: Visit)
    ensures Answers(front + [v]) ==
            if Asks(v) && HasAsked(front) && v.poll.response.Some?
            then Answers(front) + [v.poll.response.value] else Answers(front)
    ensures HasAsked(front + [v]) <==> HasAsked(front) || Asks(v)
  {
    assert (front + [v])[..|front|] == front;
    if HasAsked(front) {
      var j :| 0 <= j < |front| && Asks(front[j]);
      assert Asks((front + [v])[j]);
    }
    if Asks(v) {
      assert Asks((front + [v])[|front|]);
    }
  }

  lemma FedAppend(m: Monitor, rs: seq<Response>, r: Response)
    ensures Fed(m, rs + [r]) == Updated(Fed(m, rs), r)
  {
    assert (rs + [r])[..|rs|] == rs;
  }

  lemma FedAnswersStep(m: Monitor, front: seq<Visit>, v: Visit)
    ensures Fed(m, Answers(front + [v])) ==
            if Asks(v) && HasAsked(front) && v.poll.response.Some?
            then Updated(Fed(m, Answers(front)), v.poll.response.value) else Fed(m, Answers(front))
  {
    AnswersStep(m, front, v);
    if Asks(v) && HasAsked(front) && v.poll.response.Some? {
      FedAppend(m, Answers(front), v.poll.response.value);
    }
  }

  lemma {:induction false} RunSaysStep(m: Monitor, front: seq<Visit>, v: Visit)
    requires WellFormed(m) && ValidVisits(front) && ValidPoll(v.poll) && RunSays(m, front)
    ensures ValidVisits(front + [v]) && RunSays(m, front + [v])
  {
    var before := Visited(m, front);
    VisitedStep(m, front, v);
    AnswersStep(m, front, v);
    SameMonitoredJob(before, v);
    StepSays(before, Fed(m, Answers(front)), v, HasAsked(front));
    FedAnswersStep(m, front, v);
  }

  lemma NothingHeard(m: Monitor)
    requires WellFormed(m) && m.hasService && m.isFirstQueryState
    ensures RunSays(m, [])
  {
  }

  lemma {:induction false} RunIsWhatItHeard(m: Monitor, vs: seq<Visit>)
    requires WellFormed(m) && ValidVisits(vs) && m.hasService && m.isFirstQueryState
    ensures RunSays(m, vs)
  {
    if vs == [] {
      NothingHeard(m);
    } else {
      var front, v := vs[..|vs| - 1], vs[|vs| - 1];
      assert vs == front + [v];
      RunIsWhatItHeard(m, front);
      RunSaysStep(m, front, v);
    }
  }

  // ---------------------------------------------------------------------------------------
  // What is told
  // ---------------------------------------------------------------------------------------

  /** A job that waits: pending (3), or held (4). */
  predicate TellsWaiting(jobState: int, jobReasons: string, printerReasons: string, r: Report) {
    var smb := jobState == 4 && printerReasons == "smb-printer-connected-failed";
    var authentication := jobState == 4 && jobReasons == "cups-held-for-authentication";
    var unavailable := jobReasons == "printer-stopped";
    var onHold := jobReasons == "job-hold-until-specified" && printerReasons == "stopped";
    && (smb ==> r == Report(3, 38))
    && (!smb && authentication ==> r == Report(3, 36))
    && (!smb && unavailable ==> r == Report(3, 98))
    && (onHold ==> r == Report(3, 99))
    && (r == Report(1, 0) <==> !smb && !authentication && !unavailable && !onHold)
  }

  /** What is told about a response that is handed on, by its job state as CUPS numbers it. */
  predicate TellsState(
      t: Triple, jobReasons: string, canceled: bool, stopped: bool, keep: bool, reports: seq<Report>)
  {
    && (t.jobState == 3 || t.jobState == 4 ==>
          keep && |reports| == 1 && TellsWaiting(t.jobState, jobReasons, t.printerReasons, reports[0]))
    && (t.jobState == 5 && canceled ==> keep && reports == [])
    && (t.jobState == 5 && !canceled ==>
          && keep && |reports| == 1
          && (reports[0].state ==
              if HasBlockingWord(t.printerReasons) || HasErrorWord(t.printerReasons) || HasMessageError(t.message)
              then 3 else 2))
    && (t.jobState == 6 && stopped ==> keep && reports == [])
    && (t.jobState == 6 && !stopped ==> !keep && |reports| == 1 && reports[0].state == 4)
    && (t.jobState == 8 ==> !keep && reports == if canceled then [] else [Report(3, 99)])
    && (t.jobState == 9 ==> !keep && reports == [Report(4, 0)])
    && (t.jobState < 3 || t.jobState == 7 || t.jobState > 9 ==> !keep && reports == [Report(4, 2)])
  }

  /** What is told in an evaluation that comes after a run, and whether the job stays monitored. */
  predicate Tells(m: Monitor, vs: seq<Visit>, v: Visit, keep: bool, reports: seq<Report>) {
    if v.canceledFirst && !v.cancelOk then !keep && reports == [Report(4, 2)]
    else if v.interrupted then !keep && reports == [Report(3, 35)]
    else if !v.poll.online then
      if m.isIppOverUsb then !keep && reports == [Report(4, 1)] else keep && reports == [Report(3, 4)]
    else if !HasAsked(vs) || v.poll.response.None? then keep && reports == []
    else
      var r := v.poll.response.value;
      var rs := Answers(vs) + [r];
      if PassedOn(m, rs, |rs| - 1)
      then TellsState(Received(r), Fed(m, rs).jobStateReasons, v.canceledLater, v.poll.stopped, keep, reports)
      else keep && reports == []
  }

  lemma WaitingTells(p: Monitor, stopped: bool)
    requires p.jobState == IPP_JOB_PENDING || p.jobState == IPP_JOB_HELD
    ensures
      var o := JobStatusCallback(p, stopped);
      o.verdict == Keep && |o.reports| == 1 &&
      TellsWaiting(p.jobState, p.jobStateReasons, p.printerReasons, o.reports[0])
  {
  }

  lemma {:induction false} CallbackTells(p: Monitor, stopped: bool)
    requires p.isBlock <==>
             HasBlockingWord(p.printerReasons) || HasErrorWord(p.printerReasons) || HasMessageError(p.message)
    ensures
      var o := JobStatusCallback(p, stopped);
      TellsState(Stored(p), p.jobStateReasons, p.isCanceled, stopped, o.verdict == Keep, o.reports)
  {
    if p.jobState == IPP_JOB_PENDING || p.jobState == IPP_JOB_HELD {
      WaitingTells(p, stopped);
    }
  }

  lemma {:induction false} QueryTells(m: Monitor, make: string, poll: Poll)
    requires m.policyArray == PolicyArray(make) && ValidPoll(poll) && IsHandled(m, poll)
    ensures WellFormed(m)
    ensures
      var o, u := Query(m, poll), Updated(m, poll.response.value);
      TellsState(Received(poll.response.value), u.jobStateReasons, m.isCanceled, poll.stopped,
                 o.verdict == Keep, o.reports)
  {
    var u := Updated(m, poll.response.value);
    QueryCases(m, poll, u);
    PolledBlockIff(u, make, poll.clocks);
    CallbackTells(MessageParsed(ReasonsParsed(u), poll.clocks), poll.stopped);
    assert Stored(u) == Received(poll.response.value);
  }

  /** What Evaluate makes of a visit, when it gets as far as the poll. */
  lemma EvaluateIsQuery(m: Monitor, v: Visit)
    requires WellFormed(m) && ValidPoll(v.poll) && m.hasService && (v.canceledFirst ==> v.cancelOk) && !v.interrupted
    ensures Evaluate(m, v.canceledFirst, v.interrupted, v.canceledLater, v.cancelOk, v.poll) ==
            Query(m.(isCanceled := v.canceledLater), v.poll)
  {
  }

  lemma UnaskedTells(m: Monitor, v: Visit)
    requires WellFormed(m) && ValidPoll(v.poll) && m.hasService && !Asks(v)
    ensures
      var o := Evaluate(m, v.canceledFirst, v.interrupted, v.canceledLater, v.cancelOk, v.poll);
      Tells(m, [], v, o.verdict == Keep, o.reports)
  {
  }

  lemma {:induction false} AskedTells(m: Monitor, make: string, vs: seq<Visit>, v: Visit, now: Monitor)
    requires m.policyArray == PolicyArray(make) && ValidVisits(vs) && ValidPoll(v.poll) && Asks(v)
    requires WellFormed(m) && RunSays(m, vs) && now == Visited(m, vs)
    ensures WellFormed(now)
    ensures
      var o := Evaluate(now, v.canceledFirst, v.interrupted, v.canceledLater, v.cancelOk, v.poll);
      Tells(m, vs, v, o.verdict == Keep, o.reports)
  {
    EvaluateIsQuery(now, v);
    if HasAsked(vs) && v.poll.response.Some? {
      var m', r := now.(isCanceled := v.canceledLater), v.poll.response.value;
      var rs := Answers(vs) + [r];
      assert rs[..|rs| - 1] == Answers(vs);
      UpdatedAlike(m', Fed(m, Answers(vs)), r);
      PassesAlike(m', Fed(m, Answers(vs)), r);
      FedAppend(m, Answers(vs), r);
      if PassedOn(m, rs, |rs| - 1) {
        QueryTells(m', make, v.poll);
      }
    }
  }

  /**
   * Over any run of evaluations of a new job, the next evaluation tells the service exactly what the flags
   * it reads, the answers so far and its own answer call for, in one report at most.
   */
  lemma {:induction false} RunTells(id: string, usb: bool, make: string, vs: seq<Visit>, v: Visit)
    requires ValidVisits(vs) && ValidPoll(v.poll)
    ensures WellFormed(NewMonitor(true, id, usb, make))
    ensures
      var m := NewMonitor(true, id, usb, make);
      var o := Evaluate(Visited(m, vs), v.canceledFirst, v.interrupted, v.canceledLater, v.cancelOk, v.poll);
      Tells(m, vs, v, o.verdict == Keep, o.reports)
  {
    var m := NewMonitor(true, id, usb, make);
    RunIsWhatItHeard(m, vs);
    var now := Visited(m, vs);
    if Asks(v) {
      AskedTells(m, make, vs, v, now);
    } else {
      UnaskedTells(now, v);
    }
  }

  /** A job without a service is dropped without a word. */
  lemma UnservedIsDropped(m: Monitor, v: Visit)
    requires WellFormed(m) && ValidPoll(v.poll) && !m.hasService
    ensures
      var o := Evaluate(m, v.canceledFirst, v.interrupted, v.canceledLater, v.cancelOk, v.poll);
      o.verdict == Drop && o.reports == []
  {
  }
}
