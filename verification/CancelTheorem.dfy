/**
 * When does CancelCupsJob take effect? A job that can still be published when the second critical section
 * runs will, in some run, be monitored as if nothing had been asked. This module proves that this is the
 * only way a cancel is lost, and that there are two such losses: the sender is past its check of
 * isCanceled, or the request came while the job was still being added.
 */
module CancelTheorem {
  import opened Options
  import opened PrintConstants
  import opened JobMonitor
  import opened JobMonitorTheorems
  import opened JobPipeline
  import opened JobInvariant
  import opened WatchInvariant
  import opened PipelineInvariant
  import opened PipelineTheorems
  import opened ProgressTheorem
  import opened RequestClaims

  // ---------------------------------------------------------------------------------------
  // Every job that can be published will be in some run
  // ---------------------------------------------------------------------------------------

  /** Only the current job is ever flagged. */
  ghost predicate FlagsCurrent(j: JobSide) {
    forall h | h in j.q.jobs && j.q.jobs[h].isCanceled :: j.q.currentJob == Some(h)
  }

  lemma JobStepKeepsFlags(s: State, a: Action)
    requires Inv(s) && Enabled(s, a) && FlagsCurrent(s.j) && IsJobAction(a)
    ensures FlagsCurrent(Apply(s, a).j)
  {
  }

  lemma RequestKeepsFlags(j: JobSide, id: string)
    requires JobInv(j) && FlagsCurrent(j)
    ensures FlagsCurrent(if InQueue(j, id) then DoRemove(j, id) else DoFlag(j, id))
  {
  }

  lemma StepKeepsFlags(s: State, a: Action)
    requires Inv(s) && Enabled(s, a) && FlagsCurrent(s.j)
    ensures FlagsCurrent(Apply(s, a).j)
  {
    if IsJobAction(a) {
      JobStepKeepsFlags(s, a);
    } else if a.SearchQueue? {
      RequestKeepsFlags(s.j, a.id);
    }
  }

  lemma {:induction false} RunKeepsFlags(s: State, actions: seq<Action>)
    requires Inv(s) && FlagsCurrent(s.j) && ValidRun(s, actions)
    ensures FlagsCurrent(After(s, actions).j)
    decreases |actions|
  {
    if actions == [] {
    } else {
      StepKeepsFlags(s, actions[0]);
      StepKeepsInv(s, actions[0]);
      RunKeepsFlags(Apply(s, actions[0]), actions[1..]);
    }
  }

  lemma ReachableFlags(s: State)
    requires Reachable(s)
    ensures FlagsCurrent(s.j)
  {
    var actions :| ValidRun(INITIAL, actions) && After(INITIAL, actions) == s;
    InitialInv();
    RunKeepsFlags(INITIAL, actions);
  }

  /** A queued job gets nearer to being sent: the sender before it ends, or the head of the queue is taken. */
  lemma QueueMovesOn(s: State, h: Handle) returns (a: Action)
    requires Inv(s) && FlagsCurrent(s.j) && h in s.j.q.jobQueue
    ensures Enabled(s, a) && IsWorkerStep(a) && CanBePublished(Apply(s, a).j, h)
  {
    if s.j.q.currentJob.None? {
      var t :| IsAwaiting(s.j, t);
      a := GetNextJob(t);
      if s.j.q.jobQueue[0] == h {
        assert IsStartingUnflagged(Apply(s, a).j, t, h);
      }
    } else {
      var t :| IsSending(s.j, t);
      match s.j.workers[t]
      case Starting(_) => a := StartJob(t, false);
      case Sending(_) => a := FailSending(t);
      case Sent(_) => a := SentCallback(t);
    }
  }

  lemma TowardsWindow(s: State, h: Handle) returns (a: Action)
    requires Inv(s) && FlagsCurrent(s.j) && CanBePublished(s.j, h) && !InWindow(s.j, h)
    ensures Enabled(s, a) && IsWorkerStep(a) && CanBePublished(Apply(s, a).j, h)
  {
    if h in s.j.q.jobQueue {
      a := QueueMovesOn(s, h);
    } else if t :| IsAdding(s.j, t, h) {
      a := PushJob(t);
    } else {
      var t :| IsStartingUnflagged(s.j, t, h);
      a := StartJob(t, true);
      assert IsInWindow(Apply(s, a).j, t, h);
    }
  }

  /** From each of the four places there is a run into the sender's window, without any further request. */
  lemma {:induction false} ReachWindow(s: State, h: Handle) returns (actions: seq<Action>)
    requires Inv(s) && FlagsCurrent(s.j) && CanBePublished(s.j, h)
    ensures ValidRun(s, actions) && InWindow(After(s, actions).j, h)
    decreases Work(s.j)
  {
    if InWindow(s.j, h) {
      actions := [];
    } else {
      var a := TowardsWindow(s, h);
      StepKeepsInv(s, a);
      StepKeepsFlags(s, a);
      WorkerStepWorks(s, a);
      var rest := ReachWindow(Apply(s, a), h);
      actions := [a] + rest;
      assert actions[0] == a && actions[1..] == rest;
    }
  }

  lemma {:induction false} FreshHandle(used: set<nat>) returns (h: nat)
    ensures h !in used && forall u | u in used :: u < h
  {
    h := 0;
    var rest := used;
    while rest != {}
      invariant rest <= used
      invariant forall u | u in used - rest :: u < h
      decreases |rest|
    {
      var u :| u in rest;
      rest := rest - {u};
      h := if u < h then h else u + 1;
    }
    assert used - rest == used;
  }

  lemma PublishedUnflagged(s: State, t: ThreadId, m: Handle, mt: ThreadId, h: Handle, kind: RequestKind)
    requires Enabled(s, Publish(t, m, mt, true, false, "")) && IsInWindow(s.j, t, h)
    ensures !AllFlagged(Apply(s, Publish(t, m, mt, true, false, "")).w, h, kind)
  {
    var w' := Apply(s, Publish(t, m, mt, true, false, "")).w;
    assert StandsFor(w', m, h) && w'.w.jobMonitorList[|s.w.w.jobMonitorList|] == m;
    assert !IsFlagged(w'.w.monitors[m], kind);
  }

  lemma {:induction false} WindowPublishes(s: State, h: Handle, kind: RequestKind) returns (a: Action)
    requires InWindow(s.j, h)
    ensures Enabled(s, a) && !AllFlagged(Apply(s, a).w, h, kind)
  {
    var t :| IsInWindow(s.j, t, h);
    var m := FreshHandle(s.w.w.monitors.Keys);
    var mt := FreshHandle(s.w.watchers.Keys);
    a := Publish(t, m, mt, true, false, "");
    PublishedUnflagged(s, t, m, mt, h, kind);
  }

  lemma {:induction false} PublishableFails(s: State, h: Handle, kind: RequestKind)
    requires Inv(s) && FlagsCurrent(s.j) && CanBePublished(s.j, h)
    ensures !RequestHolds(s, h, kind)
  {
    var actions := ReachWindow(s, h);
    var a := WindowPublishes(After(s, actions), h, kind);
    RunAppend(s, actions, a);
    assert !AllFlagged(After(s, actions + [a]).w, h, kind);
  }

  // ---------------------------------------------------------------------------------------
  // The two critical sections of CancelCupsJob
  // ---------------------------------------------------------------------------------------

  lemma RemovalClaims(j: JobSide, h: Handle)
    requires JobInv(j) && h in j.q.jobQueue && h in j.added && DistinctIds(j)
    ensures InQueue(j, j.built[h]) && h in DoRemove(j, j.built[h]).removed
    ensures Claimed(DoRemove(j, j.built[h]), h)
  {
    var j' := DoRemove(j, j.built[h]);
    WithoutIndexElements(j.q.jobQueue, FirstWith(j.q.jobs, j.q.jobQueue, j.built[h]));
    assert forall t :: IsAdding(j', t, h) ==> IsAdding(j, t, h);
    assert forall t :: IsStarting(j', t, h) ==> IsSending(j, t);
  }

  lemma FlagClaims(j: JobSide, h: Handle)
    requires JobInv(j) && h !in j.q.jobQueue && h in j.added && DistinctIds(j)
    ensures !InQueue(j, j.built[h]) && Claimed(DoFlag(j, j.built[h]), h)
  {
    var j' := DoFlag(j, j.built[h]);
    assert forall t :: IsAdding(j', t, h) ==> IsAdding(j, t, h);
    assert forall t :: IsStarting(j', t, h) ==> IsSending(j, t);
  }

  /** The first section deletes the job if it is queued; either way it claims any job that had been added. */
  lemma FirstSection(j: JobSide, h: Handle)
    requires JobInv(j) && h in j.added && DistinctIds(j)
    ensures h in j.q.jobQueue ==>
              && InQueue(j, j.built[h]) && h in DoRemove(j, j.built[h]).removed
              && Claimed(DoRemove(j, j.built[h]), h)
    ensures h !in j.q.jobQueue ==> !InQueue(j, j.built[h]) && Claimed(DoFlag(j, j.built[h]), h)
  {
    if h in j.q.jobQueue {
      RemovalClaims(j, h);
    } else {
      FlagClaims(j, h);
    }
  }

  lemma SecondSectionFlags(s: State, t: ThreadId, h: Handle)
    requires Inv(s) && h in s.j.built && DistinctIds(s.j)
    requires t in s.requests && s.requests[t] == SearchingMonitors(Cancel, s.j.built[h])
    ensures AllFlagged(DoSearchMonitors(s, t).w, h, Cancel)
  {
    SearchFinds(s, h);
    var w' := DoSearchMonitors(s, t).w;
    forall m | m in w'.w.jobMonitorList && StandsFor(w', m, h)
      ensures w'.w.monitors[m].isCanceled
    {
      assert StandsFor(s.w, m, h);
    }
  }

  /** After the second section the cancel holds for good exactly when the job cannot be published any more. */
  lemma {:induction false} SecondSectionDecides(s: State, t: ThreadId, h: Handle)
    requires Inv(s) && FlagsCurrent(s.j) && DistinctIds(s.j) && h in s.j.built
    requires t in s.requests && s.requests[t] == SearchingMonitors(Cancel, s.j.built[h])
    ensures RequestHolds(DoSearchMonitors(s, t), h, Cancel) <==> !CanBePublished(s.j, h)
  {
    var s' := DoSearchMonitors(s, t);
    assert Apply(s, SearchMonitors(t)) == s' && s'.j == s.j;
    StepKeepsInv(s, SearchMonitors(t));
    SecondSectionFlags(s, t, h);
    if CanBePublished(s'.j, h) {
      PublishableFails(s', h, Cancel);
    } else {
      ClaimedRequestHolds(s', h, Cancel);
    }
  }

  lemma FirstSectionClaims(s: State, t: ThreadId, h: Handle, kind: RequestKind)
    requires Inv(s) && DistinctIds(s.j) && h in s.j.added
    requires h in s.j.built && Enabled(s, SearchQueue(t, kind, s.j.built[h]))
    ensures Claimed(Apply(s, SearchQueue(t, kind, s.j.built[h])).j, h)
  {
    FirstSection(s.j, h);
  }

  /** A job that had been added when the first section ran can from then on only be published from the window. */
  lemma {:induction false} ClaimLeavesWindow(
      s: State, t: ThreadId, h: Handle, kind: RequestKind, between: seq<Action>, s2: State)
    requires Inv(s) && DistinctIds(s.j) && h in s.j.added && h in s.j.built
    requires Enabled(s, SearchQueue(t, kind, s.j.built[h]))
    requires ValidRun(Apply(s, SearchQueue(t, kind, s.j.built[h])), between)
    requires s2 == After(Apply(s, SearchQueue(t, kind, s.j.built[h])), between)
    ensures CanBePublished(s2.j, h) <==> InWindow(s2.j, h)
  {
    var a := SearchQueue(t, kind, s.j.built[h]);
    FirstSectionClaims(s, t, h, kind);
    StepKeepsInv(s, a);
    RunStaysClaimed(Apply(s, a), between, h);
    CanBePublishedUnless(s2.j, h);
  }

  /** What both kinds of request meet when their second section runs. */
  lemma {:induction false} SecondSectionReached(
      s: State, t: ThreadId, h: Handle, kind: RequestKind, between: seq<Action>, s2: State)
    requires Reachable(s) && h in s.j.built && Enabled(s, SearchQueue(t, kind, s.j.built[h]))
    requires ValidRun(Apply(s, SearchQueue(t, kind, s.j.built[h])), between)
    requires s2 == After(Apply(s, SearchQueue(t, kind, s.j.built[h])), between)
    requires DistinctIds(s2.j)
    ensures Inv(s2) && FlagsCurrent(s2.j) && h in s2.j.built && s2.j.built[h] == s.j.built[h]
    ensures h in s.j.added ==> (CanBePublished(s2.j, h) <==> InWindow(s2.j, h))
  {
    var a := SearchQueue(t, kind, s.j.built[h]);
    ReachableInv(s);
    StepReachable(s, a);
    RunReachable(Apply(s, a), between);
    ReachableInv(s2);
    ReachableFlags(s2);
    IdsWereDistinct(s, [a] + between, s2);
    BuiltStep(s, a);
    BuiltGrows(Apply(s, a), between);
    if h in s.j.added {
      ClaimLeavesWindow(s, t, h, kind, between, s2);
    }
  }

  /**
   * Cancelling a job, whatever happens between the two critical sections. After the second, the request
   * holds for good if and only if the job cannot be published any more; if the job had been added when the
   * first one ran, that is if and only if its sender is not between its check of isCanceled and its push.
   */
  lemma {:induction false} CancelTakesEffectIff(
      s: State, t: ThreadId, h: Handle, between: seq<Action>, s2: State)
    requires Reachable(s) && h in s.j.built && Enabled(s, SearchQueue(t, Cancel, s.j.built[h]))
    requires ValidRun(Apply(s, SearchQueue(t, Cancel, s.j.built[h])), between)
    requires s2 == After(Apply(s, SearchQueue(t, Cancel, s.j.built[h])), between)
    requires t in s2.requests && s2.requests[t] == SearchingMonitors(Cancel, s.j.built[h]) && DistinctIds(s2.j)
    ensures RequestHolds(DoSearchMonitors(s2, t), h, Cancel) <==> !CanBePublished(s2.j, h)
    ensures h in s.j.added ==> (CanBePublished(s2.j, h) <==> InWindow(s2.j, h))
  {
    SecondSectionReached(s, t, h, Cancel, between, s2);
    SecondSectionDecides(s2, t, h);
  }

  lemma {:induction false} IdsWereDistinct(s: State, actions: seq<Action>, s': State)
    requires actions != [] && Enabled(s, actions[0]) && ValidRun(Apply(s, actions[0]), actions[1..])
    requires s' == After(Apply(s, actions[0]), actions[1..]) && DistinctIds(s'.j)
    ensures DistinctIds(s.j)
  {
    BuiltStep(s, actions[0]);
    BuiltGrows(Apply(s, actions[0]), actions[1..]);
  }

  lemma {:induction false} RunStaysClaimed(s: State, actions: seq<Action>, h: Handle)
    requires Inv(s) && ValidRun(s, actions) && Claimed(s.j, h)
    ensures Claimed(After(s, actions).j, h)
    decreases |actions|
  {
    if actions == [] {
    } else {
      StepStays(s, actions[0], h);
      StepKeepsInv(s, actions[0]);
      RunStaysClaimed(Apply(s, actions[0]), actions[1..], h);
    }
  }

  /** Ids are never reassigned. */
  lemma BuiltStep(s: State, a: Action)
    requires Enabled(s, a)
    ensures forall h | h in s.j.built :: h in Apply(s, a).j.built && Apply(s, a).j.built[h] == s.j.built[h]
  {
  }

  lemma {:induction false} BuiltGrows(s: State, actions: seq<Action>)
    requires ValidRun(s, actions)
    ensures forall h | h in s.j.built ::
              h in After(s, actions).j.built && After(s, actions).j.built[h] == s.j.built[h]
    decreases |actions|
  {
    if actions == [] {
    } else {
      BuiltStep(s, actions[0]);
      BuiltGrows(Apply(s, actions[0]), actions[1..]);
    }
  }

  // ---------------------------------------------------------------------------------------
  // Both losses are real
  // ---------------------------------------------------------------------------------------

  const ONE_JOB := map[0 := JobParameters("job", false)]

  lemma OneBuilt() returns (s: State)
    ensures Reachable(s) && s.requests == map[] && s.j.workers == map[0 := Adding(0)] && s.j.added == []
    ensures s.j.q == Queue(ONE_JOB, [], None, false) && s.j.built == map[0 := "job"]
    ensures s.w == INITIAL.w
  {
    InitialReachable();
    StepReachable(INITIAL, BuildJob(0, 0, "job"));
    s := Apply(INITIAL, BuildJob(0, 0, "job"));
  }

  lemma OneQueued() returns (s: State)
    ensures Reachable(s) && s.requests == map[] && s.j.workers == map[0 := AwaitingNext] && s.j.added == [0]
    ensures s.j.q == Queue(ONE_JOB, [0], None, false) && s.j.built == map[0 := "job"]
    ensures s.w == INITIAL.w
  {
    var s' := OneBuilt();
    StepReachable(s', PushJob(0));
    s := Apply(s', PushJob(0));
  }

  lemma OneTaken() returns (s: State)
    ensures Reachable(s) && s.requests == map[] && s.j.workers == map[0 := Starting(0)] && s.j.added == [0]
    ensures s.j.q == Queue(ONE_JOB, [], Some(0), false) && s.j.built == map[0 := "job"]
    ensures s.w == INITIAL.w
  {
    var s' := OneQueued();
    StepReachable(s', GetNextJob(0));
    s := Apply(s', GetNextJob(0));
  }

  lemma OneInWindow() returns (s: State)
    ensures Reachable(s) && s.requests == map[] && s.j.workers == map[0 := Sending(0)] && s.j.added == [0]
    ensures s.j.q == Queue(ONE_JOB, [], Some(0), false) && s.j.built == map[0 := "job"]
    ensures s.w == INITIAL.w
  {
    var s' := OneTaken();
    StepReachable(s', StartJob(0, true));
    s := Apply(s', StartJob(0, true));
  }

  lemma LateRequest(s: State, kind: RequestKind) returns (s2: State)
    requires s.requests == map[] && s.j.workers == map[0 := Sending(0)] && s.j.built == map[0 := "job"]
    requires s.j.q == Queue(ONE_JOB, [], Some(0), false)
    ensures Enabled(s, SearchQueue(0, kind, "job")) && s2 == Apply(s, SearchQueue(0, kind, "job"))
    ensures s2.requests == map[0 := SearchingMonitors(kind, "job")]
    ensures s2.j.workers == s.j.workers && s2.j.built == s.j.built && InWindow(s2.j, 0)
  {
    s2 := Apply(s, SearchQueue(0, kind, "job"));
    assert IsInWindow(s2.j, 0, 0);
  }

  lemma EarlyRequest(s: State, kind: RequestKind) returns (s2: State)
    requires s.requests == map[] && s.j.workers == map[0 := Adding(0)] && s.j.built == map[0 := "job"]
    requires s.j.q == Queue(ONE_JOB, [], None, false)
    ensures Enabled(s, SearchQueue(0, kind, "job")) && s2 == Apply(s, SearchQueue(0, kind, "job"))
    ensures s2.requests == map[0 := SearchingMonitors(kind, "job")]
    ensures s2.j.workers == s.j.workers && s2.j.built == s.j.built && IsAdding(s2.j, 0, 0)
  {
    s2 := Apply(s, SearchQueue(0, kind, "job"));
  }

  lemma NothingBetween(s: State)
    ensures ValidRun(s, []) && After(s, []) == s
  {
  }

  /** One job, its sender past the check, and a cancel that is lost. */
  lemma WindowIsReachable() returns (s: State, s2: State)
    ensures Reachable(s) && s.j.added == [0] && s.j.q.jobQueue == [] && s.j.built == map[0 := "job"]
    ensures Enabled(s, SearchQueue(0, Cancel, "job")) && s2 == Apply(s, SearchQueue(0, Cancel, "job"))
    ensures s2.requests == map[0 := SearchingMonitors(Cancel, "job")]
    ensures InWindow(s2.j, 0) && !RequestHolds(DoSearchMonitors(s2, 0), 0, Cancel)
  {
    s := OneInWindow();
    s2 := LateRequest(s, Cancel);
    NothingBetween(s2);
    CancelTakesEffectIff(s, 0, 0, [], s2);
  }

  /** One job, built but not yet queued, and a cancel that finds it nowhere. */
  lemma EarlyCancelIsLost() returns (s: State, s2: State)
    ensures Reachable(s) && s.j.workers == map[0 := Adding(0)] && s.j.built == map[0 := "job"]
    ensures Enabled(s, SearchQueue(0, Cancel, "job")) && s2 == Apply(s, SearchQueue(0, Cancel, "job"))
    ensures s2.requests == map[0 := SearchingMonitors(Cancel, "job")]
    ensures !InWindow(s2.j, 0) && !RequestHolds(DoSearchMonitors(s2, 0), 0, Cancel)
  {
    s := OneBuilt();
    s2 := EarlyRequest(s, Cancel);
    NothingBetween(s2);
    CancelTakesEffectIff(s, 0, 0, [], s2);
  }

  // ---------------------------------------------------------------------------------------
  // What is still reported about a cancelled job
  // ---------------------------------------------------------------------------------------

  predicate NeverRunning(reports: seq<Report>) {
    forall r | r in reports :: r.state != PRINT_JOB_RUNNING
  }

  lemma CanceledCallback(m: Monitor, stopped: bool)
    requires m.isCanceled
    ensures NeverRunning(JobStatusCallback(m, stopped).reports)
  {
  }

  lemma CanceledQuery(m: Monitor, poll: Poll)
    requires WellFormed(m) && ValidPoll(poll) && m.isCanceled
    ensures NeverRunning(Query(m, poll).reports)
  {
    if IsHandled(m, poll) {
      var u := Updated(m, poll.response.value);
      QueryCases(m, poll, u);
      CanceledCallback(MessageParsed(ReasonsParsed(u), poll.clocks), poll.stopped);
    }
  }

  lemma CanceledOutcome(s: State, a: Action)
    requires Enabled(s, a) && IsEvaluation(a) && s.w.w.monitors[Head(s.w, a.t)].isCanceled
    ensures NeverRunning(OutcomeOf(s, a).0.reports)
  {
    if a.QueryState? {
      CanceledQuery(s.w.w.monitors[Head(s.w, a.t)], a.poll);
    }
  }

  /** The object is flagged, and since a certain point nothing has been reported that says it runs. */
  ghost predicate QuietSince(w: WatchSide, m: Handle, log: seq<Report>) {
    && m in w.w.monitors && w.w.monitors[m].isCanceled && m in w.log
    && log <= w.log[m] && NeverRunning(w.log[m][|log|..])
  }

  lemma AdvanceStaysQuiet(w: WatchSide, t: ThreadId, o: Outcome, next: Watcher, m: Handle, log: seq<Report>)
    requires AtHead(w, t) && QuietSince(w, m, log) && OutcomeOk(w.w.monitors[Head(w, t)], o)
    requires Head(w, t) == m ==> NeverRunning(o.reports)
    ensures QuietSince(Advanced(w, t, o, next), m, log)
  {
    var w' := Advanced(w, t, o, next);
    if Head(w, t) == m {
      assert w'.log[m][|log|..] == w.log[m][|log|..] + o.reports;
    }
  }

  lemma EvaluationStaysQuiet(s: State, a: Action, m: Handle, log: seq<Report>)
    requires Enabled(s, a) && IsEvaluation(a) && QuietSince(s.w, m, log)
    ensures QuietSince(Apply(s, a).w, m, log)
  {
    EvaluationOutcomeOk(s, a);
    var (o, next) := OutcomeOf(s, a);
    if Head(s.w, a.t) == m {
      CanceledOutcome(s, a);
    }
    AdvanceStaysQuiet(s.w, a.t, o, next, m, log);
  }

  lemma FlagIsKept(s: State, a: Action, m: Handle)
    requires Enabled(s, a) && !IsEvaluation(a) && m in s.w.w.monitors && s.w.w.monitors[m].isCanceled
    ensures m in Apply(s, a).w.w.monitors && Apply(s, a).w.w.monitors[m].isCanceled
  {
  }

  lemma StepStaysQuiet(s: State, a: Action, m: Handle, log: seq<Report>)
    requires Enabled(s, a) && QuietSince(s.w, m, log)
    ensures QuietSince(Apply(s, a).w, m, log)
  {
    if IsEvaluation(a) {
      EvaluationStaysQuiet(s, a, m, log);
    } else {
      FlagIsKept(s, a, m);
      OthersDoNotLog(s, a, m);
    }
  }

  lemma {:induction false} RunStaysQuiet(s: State, actions: seq<Action>, m: Handle, log: seq<Report>)
    requires ValidRun(s, actions) && QuietSince(s.w, m, log)
    ensures QuietSince(After(s, actions).w, m, log)
    decreases |actions|
  {
    if actions == [] {
    } else {
      StepStaysQuiet(s, actions[0], m, log);
      RunStaysQuiet(Apply(s, actions[0]), actions[1..], m, log);
    }
  }

  /** Once a monitored job is flagged as cancelled, no run makes the monitor loop report it as running. */
  lemma {:induction false} CancelledNeverRuns(s: State, actions: seq<Action>, m: Handle)
    requires Inv(s) && ValidRun(s, actions) && m in s.w.w.monitors && s.w.w.monitors[m].isCanceled
    ensures m in s.w.log && m in After(s, actions).w.log && s.w.log[m] <= After(s, actions).w.log[m]
    ensures NeverRunning(After(s, actions).w.log[m][|s.w.log[m]|..])
  {
    RunStaysQuiet(s, actions, m, s.w.log[m]);
  }
}
