/**
 * The monitored list and its on-demand loop: no lost wake-up, passes over an unlocked snapshot,
 * and the discipline of reports; what every action of the monitor side keeps.
 */
module WatchInvariant {
  import opened PrintConstants
  import opened JobMonitor
  import opened JobMonitorTheorems
  import opened JobPipeline
  import opened JobInvariant

  // ---------------------------------------------------------------------------------------
  // Statements
  // ---------------------------------------------------------------------------------------

  /** isMonitoringRunning_ says exactly whether the one loop is alive, and it is while there is work. */
  ghost predicate LoopInv(w: WatchSide) {
    && (forall t, u | t in w.watchers && u in w.watchers :: t == u)
    && (w.w.isMonitoringRunning <==> exists t :: t in w.watchers)
    && (w.w.jobMonitorList != [] ==> w.w.isMonitoringRunning)
  }

  /** Every monitor object of the rest of a pass is still in the list: only the loop erases. */
  ghost predicate PassInv(w: WatchSide, t: ThreadId)
    requires t in w.watchers
  {
    !w.watchers[t].Idle? ==>
      && NoDuplicates(w.watchers[t].pass)
      && (forall m | m in w.watchers[t].pass :: m in w.w.jobMonitorList)
      && (IsEvaluating(w.watchers[t]) ==> w.watchers[t].pass != [])
  }

  ghost predicate ListInv(w: WatchSide) {
    && NoDuplicates(w.w.jobMonitorList)
    && (forall m | m in w.w.jobMonitorList :: m in w.w.monitors)
    && (forall m | m in w.w.monitors :: WellFormed(w.w.monitors[m]))
    && (forall m | m in w.w.monitors :: m in w.w.jobMonitorList || m in w.erased)
    && NoDuplicates(w.erased)
    && (forall m | m in w.erased :: m in w.w.monitors && m !in w.w.jobMonitorList)
    && !w.lost
    && (forall t | t in w.watchers :: PassInv(w, t))
  }

  predicate IsErasing(w: WatchSide, t: ThreadId, m: Handle) {
    t in w.watchers && w.watchers[t].Erasing? && w.watchers[t].pass != [] && w.watchers[t].pass[0] == m
  }

  /** The evaluation of a monitor object has said to stop. */
  ghost predicate Closed(w: WatchSide, m: Handle) {
    m in w.erased || exists t :: IsErasing(w, t, m)
  }

  predicate NeverCompleted(reports: seq<Report>) {
    forall r | r in reports :: r.state != PRINT_JOB_COMPLETED
  }

  /** Nothing follows a COMPLETED report, and a job that had a service ended on a final report (or silently). */
  predicate EndedWell(m: Monitor, reports: seq<Report>) {
    && (reports != [] ==> NeverCompleted(reports[..|reports| - 1]))
    && (m.hasService ==>
          (reports != [] && IsFinal(reports[|reports| - 1])) || (m.jobState == IPP_JOB_ABORTED && m.isCanceled))
  }

  ghost predicate LogInv(w: WatchSide) {
    && (forall m | m in w.w.monitors :: m in w.log)
    && (forall m | m in w.w.monitors ::
          if Closed(w, m) then EndedWell(w.w.monitors[m], w.log[m]) else NeverCompleted(w.log[m]))
  }

  ghost predicate WatchInv(w: WatchSide) {
    LoopInv(w) && ListInv(w) && LogInv(w)
  }

  // ---------------------------------------------------------------------------------------
  // Evaluation steps
  // ---------------------------------------------------------------------------------------

  /** What the monitor loop relies on about the outcome of an evaluation step. */
  predicate OutcomeOk(m: Monitor, o: Outcome) {
    && SameJob(m, o.m)
    && |o.reports| <= 1
    && (o.verdict != Drop ==> NeverCompleted(o.reports))
    && (o.verdict == Drop && m.hasService ==> EndsSilently(o) || (|o.reports| == 1 && IsFinal(o.reports[0])))
  }

  lemma StepsAreOk(m: Monitor, cancelOk: bool)
    ensures OutcomeOk(m, CheckCanceled(m, cancelOk)) && OutcomeOk(m, CheckInterrupt(m))
  {
  }

  lemma DisciplinedIsOk(m: Monitor, o: Outcome)
    requires Disciplined(o) && SameJob(m, o.m)
    ensures OutcomeOk(m, o)
  {
  }

  lemma QueryIsOk(m: Monitor, poll: Poll)
    requires WellFormed(m) && ValidPoll(poll)
    ensures OutcomeOk(m, Query(m, poll))
  {
    QueryIsDisciplined(m, poll);
    DisciplinedIsOk(m, Query(m, poll));
  }

  /** A step that leaves the head of the pass to be evaluated further. */
  predicate GoesOn(w: WatchSide, t: ThreadId, next: Watcher)
    requires t in w.watchers
  {
    (next.NotCanceled? || next.Querying? || next.Passing?) &&
    !w.watchers[t].Idle? && !w.watchers[t].Erasing? && next.pass == w.watchers[t].pass
  }

  lemma AdvancedKeepsList(w: WatchSide, t: ThreadId, o: Outcome, next: Watcher)
    requires WatchInv(w) && AtHead(w, t) && GoesOn(w, t, next) && OutcomeOk(w.w.monitors[Head(w, t)], o)
    ensures var w' := Advanced(w, t, o, next); LoopInv(w') && ListInv(w')
  {
    var w' := Advanced(w, t, o, next);
    assert t in w'.watchers && PassInv(w, t);
    assert forall m | m in w.watchers[t].pass[1..] :: m in w.watchers[t].pass;
    assert PassInv(w', t);
  }

  lemma LogAppend(m: Monitor, o: Outcome, log: seq<Report>)
    requires OutcomeOk(m, o) && NeverCompleted(log)
    ensures if o.verdict == Drop then EndedWell(o.m, log + o.reports) else NeverCompleted(log + o.reports)
  {
  }

  lemma AdvancedKeepsLog(w: WatchSide, t: ThreadId, o: Outcome, next: Watcher)
    requires WatchInv(w) && AtHead(w, t) && GoesOn(w, t, next) && OutcomeOk(w.w.monitors[Head(w, t)], o)
    ensures LogInv(Advanced(w, t, o, next))
  {
    var w', h := Advanced(w, t, o, next), Head(w, t);
    assert PassInv(w, t);
    LogAppend(w.w.monitors[h], o, w.log[h]) by { assert !Closed(w, h) by { NobodyErases(w, t); } }
    forall m | m in w'.w.monitors
      ensures if Closed(w', m) then EndedWell(w'.w.monitors[m], w'.log[m]) else NeverCompleted(w'.log[m])
    {
      NobodyErases(w, t);
      OnlyHeadErased(w, w', t, o, next, m);
    }
  }

  lemma NobodyErases(w: WatchSide, t: ThreadId)
    requires LoopInv(w) && t in w.watchers && !w.watchers[t].Erasing?
    ensures forall m :: Closed(w, m) <==> m in w.erased
  {
  }

  lemma OnlyHeadErased(w: WatchSide, w': WatchSide, t: ThreadId, o: Outcome, next: Watcher, m: Handle)
    requires LoopInv(w) && AtHead(w, t) && GoesOn(w, t, next) && w' == Advanced(w, t, o, next)
    ensures Closed(w', m) <==> m in w.erased || (o.verdict == Drop && m == Head(w, t))
  {
    if o.verdict == Drop && m == Head(w, t) {
      assert IsErasing(w', t, m);
    }
  }

  lemma AdvancedKeeps(w: WatchSide, t: ThreadId, o: Outcome, next: Watcher)
    requires WatchInv(w) && AtHead(w, t) && GoesOn(w, t, next) && OutcomeOk(w.w.monitors[Head(w, t)], o)
    ensures WatchInv(Advanced(w, t, o, next))
  {
    AdvancedKeepsList(w, t, o, next);
    AdvancedKeepsLog(w, t, o, next);
  }

  // ---------------------------------------------------------------------------------------
  // The other actions
  // ---------------------------------------------------------------------------------------

  lemma PublishKeepsList(w: WatchSide, m: Handle, monitor: Monitor, h: Handle, mt: ThreadId)
    requires WatchInv(w) && m !in w.w.monitors && mt !in w.watchers && WellFormed(monitor)
    ensures var w' := DoPublish(w, m, monitor, h, mt); LoopInv(w') && ListInv(w')
  {
    var w' := DoPublish(w, m, monitor, h, mt);
    assert w.w.isMonitoringRunning || mt in w'.watchers;
    assert forall t | t in w.watchers :: t in w'.watchers && PassInv(w, t);
    AppendNoDuplicates(w.w.jobMonitorList, m);
  }

  lemma PublishKeepsLog(w: WatchSide, m: Handle, monitor: Monitor, h: Handle, mt: ThreadId)
    requires WatchInv(w) && m !in w.w.monitors && mt !in w.watchers && WellFormed(monitor)
    ensures LogInv(DoPublish(w, m, monitor, h, mt))
  {
    var w' := DoPublish(w, m, monitor, h, mt);
    forall n, t
      ensures IsErasing(w', t, n) <==> IsErasing(w, t, n)
    {
    }
    forall t
      ensures !IsErasing(w, t, m)
    {
      if t in w.watchers {
        assert PassInv(w, t);
      }
    }
  }

  lemma PublishKeeps(w: WatchSide, m: Handle, monitor: Monitor, h: Handle, mt: ThreadId)
    requires WatchInv(w) && m !in w.w.monitors && mt !in w.watchers && WellFormed(monitor)
    ensures WatchInv(DoPublish(w, m, monitor, h, mt))
  {
    PublishKeepsList(w, m, monitor, h, mt);
    PublishKeepsLog(w, m, monitor, h, mt);
  }

  /** A monitor object as a request leaves it: cancelling is never taken back. */
  predicate OnlyFlagged(m: Monitor, m': Monitor) {
    m' == m.(isCanceled := m'.isCanceled, isInterrupt := m'.isInterrupt) && (m.isCanceled ==> m'.isCanceled)
  }

  function WithMonitor(w: WatchSide, m: Handle, monitor: Monitor): WatchSide {
    w.(w := w.w.(monitors := w.w.monitors[m := monitor]))
  }

  lemma FlaggingKeepsList(w: WatchSide, m: Handle, monitor: Monitor)
    requires WatchInv(w) && m in w.w.monitors && OnlyFlagged(w.w.monitors[m], monitor)
    ensures var w' := WithMonitor(w, m, monitor); LoopInv(w') && ListInv(w')
  {
    var w' := WithMonitor(w, m, monitor);
    assert w'.w.monitors.Keys == w.w.monitors.Keys;
    assert forall t | t in w.watchers :: PassInv(w, t) && PassInv(w', t);
  }

  lemma FlaggingKeepsLog(w: WatchSide, m: Handle, monitor: Monitor)
    requires WatchInv(w) && m in w.w.monitors && OnlyFlagged(w.w.monitors[m], monitor)
    ensures LogInv(WithMonitor(w, m, monitor))
  {
    var w' := WithMonitor(w, m, monitor);
    assert forall n, t :: IsErasing(w', t, n) <==> IsErasing(w, t, n);
    assert forall n :: Closed(w', n) <==> Closed(w, n);
  }

  lemma FlaggingKeeps(w: WatchSide, m: Handle, monitor: Monitor)
    requires WatchInv(w) && m in w.w.monitors && OnlyFlagged(w.w.monitors[m], monitor)
    ensures WatchInv(WithMonitor(w, m, monitor))
  {
    FlaggingKeepsList(w, m, monitor);
    FlaggingKeepsLog(w, m, monitor);
  }

  lemma SnapshotKeeps(w: WatchSide, t: ThreadId)
    requires WatchInv(w) && t in w.watchers && w.watchers[t].Idle?
    ensures WatchInv(DoSnapshot(w, t))
  {
    var w' := DoSnapshot(w, t);
    assert t in w'.watchers;
    assert forall m, u :: !IsErasing(w, u, m) && !IsErasing(w', u, m);
    assert forall m :: Closed(w', m) <==> Closed(w, m);
  }

  lemma EraseKeepsList(w: WatchSide, t: ThreadId)
    requires WatchInv(w) && AtHead(w, t) && w.watchers[t].Erasing?
    ensures var w' := DoErase(w, t); LoopInv(w') && ListInv(w')
  {
    var w', m, ms := DoErase(w, t), Head(w, t), w.w.jobMonitorList;
    assert PassInv(w, t) && t in w'.watchers;
    assert m in w.watchers[t].pass;
    WithoutIndexElements(ms, IndexOf(ms, m));
    AppendNoDuplicates(w.erased, m);
    var pass := w.watchers[t].pass;
    assert forall k | k in pass[1..] :: k in pass && k != m;
    assert PassInv(w', t);
  }

  lemma EraseKeepsLog(w: WatchSide, t: ThreadId)
    requires WatchInv(w) && AtHead(w, t) && w.watchers[t].Erasing?
    ensures LogInv(DoErase(w, t))
  {
    var w', m := DoErase(w, t), Head(w, t);
    assert PassInv(w, t);
    assert m in w.watchers[t].pass;
    assert IsErasing(w, t, m);
    assert forall n, u :: !IsErasing(w', u, n);
    assert forall n, u :: IsErasing(w, u, n) ==> n == m;
    assert forall n :: Closed(w', n) <==> Closed(w, n);
  }

  lemma EraseKeeps(w: WatchSide, t: ThreadId)
    requires WatchInv(w) && AtHead(w, t) && w.watchers[t].Erasing?
    ensures WatchInv(DoErase(w, t))
  {
    EraseKeepsList(w, t);
    EraseKeepsLog(w, t);
  }

  lemma EndPassKeeps(w: WatchSide, t: ThreadId)
    requires WatchInv(w) && t in w.watchers && w.watchers[t] == Passing([])
    ensures WatchInv(DoEndPass(w, t))
  {
    var w' := DoEndPass(w, t);
    assert w.w.jobMonitorList != [] ==> t in w'.watchers;
    assert forall u | u in w'.watchers :: u == t;
    assert forall m, u :: !IsErasing(w, u, m) && !IsErasing(w', u, m);
    assert forall m :: Closed(w', m) <==> Closed(w, m);
  }
}
