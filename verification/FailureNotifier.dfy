/** PrintFailureAiNotifier: notifications on the rising edges of a job's fault codes. */
module FailureNotifier {
  import opened PrintConstants
  import opened Substate

  const CODE_LIMIT := 99

  /** What the notifier does for a code. */
  datatype Effect =
    | CreateNotification(state: int, printerName: string)
    | ReportPrintFailure(state: int)

  /** The effects for the codes 1..n of a set, in the ascending order a std::set is walked. */
  function Effects(states: set<int>, printerName: string, n: nat): seq<Effect> {
    if n == 0 then []
    else
      Effects(states, printerName, n - 1) +
      if n !in states then []
      else if n == PRINT_JOB_BLOCKED_AUTHENTICATION then [ReportPrintFailure(n)]
      else [CreateNotification(n, printerName), ReportPrintFailure(n)]
  }

  datatype Event =
    | Blocked(jobId: string, subState: UInt32)
    | Cleared(jobId: string)

  /** The codes of a job's latest report since it was last cleared; none if there is no such report. */
  function Known(events: seq<Event>, jobId: string): set<int> {
    if events == [] then {}
    else
      var last := events[|events| - 1];
      if last.jobId != jobId then Known(events[..|events| - 1], jobId)
      else if last.Blocked? then SplitOf(last.subState)
      else {}
  }

  /** The codes acted on at an event: its rising edges. */
  function ActedOn(events: seq<Event>, k: nat): set<int>
    requires k < |events|
  {
    match events[k]
    case Blocked(id, subState) => SplitOf(subState) - Known(events[..k], id)
    case Cleared(_) => {}
  }

  lemma SplitIsTwoDigits(n: nat)
    ensures forall c | c in SplitOf(n) :: 1 <= c <= CODE_LIMIT
  {
  }

  class PrintFailureAiNotifier {
    var jobStateMap: map<string, set<int>>
    var effects: seq<Effect>
    ghost var events: seq<Event>

    /** The map holds exactly what the events so far have made known. */
    ghost predicate Valid()
      reads this
    {
      forall id :: Known(events, id) == if id in jobStateMap then jobStateMap[id] else {}
    }

    constructor ()
      ensures Valid() && events == [] && effects == []
    {
      jobStateMap, effects, events := map[], [], [];
    }

    /** The loop over newStates or newStatesToNotify. */
    method Act(states: set<int>, printerName: string)
      modifies this`effects
      ensures effects == old(effects) + Effects(states, printerName, CODE_LIMIT)
    {
      var state := 1;
      while state <= CODE_LIMIT
        invariant 1 <= state <= CODE_LIMIT + 1
        invariant effects == old(effects) + Effects(states, printerName, state - 1)
      {
        if state in states {
          if state != PRINT_JOB_BLOCKED_AUTHENTICATION {
            effects := effects + [CreateNotification(state, printerName)];
          }
          effects := effects + [ReportPrintFailure(state)];
        }
        state := state + 1;
      }
    }

    method HandleJobBlocked(jobId: string, subState: UInt32, printerName: string)
      requires Valid()
      modifies this
      ensures Valid() && events == old(events) + [Blocked(jobId, subState)]
      ensures effects == old(effects) + Effects(ActedOn(events, |old(events)|), printerName, CODE_LIMIT)
    {
      var newStates := SplitSubState(subState);
      assert Known(events, jobId) == if jobId in jobStateMap then jobStateMap[jobId] else {};
      if jobId !in jobStateMap {
        jobStateMap := jobStateMap[jobId := newStates];
        Act(newStates, printerName);
        assert newStates - {} == newStates;
      } else {
        var oldStates := jobStateMap[jobId];
        Act(newStates - oldStates, printerName);
        jobStateMap := jobStateMap[jobId := newStates];
      }
      events := events + [Blocked(jobId, subState)];
      assert events[..|old(events)|] == old(events);
    }

    method ClearJobState(jobId: string)
      requires Valid()
      modifies this
      ensures Valid() && events == old(events) + [Cleared(jobId)] && effects == old(effects)
    {
      jobStateMap := jobStateMap - {jobId};
      events := events + [Cleared(jobId)];
      assert events[..|old(events)|] == old(events);
    }
  }

  // ---------------------------------------------------------------------------------------
  // Over any run
  // ---------------------------------------------------------------------------------------

  /** A job's code is low just before event k: cleared, never reported, or absent from the latest report. */
  lemma {:induction false} KnownStep(events: seq<Event>, k: nat, id: string)
    requires k < |events|
    ensures Known(events[..k + 1], id) ==
            if events[k].jobId != id then Known(events[..k], id)
            else if events[k].Blocked? then SplitOf(events[k].subState) else {}
  {
    assert events[..k + 1][..k] == events[..k];
  }

  /** Event j lowers a code of a job: it clears the job, or reports it without the code. */
  predicate Lowers(e: Event, id: string, c: int) {
    e.jobId == id && (e.Blocked? ==> c !in SplitOf(e.subState))
  }

  /** While nothing lowers a known code, it stays known. */
  lemma {:induction false} StaysKnown(events: seq<Event>, i: nat, k: nat, id: string, c: int)
    requires i <= k <= |events| && c in Known(events[..i], id)
    requires forall j | i <= j < k :: !Lowers(events[j], id, c)
    ensures c in Known(events[..k], id)
    decreases k
  {
    if i == k {
    } else {
      StaysKnown(events, i, k - 1, id, c);
      KnownStep(events, k - 1, id);
    }
  }

  /** Two notifications of one code for one job are separated by an event that lowered the code. */
  lemma {:induction false} ActsOnRisingEdgesOnly(events: seq<Event>, i: nat, k: nat, c: int) returns (j: nat)
    requires i < k < |events| && events[i].jobId == events[k].jobId
    requires c in ActedOn(events, i) && c in ActedOn(events, k)
    ensures i < j < k && Lowers(events[j], events[i].jobId, c)
  {
    var id := events[i].jobId;
    KnownStep(events, i, id);
    if forall m | i + 1 <= m < k :: !Lowers(events[m], id, c) {
      StaysKnown(events, i + 1, k, id, c);
      assert false;
    }
    j :| i < j < k && Lowers(events[j], id, c);
  }

  /** No rising edge is missed: a reported code that was not already known is acted on. */
  lemma {:induction false} MissesNoRisingEdge(events: seq<Event>, k: nat, c: int)
    requires k < |events| && events[k].Blocked? && c in SplitOf(events[k].subState)
    ensures c in ActedOn(events, k) <==> c !in Known(events[..k], events[k].jobId)
    ensures forall j | 0 <= j < k && Lowers(events[j], events[k].jobId, c) &&
                       (forall m | j < m < k :: events[m].jobId != events[k].jobId) :: c in ActedOn(events, k)
    ensures (forall m | 0 <= m < k :: events[m].jobId != events[k].jobId) ==> c in ActedOn(events, k)
  {
    var id := events[k].jobId;
    forall j | 0 <= j < k && Lowers(events[j], id, c) && (forall m | j < m < k :: events[m].jobId != id)
      ensures c in ActedOn(events, k)
    {
      KnownStep(events, j, id);
      Untouched(events, j + 1, k, id);
    }
    if forall m | 0 <= m < k :: events[m].jobId != id {
      Untouched(events, 0, k, id);
      assert events[..0] == [];
    }
  }

  lemma {:induction false} Untouched(events: seq<Event>, i: nat, k: nat, id: string)
    requires i <= k <= |events| && forall m | i <= m < k :: events[m].jobId != id
    ensures Known(events[..k], id) == Known(events[..i], id)
    decreases k
  {
    if i == k {
    } else {
      Untouched(events, i, k - 1, id);
      KnownStep(events, k - 1, id);
    }
  }

  /** Repeating a sub-state triggers nothing, whatever happens to other jobs in between. */
  lemma {:induction false} RepeatTriggersNothing(events: seq<Event>, i: nat, k: nat)
    requires i < k < |events| && events[i].Blocked? && events[k] == events[i]
    requires forall m | i < m < k :: events[m].jobId != events[i].jobId
    ensures ActedOn(events, k) == {}
  {
    KnownStep(events, i, events[i].jobId);
    Untouched(events, i + 1, k, events[i].jobId);
  }

  /** A packed report acts on exactly those of its codes that survived the packing and are not known yet. */
  lemma {:induction false} PackedReportActsOnKeptCodes(events: seq<Event>, k: nat, codes: seq<Code>)
    requires k < |events| && events[k].Blocked? && events[k].subState == Fold(codes)
    ensures ActedOn(events, k) == Elements(Kept(codes)) - Known(events[..k], events[k].jobId)
  {
    SplitFold(codes);
  }

  lemma {:induction false} EffectsOfCode(states: set<int>, printerName: string, n: nat, c: int)
    ensures ReportPrintFailure(c) in Effects(states, printerName, n) <==> 1 <= c <= n && c in states
    ensures CreateNotification(c, printerName) in Effects(states, printerName, n) <==>
            1 <= c <= n && c in states && c != PRINT_JOB_BLOCKED_AUTHENTICATION
  {
    if n == 0 {
    } else {
      EffectsOfCode(states, printerName, n - 1, c);
    }
  }

  /** Every effect of one action names the printer, and is shown before it is reported, codes ascending, each once. */
  predicate InOrder(effects: seq<Effect>, printerName: string) {
    && (forall e | e in effects :: e.CreateNotification? ==> e.printerName == printerName)
    && forall i, j | 0 <= i < j < |effects| ::
         || effects[i].state < effects[j].state
         || (effects[i].state == effects[j].state && effects[i].CreateNotification? && effects[j].ReportPrintFailure?)
  }

  lemma InOrderStep(effects: seq<Effect>, printerName: string, n: nat, more: seq<Effect>)
    requires InOrder(effects, printerName) && (forall e | e in effects :: e.state < n)
    requires more == [ReportPrintFailure(n)] || more == [CreateNotification(n, printerName), ReportPrintFailure(n)]
    ensures InOrder(effects + more, printerName) && forall e | e in effects + more :: e.state < n + 1
  {
  }

  lemma {:induction false} EffectsInOrder(states: set<int>, printerName: string, n: nat)
    ensures InOrder(Effects(states, printerName, n), printerName)
    ensures forall e | e in Effects(states, printerName, n) :: e.state < n + 1
  {
    if n == 0 {
    } else {
      EffectsInOrder(states, printerName, n - 1);
      var before := Effects(states, printerName, n - 1);
      if n in states {
        InOrderStep(before, printerName, n, if n == PRINT_JOB_BLOCKED_AUTHENTICATION then [ReportPrintFailure(n)]
                                            else [CreateNotification(n, printerName), ReportPrintFailure(n)]);
      }
    }
  }

  /** Every code acted on is reported; every one but the authentication code is also shown to the user. */
  lemma {:induction false} EveryEdgeIsReported(events: seq<Event>, k: nat, printerName: string, c: int)
    requires k < |events|
    ensures
      var effects := Effects(ActedOn(events, k), printerName, CODE_LIMIT);
      && (ReportPrintFailure(c) in effects <==> c in ActedOn(events, k))
      && (CreateNotification(c, printerName) in effects <==> c in ActedOn(events, k) && c != 36)
      && InOrder(effects, printerName)
  {
    EffectsInOrder(ActedOn(events, k), printerName, CODE_LIMIT);
    EffectsOfCode(ActedOn(events, k), printerName, CODE_LIMIT, c);
    if events[k].Blocked? {
      SplitIsTwoDigits(events[k].subState);
    }
  }
}
