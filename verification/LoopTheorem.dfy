/**
 * Every monitored job is evaluated again and again: between any state and the start of the next evaluation
 * of a listed job the monitor loop takes a bounded number of steps, whatever the evaluations in between
 * answer and whatever the other threads do.
 */
module LoopTheorem {
  import opened JobMonitor
  import opened JobMonitorTheorems
  import opened JobPipeline
  import opened JobInvariant
  import opened WatchInvariant
  import opened PipelineInvariant
  import opened PipelineTheorems
  import opened ProgressTheorem

  /** The loop is about to evaluate this object. */
  predicate IsAboutTo(w: WatchSide, t: ThreadId, m: Handle) {
    t in w.watchers && w.watchers[t].Passing? && w.watchers[t].pass != [] && w.watchers[t].pass[0] == m
  }

  ghost predicate AboutTo(w: WatchSide, m: Handle) {
    exists t :: IsAboutTo(w, t, m)
  }

  // ---------------------------------------------------------------------------------------
  // How far the loop is from an object
  // ---------------------------------------------------------------------------------------

  const STEPS_PER_OBJECT := 4

  /** Steps already taken on the head of the pass. */
  function Taken(x: Watcher): nat {
    match x
    case Idle => 0
    case Passing(_) => 0
    case NotCanceled(_) => 1
    case Querying(_) => 2
    case Erasing(_) => 3
  }

  /** Steps at most still to take on a non-empty stretch that starts with the head of the pass. */
  function Left(x: Watcher, n: nat): nat {
    if n == 0 then 0 else STEPS_PER_OBJECT * n - Taken(x)
  }

  /** The object is still ahead in this pass. */
  predicate IsAhead(x: Watcher, m: Handle) {
    !x.Idle? && m in x.pass && (x.pass[0] != m || x.Passing?)
  }

  /** Loop steps, at most, until the loop is about to evaluate a listed object: in this pass or in the next. */
  function Distance(ms: seq<Handle>, x: Watcher, m: Handle): nat {
    if x.Idle? then 1 + STEPS_PER_OBJECT * IndexOf(ms, m)
    else if IsAhead(x, m) then Left(x, IndexOf(x.pass, m))
    else Left(x, |x.pass|) + 2 + STEPS_PER_OBJECT * IndexOf(ms, m)
  }

  function DistanceTo(w: WatchSide, t: ThreadId, m: Handle): nat
    requires t in w.watchers
  {
    Distance(w.w.jobMonitorList, w.watchers[t], m)
  }

  lemma IndexOfTail(ms: seq<Handle>, m: Handle)
    requires ms != [] && ms[0] != m
    ensures IndexOf(ms, m) == IndexOf(ms[1..], m) + 1
  {
  }

  lemma {:induction false} IndexOfAppend(ms: seq<Handle>, n: Handle, m: Handle)
    requires m in ms
    ensures IndexOf(ms + [n], m) == IndexOf(ms, m)
  {
    if ms[0] == m {
    } else {
      assert (ms + [n])[1..] == ms[1..] + [n];
      IndexOfAppend(ms[1..], n, m);
    }
  }

  lemma {:induction false} IndexOfErased(ms: seq<Handle>, i: nat, m: Handle)
    requires i < |ms| && ms[i] != m && m in ms
    ensures IndexOf(WithoutIndex(ms, i), m) <= IndexOf(ms, m)
  {
    if i == 0 {
      assert WithoutIndex(ms, i) == ms[1..];
      IndexOfTail(ms, m);
    } else if ms[0] == m {
      assert WithoutIndex(ms, i)[0] == m;
    } else {
      assert WithoutIndex(ms, i)[1..] == WithoutIndex(ms[1..], i - 1);
      IndexOfErased(ms[1..], i - 1, m);
      IndexOfTail(WithoutIndex(ms, i), m);
    }
  }

  /** The head of the pass is dealt with: the rest of it is next. */
  lemma HeadDone(ms: seq<Handle>, x: Watcher, m: Handle)
    requires !x.Idle? && x.pass != [] && NoDuplicates(x.pass)
    requires x.Passing? ==> x.pass[0] != m
    ensures Distance(ms, Passing(x.pass[1..]), m) < Distance(ms, x, m)
  {
    var rest := x.pass[1..];
    assert x.pass == [x.pass[0]] + rest;
    if IsAhead(x, m) {
      IndexOfTail(x.pass, m);
    }
  }

  /** The head of the pass is dealt with further. */
  lemma HeadGoesOn(ms: seq<Handle>, x: Watcher, y: Watcher, m: Handle)
    requires !x.Idle? && !y.Idle? && y.pass == x.pass != [] && Taken(y) > Taken(x)
    requires x.Passing? ==> x.pass[0] != m
    ensures Distance(ms, y, m) < Distance(ms, x, m)
  {
  }

  lemma CloserInShorterList(ms: seq<Handle>, ms': seq<Handle>, x: Watcher, m: Handle)
    requires IndexOf(ms', m) <= IndexOf(ms, m)
    ensures Distance(ms', x, m) <= Distance(ms, x, m)
  {
  }

  // ---------------------------------------------------------------------------------------
  // Steps
  // ---------------------------------------------------------------------------------------

  /** A step that does not end the evaluation is not its last one. */
  lemma GoesFurther(s: State, a: Action)
    requires Enabled(s, a) && IsEvaluation(a)
    ensures var (o, next) := OutcomeOf(s, a); o.verdict == Proceed ==> Taken(next) > Taken(s.w.watchers[a.t])
  {
    if a.QueryState? {
      QueryIsDisciplined(s.w.w.monitors[Head(s.w, a.t)], a.poll);
    }
  }

  lemma EvaluationComesCloser(s: State, a: Action, m: Handle)
    requires WatchInv(s.w) && Enabled(s, a) && IsEvaluation(a) && !IsAboutTo(s.w, a.t, m)
    ensures a.t in Apply(s, a).w.watchers && DistanceTo(Apply(s, a).w, a.t, m) < DistanceTo(s.w, a.t, m)
  {
    EvaluationOutcomeOk(s, a);
    GoesFurther(s, a);
    var (o, next) := OutcomeOf(s, a);
    AdvanceComesCloser(s.w, a.t, o, next, m);
  }

  lemma AdvanceComesCloser(w: WatchSide, t: ThreadId, o: Outcome, next: Watcher, m: Handle)
    requires WatchInv(w) && AtHead(w, t) && GoesOn(w, t, next) && !IsAboutTo(w, t, m)
    requires o.verdict == Proceed ==> Taken(next) > Taken(w.watchers[t])
    ensures t in Advanced(w, t, o, next).watchers && DistanceTo(Advanced(w, t, o, next), t, m) < DistanceTo(w, t, m)
  {
    var x, ms := w.watchers[t], w.w.jobMonitorList;
    assert PassInv(w, t);
    match o.verdict
    case Proceed => HeadGoesOn(ms, x, next, m);
    case Keep => HeadDone(ms, x, m);
    case Drop => HeadGoesOn(ms, x, Erasing(x.pass), m);
  }

  lemma EraseComesCloser(w: WatchSide, t: ThreadId, m: Handle)
    requires WatchInv(w) && AtHead(w, t) && w.watchers[t].Erasing?
    requires m in w.w.jobMonitorList && m in DoErase(w, t).w.jobMonitorList
    ensures t in DoErase(w, t).watchers && DistanceTo(DoErase(w, t), t, m) < DistanceTo(w, t, m)
  {
    var x, ms, ms' := w.watchers[t], w.w.jobMonitorList, DoErase(w, t).w.jobMonitorList;
    assert PassInv(w, t) && Head(w, t) in ms;
    ErasingRemovesHead(w, t, m);
    IndexOfErased(ms, IndexOf(ms, Head(w, t)), m);
    HeadDone(ms, x, m);
    CloserInShorterList(ms, ms', Passing(x.pass[1..]), m);
  }

  lemma PassComesCloser(w: WatchSide, t: ThreadId, m: Handle)
    requires t in w.watchers && m in w.w.jobMonitorList
    ensures w.watchers[t].Idle? ==>
              t in DoSnapshot(w, t).watchers && DistanceTo(DoSnapshot(w, t), t, m) < DistanceTo(w, t, m)
    ensures w.watchers[t] == Passing([]) ==>
              t in DoEndPass(w, t).watchers && DistanceTo(DoEndPass(w, t), t, m) < DistanceTo(w, t, m)
  {
  }

  /** Every step of the loop brings it closer to an object it is not about to evaluate and does not erase. */
  lemma LoopComesCloser(s: State, a: Action, m: Handle)
    requires WatchInv(s.w) && Enabled(s, a) && IsLoopStep(a) && !AboutTo(s.w, m)
    requires m in s.w.w.jobMonitorList && m in Apply(s, a).w.w.jobMonitorList
    ensures a.t in s.w.watchers && a.t in Apply(s, a).w.watchers
    ensures DistanceTo(Apply(s, a).w, a.t, m) < DistanceTo(s.w, a.t, m)
  {
    assert !IsAboutTo(s.w, a.t, m);
    if IsEvaluation(a) {
      EvaluationComesCloser(s, a, m);
    } else if a.EraseCompleted? {
      EraseComesCloser(s.w, a.t, m);
    } else {
      PassComesCloser(s.w, a.t, m);
    }
  }

  /** The other threads never take the loop further away: new jobs are pushed behind the listed ones. */
  lemma OthersKeepDistance(s: State, a: Action, t: ThreadId, m: Handle)
    requires Enabled(s, a) && !IsLoopStep(a) && t in s.w.watchers && m in s.w.w.jobMonitorList
    ensures m in Apply(s, a).w.w.jobMonitorList
    ensures t in Apply(s, a).w.watchers && DistanceTo(Apply(s, a).w, t, m) <= DistanceTo(s.w, t, m)
  {
    if a.Publish? {
      IndexOfAppend(s.w.w.jobMonitorList, a.m, m);
    }
  }

  // ---------------------------------------------------------------------------------------
  // Runs
  // ---------------------------------------------------------------------------------------

  function LoopSteps(actions: seq<Action>): nat {
    if actions == [] then 0 else (if IsLoopStep(actions[0]) then 1 else 0) + LoopSteps(actions[1..])
  }

  /** A run that never comes to the start of an evaluation of a listed object, nor to its erasure. */
  ghost predicate Avoids(s: State, actions: seq<Action>, m: Handle)
    requires ValidRun(s, actions)
    decreases |actions|
  {
    && m in s.w.w.jobMonitorList && !AboutTo(s.w, m)
    && (actions == [] || Avoids(Apply(s, actions[0]), actions[1..], m))
  }

  /**
   * In any interleaving, the loop takes at most Distance steps before it starts to evaluate a listed
   * job (or erases it, if its evaluation is already under way).
   */
  lemma {:induction false} EvaluationComes(s: State, actions: seq<Action>, t: ThreadId, m: Handle)
    requires Inv(s) && t in s.w.watchers && ValidRun(s, actions) && Avoids(s, actions, m)
    ensures t in After(s, actions).w.watchers
    ensures LoopSteps(actions) + DistanceTo(After(s, actions).w, t, m) <= DistanceTo(s.w, t, m)
    decreases |actions|
  {
    if actions == [] {
    } else {
      var a, s' := actions[0], Apply(s, actions[0]);
      if IsLoopStep(a) {
        LoopComesCloser(s, a, m);
        assert a.t == t;
      } else {
        OthersKeepDistance(s, a, t, m);
      }
      StepKeepsInv(s, a);
      EvaluationComes(s', actions[1..], t, m);
    }
  }

  lemma NotThereYet(w: WatchSide, t: ThreadId, m: Handle)
    requires t in w.watchers && PassInv(w, t) && !IsAboutTo(w, t, m)
    ensures DistanceTo(w, t, m) > 0
  {
  }

  lemma LoopMovesOn(s: State, t: ThreadId, m: Handle, poll: Poll) returns (a: Action)
    requires Inv(s) && t in s.w.watchers && m in s.w.w.jobMonitorList && ValidPoll(poll) && !AboutTo(s.w, m)
    ensures Enabled(s, a) && IsLoopStep(a) && DistanceTo(s.w, t, m) > 0
    ensures m in Apply(s, a).w.w.jobMonitorList ==>
              t in Apply(s, a).w.watchers && DistanceTo(Apply(s, a).w, t, m) < DistanceTo(s.w, t, m)
  {
    a := LoopCanStep(s, t, poll);
    assert !IsAboutTo(s.w, t, m);
    NotThereYet(s.w, t, m);
    if m in Apply(s, a).w.w.jobMonitorList {
      LoopComesCloser(s, a, m);
    }
  }

  /** A run of the loop alone. */
  predicate IsLoopRun(s: State, actions: seq<Action>) {
    ValidRun(s, actions) && forall a | a in actions :: IsLoopStep(a)
  }

  lemma LoopStepRun(s: State, a: Action)
    requires Enabled(s, a) && IsLoopStep(a)
    ensures IsLoopRun(s, [a]) && After(s, [a]) == Apply(s, a)
  {
    OneStepRun(s, a);
  }

  lemma LoopRunConcat(s: State, first: seq<Action>, second: seq<Action>)
    requires IsLoopRun(s, first) && IsLoopRun(After(s, first), second)
    ensures IsLoopRun(s, first + second) && After(s, first + second) == After(After(s, first), second)
  {
    RunConcat(s, first, second);
  }

  /** And the loop alone can get there within as many steps, whatever the polls answer. */
  lemma {:induction false} LoopReaches(s: State, t: ThreadId, m: Handle, poll: Poll) returns (actions: seq<Action>)
    requires Inv(s) && t in s.w.watchers && m in s.w.w.jobMonitorList && ValidPoll(poll)
    ensures IsLoopRun(s, actions) && |actions| <= DistanceTo(s.w, t, m)
    ensures AboutTo(After(s, actions).w, m) || m !in After(s, actions).w.w.jobMonitorList
    decreases DistanceTo(s.w, t, m)
  {
    if AboutTo(s.w, m) {
      actions := [];
    } else {
      var a := LoopMovesOn(s, t, m, poll);
      actions := [a];
      LoopStepRun(s, a);
      if m in Apply(s, a).w.w.jobMonitorList {
        StepKeepsInv(s, a);
        var rest := LoopReaches(Apply(s, a), t, m, poll);
        LoopRunConcat(s, [a], rest);
        actions := [a] + rest;
      }
    }
  }
}
