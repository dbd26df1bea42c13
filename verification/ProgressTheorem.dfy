/**
 * No queued job is left behind: every step of a worker uses up a bounded amount of work, nobody but
 * AddCupsPrintJob creates new work, and as long as a worker is left it can take a step.
 */
module ProgressTheorem {
  import opened MapSums
  import opened JobPipeline
  import opened PipelineInvariant
  import opened PipelineTheorems

  /** An upper bound on the steps a worker still has to take, itself or through a job it queues or starts. */
  function Weight(w: Worker): nat {
    match w
    case Adding(_) => 7
    case AwaitingNext => 1
    case Starting(_) => 4
    case Sending(_) => 3
    case Sent(_) => 2
  }

  function Weights(workers: map<ThreadId, Worker>): map<ThreadId, nat> {
    map t | t in workers :: Weight(workers[t])
  }

  const QUEUED_WEIGHT := 4

  ghost function Work(j: JobSide): nat {
    QUEUED_WEIGHT * |j.q.jobQueue| + Sum(Weights(j.workers))
  }

  predicate IsWorkerStep(a: Action) {
    a.PushJob? || a.GetNextJob? || a.StartJob? || a.FailSending? || a.Publish? || a.SentCallback?
  }

  lemma WorkerChanged(workers: map<ThreadId, Worker>, t: ThreadId, w: Worker)
    requires t in workers
    ensures Sum(Weights(workers[t := w])) + Weight(workers[t]) == Sum(Weights(workers)) + Weight(w)
    ensures Sum(Weights(workers - {t})) + Weight(workers[t]) == Sum(Weights(workers))
  {
    SumUpdate(Weights(workers), t, Weight(w));
    assert Weights(workers[t := w]) == Weights(workers)[t := Weight(w)];
    assert Weights(workers - {t}) == Weights(workers) - {t};
  }

  /** Every worker step uses up work. */
  lemma WorkerStepWorks(s: State, a: Action)
    requires Enabled(s, a) && IsWorkerStep(a)
    ensures Work(Apply(s, a).j) < Work(s.j)
  {
    var j, j' := s.j, Apply(s, a).j;
    if a.GetNextJob? && NextJob(j.q).None? {
      WorkerChanged(j.workers, a.t, AwaitingNext);
    } else {
      WorkerChanged(j.workers, a.t, j'.workers[a.t]);
    }
  }

  /** Requests and the monitor loop never add work; only building a job does. */
  lemma OthersAddNoWork(s: State, a: Action)
    requires Enabled(s, a) && !IsWorkerStep(a) && !a.BuildJob?
    ensures Work(Apply(s, a).j) <= Work(s.j)
  {
  }

  function WorkerSteps(actions: seq<Action>): nat {
    if actions == [] then 0 else (if IsWorkerStep(actions[0]) then 1 else 0) + WorkerSteps(actions[1..])
  }

  /** Without new jobs, the workers take at most Work steps, whatever the other threads do in between. */
  lemma {:induction false} WorkBoundsSteps(s: State, actions: seq<Action>)
    requires ValidRun(s, actions)
    requires forall a | a in actions :: !a.BuildJob?
    ensures WorkerSteps(actions) + Work(After(s, actions).j) <= Work(s.j)
    decreases |actions|
  {
    if actions == [] {
    } else {
      var a := actions[0];
      assert a in actions;
      if IsWorkerStep(a) {
        WorkerStepWorks(s, a);
      } else {
        OthersAddNoWork(s, a);
      }
      WorkBoundsSteps(Apply(s, a), actions[1..]);
    }
  }

  /** No worker ever waits for another thread: each has a step it can take. */
  lemma WorkerCanStep(s: State, t: ThreadId) returns (a: Action)
    requires t in s.j.workers
    ensures Enabled(s, a) && IsWorkerStep(a) && a.t == t
  {
    match s.j.workers[t]
    case Adding(_) => a := PushJob(t);
    case AwaitingNext => a := GetNextJob(t);
    case Starting(_) => a := StartJob(t, true);
    case Sending(_) => a := FailSending(t);
    case Sent(_) => a := SentCallback(t);
  }

  /**
   * From every reachable state the workers alone can run to the end, within Work steps, and then
   * every job ever added has been started or removed, and every job ever built has been deleted.
   */
  lemma {:induction false} Drains(s: State) returns (actions: seq<Action>)
    requires Inv(s)
    ensures ValidRun(s, actions) && |actions| <= Work(s.j)
    ensures After(s, actions).j.workers == map[]
    decreases Work(s.j)
  {
    if s.j.workers == map[] {
      actions := [];
    } else {
      var t :| t in s.j.workers;
      var a := WorkerCanStep(s, t);
      WorkerStepWorks(s, a);
      StepKeepsInv(s, a);
      var rest := Drains(Apply(s, a));
      actions := [a] + rest;
      assert actions[0] == a && actions[1..] == rest;
    }
  }

  // ---------------------------------------------------------------------------------------
  // Reachability
  // ---------------------------------------------------------------------------------------

  lemma OneStepRun(s: State, a: Action)
    requires Enabled(s, a)
    ensures ValidRun(s, [a]) && After(s, [a]) == Apply(s, a)
  {
  }

  /** Two runs, one after the other. */
  lemma {:induction false} RunConcat(s: State, first: seq<Action>, second: seq<Action>)
    requires ValidRun(s, first) && ValidRun(After(s, first), second)
    ensures ValidRun(s, first + second) && After(s, first + second) == After(After(s, first), second)
    decreases |first|
  {
    if first == [] {
      assert first + second == second;
    } else {
      RunConcat(Apply(s, first[0]), first[1..], second);
      assert (first + second)[1..] == first[1..] + second;
    }
  }

  lemma {:induction false} RunAppend(s: State, actions: seq<Action>, a: Action)
    requires ValidRun(s, actions) && Enabled(After(s, actions), a)
    ensures ValidRun(s, actions + [a]) && After(s, actions + [a]) == Apply(After(s, actions), a)
  {
    OneStepRun(After(s, actions), a);
    RunConcat(s, actions, [a]);
  }

  lemma StepReachable(s: State, a: Action)
    requires Reachable(s) && Enabled(s, a)
    ensures Reachable(Apply(s, a))
  {
    var actions :| ValidRun(INITIAL, actions) && After(INITIAL, actions) == s;
    RunAppend(INITIAL, actions, a);
  }

  lemma InitialReachable()
    ensures Reachable(INITIAL)
  {
    assert ValidRun(INITIAL, []) && After(INITIAL, []) == INITIAL;
  }

  lemma {:induction false} RunReachable(s: State, actions: seq<Action>)
    requires Reachable(s) && ValidRun(s, actions)
    ensures Reachable(After(s, actions))
    decreases |actions|
  {
    if actions == [] {
    } else {
      StepReachable(s, actions[0]);
      RunReachable(Apply(s, actions[0]), actions[1..]);
    }
  }

  /** No queued job is left behind: the workers can always finish, and then nothing waits and nothing leaks. */
  lemma {:induction false} NothingLeftBehind(s: State) returns (actions: seq<Action>)
    requires Reachable(s)
    ensures ValidRun(s, actions) && |actions| <= Work(s.j)
    ensures
      var j := After(s, actions).j;
      j.q.jobQueue == [] && j.q.currentJob.None? && j.q.jobs == map[] &&
      forall h | h in j.added :: h in j.started <==> h !in j.removed
  {
    ReachableInv(s);
    actions := Drains(s);
    RunReachable(s, actions);
    QuietMeansDone(After(s, actions));
  }
}
