/** Every action of the job side keeps the job invariant. */
module JobPreservation {
  import opened JobPipeline
  import opened JobInvariant

  // --- BuildJobParameters has allocated a job ---

  lemma BuildKeepsOwnership(j: JobSide, t: ThreadId, h: Handle, id: string)
    requires JobInv(j) && t !in j.workers && h !in j.built
    ensures var j' := DoBuild(j, t, h, id); Safe(j'.q) && AddersOwn(j') && SenderOwns(j')
  {
    var j' := DoBuild(j, t, h, id);
    WorkerMoves(j, j', t, Adding(h));
  }

  lemma BuildKeepsAccounts(j: JobSide, t: ThreadId, h: Handle, id: string)
    requires JobInv(j) && t !in j.workers && h !in j.built
    ensures var j' := DoBuild(j, t, h, id); NothingLeaks(j') && FreedOnce(j') && NoStall(j')
  {
    var j' := DoBuild(j, t, h, id);
    WorkerMoves(j, j', t, Adding(h));
    assert IsAdding(j', t, h);
  }

  lemma BuildKeeps(j: JobSide, t: ThreadId, h: Handle, id: string)
    requires JobInv(j) && t !in j.workers && h !in j.built
    ensures JobInv(DoBuild(j, t, h, id))
  {
    BuildKeepsOwnership(j, t, h, id);
    BuildKeepsAccounts(j, t, h, id);
  }

  // --- AddCupsPrintJob pushes it ---

  lemma PushKeepsOwnership(j: JobSide, t: ThreadId)
    requires JobInv(j) && t in j.workers && j.workers[t].Adding?
    ensures var j' := DoPush(j, t); Safe(j'.q) && AddersOwn(j') && SenderOwns(j')
  {
    var j' := DoPush(j, t);
    WorkerMoves(j, j', t, AwaitingNext);
    assert IsAdding(j, t, j.workers[t].job);
  }

  lemma PushKeepsAccounts(j: JobSide, t: ThreadId)
    requires JobInv(j) && t in j.workers && j.workers[t].Adding?
    ensures var j' := DoPush(j, t); NothingLeaks(j') && FreedOnce(j') && NoStall(j')
  {
    var j' := DoPush(j, t);
    WorkerMoves(j, j', t, AwaitingNext);
    assert IsAdding(j, t, j.workers[t].job);
    assert IsAwaiting(j', t);
  }

  lemma PushKeepsOrder(j: JobSide, t: ThreadId)
    requires JobInv(j) && t in j.workers && j.workers[t].Adding?
    ensures InOrder(DoPush(j, t))
  {
    var j' := DoPush(j, t);
    var h := j.workers[t].job;
    assert IsAdding(j, t, h);
    PlacesAreDisjoint(j);
    WithoutAppend(j.added, h, j.removed);
    assert j'.started + j'.q.jobQueue == (j.started + j.q.jobQueue) + [h];
    AppendNoDuplicates(j.added, h);
  }

  lemma PushKeeps(j: JobSide, t: ThreadId)
    requires JobInv(j) && t in j.workers && j.workers[t].Adding?
    ensures JobInv(DoPush(j, t))
  {
    PushKeepsOwnership(j, t);
    PushKeepsAccounts(j, t);
    PushKeepsOrder(j, t);
  }

  // --- GetNextJob ---

  lemma GetNextKeepsOwnership(j: JobSide, t: ThreadId)
    requires JobInv(j) && t in j.workers && j.workers[t].AwaitingNext?
    ensures var j' := DoGetNext(j, t); Safe(j'.q) && AddersOwn(j') && SenderOwns(j')
  {
    var j' := DoGetNext(j, t);
    if NextJob(j.q).None? {
      WorkerEnds(j, j', t);
    } else {
      WorkerMoves(j, j', t, Starting(NextJob(j.q).value));
    }
  }

  lemma GetNextKeepsAccounts(j: JobSide, t: ThreadId)
    requires JobInv(j) && t in j.workers && j.workers[t].AwaitingNext?
    ensures var j' := DoGetNext(j, t); NothingLeaks(j') && FreedOnce(j') && NoStall(j')
  {
    var j' := DoGetNext(j, t);
    if NextJob(j.q).None? {
      WorkerEnds(j, j', t);
    } else {
      WorkerMoves(j, j', t, Starting(NextJob(j.q).value));
    }
  }

  lemma GetNextKeepsOrder(j: JobSide, t: ThreadId)
    requires JobInv(j) && t in j.workers && j.workers[t].AwaitingNext?
    ensures InOrder(DoGetNext(j, t))
  {
    var j' := DoGetNext(j, t);
    if NextJob(j.q).Some? {
      assert j'.started + j'.q.jobQueue == j.started + j.q.jobQueue;
    }
  }

  lemma GetNextKeeps(j: JobSide, t: ThreadId)
    requires JobInv(j) && t in j.workers && j.workers[t].AwaitingNext?
    ensures JobInv(DoGetNext(j, t))
  {
    GetNextKeepsOwnership(j, t);
    GetNextKeepsAccounts(j, t);
    GetNextKeepsOrder(j, t);
  }

  // --- StartCupsJob up to the check of isCanceled ---

  lemma StartKeepsOwnership(j: JobSide, t: ThreadId, verified: bool)
    requires JobInv(j) && t in j.workers && j.workers[t].Starting?
    ensures var j' := DoStart(j, t, verified); Safe(j'.q) && AddersOwn(j') && SenderOwns(j')
  {
    var j' := DoStart(j, t, verified);
    WorkerMoves(j, j', t, j'.workers[t]);
  }

  lemma StartKeepsAccounts(j: JobSide, t: ThreadId, verified: bool)
    requires JobInv(j) && t in j.workers && j.workers[t].Starting?
    ensures var j' := DoStart(j, t, verified); NothingLeaks(j') && FreedOnce(j') && NoStall(j')
  {
    var j' := DoStart(j, t, verified);
    WorkerMoves(j, j', t, j'.workers[t]);
  }

  lemma StartKeeps(j: JobSide, t: ThreadId, verified: bool)
    requires JobInv(j) && t in j.workers && j.workers[t].Starting?
    ensures JobInv(DoStart(j, t, verified))
  {
    StartKeepsOwnership(j, t, verified);
    StartKeepsAccounts(j, t, verified);
  }

  // --- StartCupsJob returns ---

  lemma FinishKeepsOwnership(j: JobSide, t: ThreadId)
    requires JobInv(j) && t in j.workers && j.workers[t].Sending?
    ensures var j' := DoFinish(j, t); Safe(j'.q) && AddersOwn(j') && SenderOwns(j')
  {
    var j' := DoFinish(j, t);
    WorkerMoves(j, j', t, j'.workers[t]);
  }

  lemma FinishKeepsAccounts(j: JobSide, t: ThreadId)
    requires JobInv(j) && t in j.workers && j.workers[t].Sending?
    ensures var j' := DoFinish(j, t); NothingLeaks(j') && FreedOnce(j') && NoStall(j')
  {
    var j' := DoFinish(j, t);
    WorkerMoves(j, j', t, j'.workers[t]);
  }

  lemma FinishKeeps(j: JobSide, t: ThreadId)
    requires JobInv(j) && t in j.workers && j.workers[t].Sending?
    ensures JobInv(DoFinish(j, t))
  {
    FinishKeepsOwnership(j, t);
    FinishKeepsAccounts(j, t);
  }

  // --- JobSentCallback deletes the current job ---

  lemma SentCallbackKeepsOwnership(j: JobSide, t: ThreadId)
    requires JobInv(j) && t in j.workers && j.workers[t].Sent?
    ensures var j' := DoSentCallback(j, t); Safe(j'.q) && AddersOwn(j') && SenderOwns(j')
  {
    var j' := DoSentCallback(j, t);
    WorkerMoves(j, j', t, AwaitingNext);
  }

  lemma SentCallbackKeepsAccounts(j: JobSide, t: ThreadId)
    requires JobInv(j) && t in j.workers && j.workers[t].Sent?
    ensures var j' := DoSentCallback(j, t); NothingLeaks(j') && FreedOnce(j') && NoStall(j')
  {
    var j' := DoSentCallback(j, t);
    WorkerMoves(j, j', t, AwaitingNext);
    assert IsAwaiting(j', t);
  }

  lemma SentCallbackKeeps(j: JobSide, t: ThreadId)
    requires JobInv(j) && t in j.workers && j.workers[t].Sent?
    ensures JobInv(DoSentCallback(j, t))
  {
    SentCallbackKeepsOwnership(j, t);
    SentCallbackKeepsAccounts(j, t);
  }

  // --- A request deletes a queued job ---

  lemma RemoveKeepsOwnership(j: JobSide, id: string)
    requires JobInv(j) && InQueue(j, id)
    ensures var j' := DoRemove(j, id); Safe(j'.q) && AddersOwn(j') && SenderOwns(j')
  {
    var j' := DoRemove(j, id);
    WorkersStay(j, j');
    WithoutIndexElements(j.q.jobQueue, FirstWith(j.q.jobs, j.q.jobQueue, id));
  }

  lemma RemoveKeepsAccounts(j: JobSide, id: string)
    requires JobInv(j) && InQueue(j, id)
    ensures var j' := DoRemove(j, id); NothingLeaks(j') && FreedOnce(j') && NoStall(j')
  {
    var j' := DoRemove(j, id);
    WorkersStay(j, j');
    WithoutIndexElements(j.q.jobQueue, FirstWith(j.q.jobs, j.q.jobQueue, id));
  }

  lemma RemoveKeepsOrder(j: JobSide, id: string)
    requires JobInv(j) && InQueue(j, id)
    ensures InOrder(DoRemove(j, id))
  {
    var j' := DoRemove(j, id);
    var i := FirstWith(j.q.jobs, j.q.jobQueue, id);
    PlacesAreDisjoint(j);
    WithoutRemoved(j.started, j.q.jobQueue, i, j.added, j.removed);
    assert j.q.jobQueue[i] in j.q.jobQueue;
  }

  lemma RemoveKeeps(j: JobSide, id: string)
    requires JobInv(j) && InQueue(j, id)
    ensures JobInv(DoRemove(j, id))
  {
    RemoveKeepsOwnership(j, id);
    RemoveKeepsAccounts(j, id);
    RemoveKeepsOrder(j, id);
  }

  // --- A request flags the current job ---

  lemma FlagKeepsOwnership(j: JobSide, id: string)
    requires JobInv(j) && !InQueue(j, id)
    ensures var j' := DoFlag(j, id); Safe(j'.q) && AddersOwn(j') && SenderOwns(j')
  {
    var j' := DoFlag(j, id);
    WorkersStay(j, j');
  }

  lemma FlagKeepsAccounts(j: JobSide, id: string)
    requires JobInv(j) && !InQueue(j, id)
    ensures var j' := DoFlag(j, id); NothingLeaks(j') && FreedOnce(j') && NoStall(j')
  {
    var j' := DoFlag(j, id);
    WorkersStay(j, j');
  }

  lemma FlagKeeps(j: JobSide, id: string)
    requires JobInv(j) && !InQueue(j, id)
    ensures JobInv(DoFlag(j, id))
  {
    FlagKeepsOwnership(j, id);
    FlagKeepsAccounts(j, id);
  }
}
