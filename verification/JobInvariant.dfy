/**
 * Ownership, memory safety, order and liveness of the job side: what every action keeps.
 */
module JobInvariant {
  import opened Options
  import opened JobPipeline

  predicate NoDuplicates(hs: seq<Handle>) {
    forall i, j | 0 <= i < j < |hs| :: hs[i] != hs[j]
  }

  // ---------------------------------------------------------------------------------------
  // Statements
  // ---------------------------------------------------------------------------------------

  predicate IsAdding(j: JobSide, t: ThreadId, h: Handle) {
    t in j.workers && j.workers[t] == Adding(h)
  }

  predicate IsSending(j: JobSide, t: ThreadId) {
    t in j.workers && IsSender(j.workers[t])
  }

  predicate IsAwaiting(j: JobSide, t: ThreadId) {
    t in j.workers && j.workers[t].AwaitingNext?
  }

  /** Every pointer in the shared data leads to a live job, and to no job twice. */
  ghost predicate Safe(q: Queue) {
    && !q.dangling
    && (forall h | h in q.jobQueue :: h in q.jobs)
    && NoDuplicates(q.jobQueue)
    && (q.currentJob.Some? ==> q.currentJob.value in q.jobs && q.currentJob.value !in q.jobQueue)
  }

  /** A job still being added is its thread's alone. */
  ghost predicate AddersOwn(j: JobSide) {
    && (forall t, h | IsAdding(j, t, h) ::
          h in j.q.jobs && h !in j.q.jobQueue && j.q.currentJob != Some(h) && h !in j.added)
    && (forall t, u, h | IsAdding(j, t, h) && IsAdding(j, u, h) :: t == u)
  }

  /** There is one sender, and it sends the current job, exactly when there is a current job. */
  ghost predicate SenderOwns(j: JobSide) {
    && (forall t | IsSending(j, t) :: j.q.currentJob == Some(j.workers[t].job))
    && (forall t, u | IsSending(j, t) && IsSending(j, u) :: t == u)
    && (j.q.currentJob.Some? ==> exists t :: IsSending(j, t))
  }

  /** No leak: a live job is queued, current, or still being added. */
  ghost predicate NothingLeaks(j: JobSide) {
    forall h | h in j.q.jobs ::
      h in j.q.jobQueue || j.q.currentJob == Some(h) || exists t :: IsAdding(j, t, h)
  }

  /** Every job ever built is either live or has been deleted, once. */
  ghost predicate FreedOnce(j: JobSide) {
    && NoDuplicates(j.freed)
    && (forall h | h in j.freed :: h in j.built && h !in j.q.jobs)
    && (forall h | h in j.built :: h in j.q.jobs || h in j.freed)
    && (forall h | h in j.q.jobs :: h in j.built && j.q.jobs[h].serviceJobId == j.built[h])
  }

  /** No stall: a job waiting behind an idle sender has a thread on its way to start it. */
  ghost predicate NoStall(j: JobSide) {
    j.q.jobQueue != [] && j.q.currentJob.None? ==> exists t :: IsAwaiting(j, t)
  }

  /** The jobs of a list that are not in a set, in their order. */
  function Without(hs: seq<Handle>, gone: set<Handle>): seq<Handle> {
    if hs == [] then []
    else if hs[|hs| - 1] in gone then Without(hs[..|hs| - 1], gone)
    else Without(hs[..|hs| - 1], gone) + [hs[|hs| - 1]]
  }

  /** FIFO and conservation in one: started, then still queued, is what was added minus what was removed. */
  ghost predicate InOrder(j: JobSide) {
    && j.started + j.q.jobQueue == Without(j.added, j.removed)
    && NoDuplicates(j.added)
    && (forall h | h in j.removed :: h in j.added)
    && (forall h | h in j.added :: h in j.built)
    && (j.q.currentJob.Some? ==> j.started != [] && j.started[|j.started| - 1] == j.q.currentJob.value)
  }

  ghost predicate JobInv(j: JobSide) {
    && Safe(j.q)
    && AddersOwn(j)
    && SenderOwns(j)
    && NothingLeaks(j)
    && FreedOnce(j)
    && NoStall(j)
    && InOrder(j)
  }

  // ---------------------------------------------------------------------------------------
  // Lists
  // ---------------------------------------------------------------------------------------

  lemma WithoutIndexElements(hs: seq<Handle>, i: nat)
    requires i < |hs| && NoDuplicates(hs)
    ensures NoDuplicates(WithoutIndex(hs, i))
    ensures forall h :: h in WithoutIndex(hs, i) <==> h in hs && h != hs[i]
  {
  }

  lemma {:induction false} WithoutElements(hs: seq<Handle>, gone: set<Handle>)
    ensures forall h :: h in Without(hs, gone) <==> h in hs && h !in gone
  {
    if hs == [] {
    } else {
      WithoutElements(hs[..|hs| - 1], gone);
      assert hs == hs[..|hs| - 1] + [hs[|hs| - 1]];
    }
  }

  lemma {:induction false} WithoutAppend(hs: seq<Handle>, h: Handle, gone: set<Handle>)
    requires h !in gone
    ensures Without(hs + [h], gone) == Without(hs, gone) + [h]
  {
  }

  lemma {:induction false} WithoutTwice(hs: seq<Handle>, gone: set<Handle>, h: Handle)
    ensures Without(hs, gone + {h}) == Without(Without(hs, gone), {h})
  {
    if hs == [] {
    } else {
      var front, last := hs[..|hs| - 1], hs[|hs| - 1];
      WithoutTwice(front, gone, h);
      if last !in gone {
        var w := Without(front, gone);
        assert (w + [last])[..|w|] == w;
      }
    }
  }

  lemma {:induction false} WithoutOther(hs: seq<Handle>, h: Handle)
    requires h !in hs
    ensures Without(hs, {h}) == hs
  {
    if hs == [] {
    } else {
      assert hs == hs[..|hs| - 1] + [hs[|hs| - 1]];
      WithoutOther(hs[..|hs| - 1], h);
    }
  }

  lemma {:induction false} WithoutConcat(a: seq<Handle>, b: seq<Handle>, gone: set<Handle>)
    ensures Without(a + b, gone) == Without(a, gone) + Without(b, gone)
  {
    if b == [] {
      assert a + b == a;
    } else {
      var last := b[|b| - 1];
      assert (a + b)[..|a + b| - 1] == a + b[..|b| - 1];
      WithoutConcat(a, b[..|b| - 1], gone);
    }
  }

  /** Dropping the element at an index of a list that holds it once. */
  lemma {:induction false} WithoutOne(hs: seq<Handle>, i: nat)
    requires i < |hs| && NoDuplicates(hs)
    ensures Without(hs, {hs[i]}) == WithoutIndex(hs, i)
  {
    var before, h, after := hs[..i], hs[i], hs[i + 1..];
    assert hs == before + [h] + after;
    WithoutConcat(before + [h], after, {h});
    WithoutConcat(before, [h], {h});
    WithoutOther(before, h);
    WithoutOther(after, h);
    assert Without([h], {h}) == [];
  }

  lemma {:induction false} WithoutRemoved(
      started: seq<Handle>, queued: seq<Handle>, i: nat, added: seq<Handle>, removed: set<Handle>)
    requires i < |queued| && NoDuplicates(started + queued)
    requires started + queued == Without(added, removed)
    ensures started + WithoutIndex(queued, i) == Without(added, removed + {queued[i]})
  {
    var all := started + queued;
    WithoutTwice(added, removed, queued[i]);
    WithoutOne(all, |started| + i);
    assert started + WithoutIndex(queued, i) == WithoutIndex(all, |started| + i);
  }

  lemma {:induction false} WithoutNoDuplicates(hs: seq<Handle>, gone: set<Handle>)
    requires NoDuplicates(hs)
    ensures NoDuplicates(Without(hs, gone))
  {
    if hs == [] {
    } else {
      WithoutNoDuplicates(hs[..|hs| - 1], gone);
      WithoutElements(hs[..|hs| - 1], gone);
    }
  }

  lemma AppendNoDuplicates(hs: seq<Handle>, h: Handle)
    requires NoDuplicates(hs) && h !in hs
    ensures NoDuplicates(hs + [h])
  {
  }

  /** A job that has been started or is queued is neither of the two twice, and was not removed. */
  lemma {:induction false} PlacesAreDisjoint(j: JobSide)
    requires InOrder(j)
    ensures NoDuplicates(j.started + j.q.jobQueue)
    ensures forall h :: h in j.started || h in j.q.jobQueue <==> h in j.added && h !in j.removed
    ensures forall h | h in j.started :: h !in j.q.jobQueue
  {
    WithoutNoDuplicates(j.added, j.removed);
    WithoutElements(j.added, j.removed);
    var all := j.started + j.q.jobQueue;
    forall h | h in j.started
      ensures h !in j.q.jobQueue
    {
      var i :| 0 <= i < |j.started| && j.started[i] == h;
      assert all[i] == h;
      assert forall k | 0 <= k < |j.q.jobQueue| :: all[|j.started| + k] == j.q.jobQueue[k];
    }
    assert forall h :: h in all <==> h in j.started || h in j.q.jobQueue;
  }

  // ---------------------------------------------------------------------------------------
  // Threads
  // ---------------------------------------------------------------------------------------

  /** What a thread's next program point changes about who adds, sends and waits. */
  lemma WorkerMoves(j: JobSide, j': JobSide, t: ThreadId, w: Worker)
    requires j'.workers == j.workers[t := w]
    ensures forall u, h {:trigger IsAdding(j, u, h)} {:trigger IsAdding(j', u, h)} ::
              IsAdding(j', u, h) <==> if u == t then w == Adding(h) else IsAdding(j, u, h)
    ensures forall u {:trigger IsSending(j, u)} {:trigger IsSending(j', u)} ::
              IsSending(j', u) <==> if u == t then IsSender(w) else IsSending(j, u)
    ensures forall u {:trigger IsAwaiting(j, u)} {:trigger IsAwaiting(j', u)} ::
              IsAwaiting(j', u) <==> if u == t then w.AwaitingNext? else IsAwaiting(j, u)
  {
  }

  lemma WorkerEnds(j: JobSide, j': JobSide, t: ThreadId)
    requires j'.workers == j.workers - {t}
    ensures forall u, h {:trigger IsAdding(j, u, h)} {:trigger IsAdding(j', u, h)} ::
              IsAdding(j', u, h) <==> u != t && IsAdding(j, u, h)
    ensures forall u {:trigger IsSending(j, u)} {:trigger IsSending(j', u)} ::
              IsSending(j', u) <==> u != t && IsSending(j, u)
    ensures forall u {:trigger IsAwaiting(j, u)} {:trigger IsAwaiting(j', u)} ::
              IsAwaiting(j', u) <==> u != t && IsAwaiting(j, u)
  {
  }

  lemma WorkersStay(j: JobSide, j': JobSide)
    requires j'.workers == j.workers
    ensures forall u, h {:trigger IsAdding(j, u, h)} {:trigger IsAdding(j', u, h)} ::
              IsAdding(j', u, h) <==> IsAdding(j, u, h)
    ensures forall u {:trigger IsSending(j, u)} {:trigger IsSending(j', u)} :: IsSending(j', u) <==> IsSending(j, u)
    ensures forall u {:trigger IsAwaiting(j, u)} {:trigger IsAwaiting(j', u)} :: IsAwaiting(j', u) <==> IsAwaiting(j, u)
  {
  }
}
