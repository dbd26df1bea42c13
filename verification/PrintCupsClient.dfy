/**
 * The critical sections of PrintCupsClient in place: one method per section, proved to do to the
 * object what the pipeline's transition functions do to its abstract value.
 */
module PrintCupsClient {
  import opened Options
  import opened JobMonitor
  import opened JobPipeline

  class PrintCupsClient {
    // jobMutex
    var jobs: map<Handle, JobParameters>      // the heap cells of the JobParameters
    var jobQueue: seq<Handle>
    var currentJob: Option<Handle>
    ghost var dangling: bool

    // jobMonitorMutex_
    var monitors: map<Handle, Monitor>        // the objects behind the shared pointers
    var jobMonitorList: seq<Handle>
    var isMonitoringRunning: bool

    ghost function Jobs(): Queue
      reads this
    {
      Queue(jobs, jobQueue, currentJob, dangling)
    }

    function Monitoring(): Watch
      reads this
    {
      Watch(monitors, jobMonitorList, isMonitoringRunning)
    }

    constructor ()
      ensures Jobs() == INITIAL.j.q && Monitoring() == INITIAL.w.w
    {
      jobs, jobQueue, currentJob, dangling := map[], [], None, false;
      monitors, jobMonitorList, isMonitoringRunning := map[], [], false;
    }

    // --- jobMutex ------------------------------------------------------------------------

    /** AddCupsPrintJob: the section before StartNextJob. */
    method PushJob(h: Handle)
      modifies this
      ensures Jobs() == old(Jobs()).(jobQueue := old(jobQueue) + [h]) && Monitoring() == old(Monitoring())
    {
      jobQueue := jobQueue + [h];
    }

    method GetNextJob() returns (next: Option<Handle>)
      modifies this
      ensures next == NextJob(old(Jobs())) && Jobs() == NextTaken(old(Jobs())) && Monitoring() == old(Monitoring())
    {
      if jobQueue == [] {
        return None;
      }
      if currentJob.None? {
        currentJob := Some(jobQueue[0]);
        jobQueue := jobQueue[1..];
        return currentJob;
      }
      var lastJob := jobQueue[|jobQueue| - 1];
      dangling := dangling || lastJob !in jobs;
      return None;
    }

    method JobSentCallback()
      modifies this
      ensures Jobs() == CurrentDeleted(old(Jobs())) && Monitoring() == old(Monitoring())
    {
      if currentJob.Some? {
        Delete(currentJob.value);
        currentJob := None;
      }
    }

    method Delete(h: Handle)
      modifies this
      ensures Jobs() == Deleted(old(Jobs()), h) && Monitoring() == old(Monitoring())
    {
      dangling := dangling || h !in jobs;
      jobs := jobs - {h};
    }

    /** The search loop both kinds of request begin with. */
    method FindQueued(id: string) returns (jobIndex: int)
      modifies this
      ensures Jobs() == Searched(old(Jobs()), id) && Monitoring() == old(Monitoring())
      ensures jobIndex == if FirstWith(jobs, jobQueue, id) < |jobQueue| then FirstWith(jobs, jobQueue, id) else -1
    {
      jobIndex := -1;
      var index := 0;
      ghost var before := dangling;
      while index < |jobQueue|
        invariant 0 <= index <= |jobQueue|
        invariant Jobs() == old(Jobs()).(dangling := dangling) && Monitoring() == old(Monitoring())
        invariant forall k | 0 <= k < index :: !HasId(jobs, jobQueue[k], id)
        invariant dangling <==> before || exists k | 0 <= k < index :: jobQueue[k] !in jobs
      {
        var h := jobQueue[index];
        dangling := dangling || h !in jobs;
        if h in jobs && jobs[h].serviceJobId == id {
          jobIndex := index;
          FirstWithIs(jobs, jobQueue, id, index);
          return;
        }
        index := index + 1;
      }
      FirstWithIs(jobs, jobQueue, id, index);
    }

    /** CancelCupsJob and InterruptCupsJob, first section: delete a queued job, or flag the current one. */
    method RemoveOrFlag(id: string) returns (removed: bool)
      modifies this
      ensures var q, i := Searched(old(Jobs()), id), FirstWith(old(jobs), old(jobQueue), id);
        (removed <==> i < |old(jobQueue)|) && Monitoring() == old(Monitoring()) &&
        Jobs() == if i < |old(jobQueue)| then QueuedRemoved(q, i) else CurrentFlagged(q, id)
    {
      var jobIndex := FindQueued(id);
      removed := jobIndex >= 0;
      if removed {
        RemoveAt(jobIndex);
      } else {
        FlagCurrent(id);
      }
    }

    /** delete and erase */
    method RemoveAt(jobIndex: nat)
      requires jobIndex < |jobQueue|
      modifies this
      ensures Jobs() == QueuedRemoved(old(Jobs()), jobIndex) && Monitoring() == old(Monitoring())
    {
      Delete(jobQueue[jobIndex]);
      jobQueue := jobQueue[..jobIndex] + jobQueue[jobIndex + 1..];
    }

    method FlagCurrent(id: string)
      modifies this
      ensures Jobs() == CurrentFlagged(old(Jobs()), id) && Monitoring() == old(Monitoring())
    {
      if currentJob.Some? {
        var h := currentJob.value;
        dangling := dangling || h !in jobs;
        if h in jobs && jobs[h].serviceJobId == id {
          jobs := jobs[h := jobs[h].(isCanceled := true)];
        }
      }
    }

    // --- jobMonitorMutex_ ----------------------------------------------------------------

    /** HandleFilesAndStartMonitoring: push, and start a loop if none is running. */
    method PublishMonitor(m: Handle, monitor: Monitor) returns (startMonitor: bool)
      modifies this
      ensures startMonitor == !old(isMonitoringRunning)
      ensures Monitoring() == Published(old(Monitoring()), m, monitor) && Jobs() == old(Jobs())
    {
      monitors := monitors[m := monitor];
      jobMonitorList := jobMonitorList + [m];
      startMonitor := !isMonitoringRunning;
      isMonitoringRunning := true;
    }

    /** std::find_if by service job id */
    method FindMonitor(id: string) returns (m: Option<Handle>)
      ensures m == FoundMonitor(Monitoring(), id)
    {
      var index := 0;
      while index < |jobMonitorList|
        invariant 0 <= index <= |jobMonitorList|
        invariant forall k | 0 <= k < index :: !MonitorHasId(monitors, jobMonitorList[k], id)
      {
        var candidate := jobMonitorList[index];
        if candidate in monitors && monitors[candidate].serviceJobId == id {
          FirstMonitorIs(monitors, jobMonitorList, id, index);
          return Some(candidate);
        }
        index := index + 1;
      }
      FirstMonitorIs(monitors, jobMonitorList, id, index);
      m := None;
    }

    /** CancelCupsJob, second section: flag the monitored job, if there is one. */
    method CancelMonitored(id: string) returns (found: bool)
      modifies this
      ensures var m := FoundMonitor(old(Monitoring()), id);
        (found <==> m.Some?) && Jobs() == old(Jobs()) &&
        Monitoring() == if m.Some? then MonitorCanceled(old(Monitoring()), m.value) else old(Monitoring())
    {
      var m := FindMonitor(id);
      found := m.Some?;
      if found && m.value in monitors {
        monitors := monitors[m.value := monitors[m.value].(isCanceled := true)];
      }
    }

    /** StartMonitor: a completed job leaves the list. */
    method EraseCompleted(m: Handle) returns (lost: bool)
      modifies this
      ensures lost <==> m !in old(jobMonitorList)
      ensures Monitoring() == MonitorErased(old(Monitoring()), m) && Jobs() == old(Jobs())
    {
      var item := 0;
      while item < |jobMonitorList| && jobMonitorList[item] != m
        invariant 0 <= item <= |jobMonitorList|
        invariant forall k | 0 <= k < item :: jobMonitorList[k] != m
      {
        item := item + 1;
      }
      lost := item == |jobMonitorList|;
      if !lost {
        jobMonitorList := jobMonitorList[..item] + jobMonitorList[item + 1..];
      }
    }

    /** StartMonitor: the test at the end of a pass. */
    method EndPass() returns (isMonitor: bool)
      modifies this
      ensures isMonitor <==> old(jobMonitorList) != []
      ensures Monitoring() == PassEnded(old(Monitoring())) && Jobs() == old(Jobs())
    {
      isMonitor := jobMonitorList != [];
      if !isMonitor {
        isMonitoringRunning := false;
      }
    }
  }

  lemma {:induction false} FirstWithIs(jobs: map<Handle, JobParameters>, hs: seq<Handle>, id: string, i: nat)
    requires i <= |hs| && (i < |hs| ==> HasId(jobs, hs[i], id))
    requires forall k | 0 <= k < i :: !HasId(jobs, hs[k], id)
    ensures FirstWith(jobs, hs, id) == i
  {
  }

  lemma {:induction false} FirstMonitorIs(monitors: map<Handle, Monitor>, ms: seq<Handle>, id: string, i: nat)
    requires i <= |ms| && (i < |ms| ==> MonitorHasId(monitors, ms[i], id))
    requires forall k | 0 <= k < i :: !MonitorHasId(monitors, ms[k], id)
    ensures FirstMonitor(monitors, ms, id) == i
  {
  }
}
