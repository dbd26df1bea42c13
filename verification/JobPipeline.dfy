/**
 * The job pipeline of PrintCupsClient as a transition system: any number of threads, one atomic
 * action per critical section of jobMutex and jobMonitorMutex_ (and per atomic flag access), and
 * program points for the unlocked windows between them.
 *
 * JobParameters live in an explicit heap, so that every dereference and every delete of the
 * source can go wrong in the model: it does as soon as `dangling` is set.
 */
module JobPipeline {
  import opened Options
  import opened JobMonitor

  /** The identity of an allocated object. */
  type Handle = nat

  type ThreadId = nat

  datatype JobParameters = JobParameters(serviceJobId: string, isCanceled: bool)

  // ---------------------------------------------------------------------------------------
  // What jobMutex guards
  // ---------------------------------------------------------------------------------------

  datatype Queue = Queue(
    jobs: map<Handle, JobParameters>,   // the JobParameters not yet deleted
    jobQueue: seq<Handle>,
    currentJob: Option<Handle>,
    dangling: bool)                     // some pointer to a deleted job has been followed

  function Touched(q: Queue, h: Handle): Queue {
    q.(dangling := q.dangling || h !in q.jobs)
  }

  function Deleted(q: Queue, h: Handle): Queue {
    q.(dangling := q.dangling || h !in q.jobs, jobs := q.jobs - {h})
  }

  /** GetNextJob: the job taken, if any. */
  function NextJob(q: Queue): Option<Handle> {
    if q.jobQueue != [] && q.currentJob.None? then Some(q.jobQueue[0]) else None
  }

  /** GetNextJob: when a job is being sent, the last queued one is looked at for a QUEUED report. */
  function NextTaken(q: Queue): Queue {
    if q.jobQueue == [] then q
    else if q.currentJob.None? then q.(currentJob := Some(q.jobQueue[0]), jobQueue := q.jobQueue[1..])
    else Touched(q, q.jobQueue[|q.jobQueue| - 1])
  }

  /** JobSentCallback: whatever is current is deleted. */
  function CurrentDeleted(q: Queue): Queue {
    if q.currentJob.None? then q else Deleted(q, q.currentJob.value).(currentJob := None)
  }

  predicate HasId(jobs: map<Handle, JobParameters>, h: Handle, id: string) {
    h in jobs && jobs[h].serviceJobId == id
  }

  /** The search loop of CancelCupsJob and InterruptCupsJob: the index of the first match, or the length. */
  function FirstWith(jobs: map<Handle, JobParameters>, hs: seq<Handle>, id: string): (i: nat)
    ensures i <= |hs|
    ensures i < |hs| ==> HasId(jobs, hs[i], id)
    ensures forall k | 0 <= k < i :: !HasId(jobs, hs[k], id)
  {
    if hs == [] || HasId(jobs, hs[0], id) then 0 else 1 + FirstWith(jobs, hs[1..], id)
  }

  /** The queue after the search: every job up to the match has been dereferenced. */
  function Searched(q: Queue, id: string): Queue {
    var i := FirstWith(q.jobs, q.jobQueue, id);
    q.(dangling := q.dangling || exists k | 0 <= k < |q.jobQueue| :: k <= i && q.jobQueue[k] !in q.jobs)
  }

  function WithoutIndex(hs: seq<Handle>, i: nat): seq<Handle>
    requires i < |hs|
  {
    hs[..i] + hs[i + 1..]
  }

  /** A queued job is deleted and erased. */
  function QueuedRemoved(q: Queue, i: nat): Queue
    requires i < |q.jobQueue|
  {
    Deleted(q, q.jobQueue[i]).(jobQueue := WithoutIndex(q.jobQueue, i))
  }

  /** The current job, if it is the one, is flagged. */
  function CurrentFlagged(q: Queue, id: string): Queue {
    if q.currentJob.None? then q
    else
      var h := q.currentJob.value;
      if HasId(q.jobs, h, id) then q.(jobs := q.jobs[h := q.jobs[h].(isCanceled := true)]) else Touched(q, h)
  }

  // ---------------------------------------------------------------------------------------
  // What jobMonitorMutex_ guards
  // ---------------------------------------------------------------------------------------

  /** The monitor objects are held by shared pointers: one that is referred to is never deleted. */
  datatype Watch = Watch(
    monitors: map<Handle, Monitor>,
    jobMonitorList: seq<Handle>,
    isMonitoringRunning: bool)

  /** Push and exchange of HandleFilesAndStartMonitoring; a loop is started if none was running. */
  function Published(w: Watch, m: Handle, monitor: Monitor): Watch {
    w.(monitors := w.monitors[m := monitor], jobMonitorList := w.jobMonitorList + [m], isMonitoringRunning := true)
  }

  predicate MonitorHasId(monitors: map<Handle, Monitor>, m: Handle, id: string) {
    m in monitors && monitors[m].serviceJobId == id
  }

  /** std::find_if over jobMonitorList_ */
  function FirstMonitor(monitors: map<Handle, Monitor>, ms: seq<Handle>, id: string): (i: nat)
    ensures i <= |ms|
    ensures i < |ms| ==> MonitorHasId(monitors, ms[i], id)
    ensures forall k | 0 <= k < i :: !MonitorHasId(monitors, ms[k], id)
  {
    if ms == [] || MonitorHasId(monitors, ms[0], id) then 0 else 1 + FirstMonitor(monitors, ms[1..], id)
  }

  function FoundMonitor(w: Watch, id: string): Option<Handle> {
    var i := FirstMonitor(w.monitors, w.jobMonitorList, id);
    if i < |w.jobMonitorList| then Some(w.jobMonitorList[i]) else None
  }

  function MonitorCanceled(w: Watch, m: Handle): Watch {
    if m in w.monitors then w.(monitors := w.monitors[m := w.monitors[m].(isCanceled := true)]) else w
  }

  function MonitorInterrupted(w: Watch, m: Handle): Watch {
    if m in w.monitors then w.(monitors := w.monitors[m := w.monitors[m].(isInterrupt := true)]) else w
  }

  function IndexOf(ms: seq<Handle>, m: Handle): (i: nat)
    ensures i <= |ms|
    ensures i < |ms| ==> ms[i] == m
    ensures i < |ms| <==> m in ms
    ensures forall k | 0 <= k < i :: ms[k] != m
  {
    if ms == [] || ms[0] == m then 0 else 1 + IndexOf(ms[1..], m)
  }

  /** std::find and erase of a completed job */
  function MonitorErased(w: Watch, m: Handle): Watch {
    var i := IndexOf(w.jobMonitorList, m);
    if i < |w.jobMonitorList| then w.(jobMonitorList := WithoutIndex(w.jobMonitorList, i)) else w
  }

  /** The end of a pass: the loop stops, and says so, exactly when the list is empty. */
  function PassEnded(w: Watch): Watch {
    w.(isMonitoringRunning := w.isMonitoringRunning && w.jobMonitorList != [])
  }

  // ---------------------------------------------------------------------------------------
  // Threads
  // ---------------------------------------------------------------------------------------

  /** Threads that move jobs: callers of AddCupsPrintJob and the detached sender threads. */
  datatype Worker =
    | Adding(job: Handle)       // built, not yet in the queue
    | AwaitingNext              // about to call GetNextJob, from AddCupsPrintJob or JobSentCallback
    | Starting(job: Handle)     // in StartCupsJob, before isCanceled is read
    | Sending(job: Handle)      // isCanceled was read as false; files are being sent
    | Sent(job: Handle)         // StartCupsJob has returned, JobSentCallback is next

  /** The part of a worker's life in which it owns the current job. */
  predicate IsSender(w: Worker) {
    w.Starting? || w.Sending? || w.Sent?
  }

  datatype RequestKind = Cancel | Interrupt

  /** Callers of CancelCupsJob and InterruptCupsJob between their critical sections. */
  datatype Requester =
    | SearchingMonitors(kind: RequestKind, id: string)
    | MarkingInterrupt(monitor: Handle)

  /** StartMonitor loops. A pass is the unlocked rest of the snapshot; its head is being evaluated. */
  datatype Watcher =
    | Idle                              // about to take a snapshot
    | Passing(pass: seq<Handle>)        // about to evaluate the head, or at the end of the pass
    | NotCanceled(pass: seq<Handle>)    // isCanceled has been dealt with
    | Querying(pass: seq<Handle>)       // isInterrupt was read as false
    | Erasing(pass: seq<Handle>)        // the evaluation said to stop

  predicate IsEvaluating(w: Watcher) {
    w.NotCanceled? || w.Querying? || w.Erasing?
  }

  // ---------------------------------------------------------------------------------------
  // States: shared data, threads, and the history of both
  // ---------------------------------------------------------------------------------------

  datatype JobSide = JobSide(
    q: Queue,
    workers: map<ThreadId, Worker>,
    built: map<Handle, string>,         // every job ever built, with its id
    added: seq<Handle>,                 // pushed to the queue, in this order
    started: seq<Handle>,               // became current, in this order
    removed: set<Handle>,               // erased from the queue by a request
    freed: seq<Handle>)                 // deleted

  datatype WatchSide = WatchSide(
    w: Watch,
    watchers: map<ThreadId, Watcher>,
    origin: map<Handle, Handle>,        // the job each monitor object was published for
    erased: seq<Handle>,                // erased from the monitored list
    lost: bool,                         // the "completed job lost" branch was taken
    log: map<Handle, seq<Report>>)      // the monitor loop's reports about each monitor object

  datatype State = State(j: JobSide, w: WatchSide, requests: map<ThreadId, Requester>)

  const INITIAL := State(
    JobSide(Queue(map[], [], None, false), map[], map[], [], [], {}, []),
    WatchSide(Watch(map[], [], false), map[], map[], [], false, map[]),
    map[])

  datatype Action =
    | BuildJob(t: ThreadId, h: Handle, id: string)
    | PushJob(t: ThreadId)
    | GetNextJob(t: ThreadId)
    | StartJob(t: ThreadId, verified: bool)
    | FailSending(t: ThreadId)
    | Publish(t: ThreadId, m: Handle, mt: ThreadId, hasService: bool, isIppOverUsb: bool, make: string)
    | SentCallback(t: ThreadId)
    | SearchQueue(t: ThreadId, kind: RequestKind, id: string)
    | SearchMonitors(t: ThreadId)
    | MarkInterrupt(t: ThreadId)
    | TakeSnapshot(t: ThreadId)
    | ReadCanceled(t: ThreadId, cancelOk: bool)
    | ReadInterrupt(t: ThreadId)
    | QueryState(t: ThreadId, poll: Poll)
    | EraseCompleted(t: ThreadId)
    | EndPass(t: ThreadId)

  predicate Enabled(s: State, a: Action) {
    match a
    case BuildJob(t, h, _) => t !in s.j.workers && h !in s.j.built
    case PushJob(t) => t in s.j.workers && s.j.workers[t].Adding?
    case GetNextJob(t) => t in s.j.workers && s.j.workers[t].AwaitingNext?
    case StartJob(t, _) => t in s.j.workers && s.j.workers[t].Starting?
    case FailSending(t) => t in s.j.workers && s.j.workers[t].Sending?
    case Publish(t, m, mt, _, _, _) =>
      t in s.j.workers && s.j.workers[t].Sending? && m !in s.w.w.monitors && mt !in s.w.watchers
    case SentCallback(t) => t in s.j.workers && s.j.workers[t].Sent?
    case SearchQueue(t, _, _) => t !in s.requests
    case SearchMonitors(t) => t in s.requests && s.requests[t].SearchingMonitors?
    case MarkInterrupt(t) => t in s.requests && s.requests[t].MarkingInterrupt?
    case TakeSnapshot(t) => t in s.w.watchers && s.w.watchers[t].Idle?
    case ReadCanceled(t, _) => AtHead(s.w, t) && s.w.watchers[t].Passing?
    case ReadInterrupt(t) => AtHead(s.w, t) && s.w.watchers[t].NotCanceled?
    case QueryState(t, poll) => AtHead(s.w, t) && s.w.watchers[t].Querying? && ValidPoll(poll)
    case EraseCompleted(t) => AtHead(s.w, t) && s.w.watchers[t].Erasing?
    case EndPass(t) => t in s.w.watchers && s.w.watchers[t] == Passing([])
  }

  /** The loop is dealing with a monitor object it holds. */
  predicate AtHead(w: WatchSide, t: ThreadId) {
    t in w.watchers && !w.watchers[t].Idle? && w.watchers[t].pass != [] &&
    w.watchers[t].pass[0] in w.w.monitors && WellFormed(w.w.monitors[w.watchers[t].pass[0]])
  }

  // --- job side --------------------------------------------------------------------------

  function DoBuild(j: JobSide, t: ThreadId, h: Handle, id: string): JobSide {
    j.(q := j.q.(jobs := j.q.jobs[h := JobParameters(id, false)]),
       workers := j.workers[t := Adding(h)],
       built := j.built[h := id])
  }

  function DoPush(j: JobSide, t: ThreadId): JobSide
    requires t in j.workers && j.workers[t].Adding?
  {
    var h := j.workers[t].job;
    j.(q := j.q.(jobQueue := j.q.jobQueue + [h]), workers := j.workers[t := AwaitingNext], added := j.added + [h])
  }

  function DoGetNext(j: JobSide, t: ThreadId): JobSide {
    match NextJob(j.q)
    case None => j.(q := NextTaken(j.q), workers := j.workers - {t})
    case Some(h) => j.(q := NextTaken(j.q), workers := j.workers[t := Starting(h)], started := j.started + [h])
  }

  /** StartCupsJob up to the read of isCanceled; it returns early when verification fails or the flag is set. */
  function DoStart(j: JobSide, t: ThreadId, verified: bool): JobSide
    requires t in j.workers && j.workers[t].Starting?
  {
    var h := j.workers[t].job;
    var canceled := h in j.q.jobs && j.q.jobs[h].isCanceled;
    j.(q := Touched(j.q, h), workers := j.workers[t := if verified && !canceled then Sending(h) else Sent(h)])
  }

  /** HandleFiles or the monitor connection fails, or all is done: StartCupsJob returns. */
  function DoFinish(j: JobSide, t: ThreadId): JobSide
    requires t in j.workers && j.workers[t].Sending?
  {
    var h := j.workers[t].job;
    j.(q := Touched(j.q, h), workers := j.workers[t := Sent(h)])
  }

  function DoSentCallback(j: JobSide, t: ThreadId): JobSide {
    j.(q := CurrentDeleted(j.q),
       workers := j.workers[t := AwaitingNext],
       freed := j.freed + if j.q.currentJob.Some? then [j.q.currentJob.value] else [])
  }

  predicate InQueue(j: JobSide, id: string) {
    FirstWith(j.q.jobs, j.q.jobQueue, id) < |j.q.jobQueue|
  }

  function DoRemove(j: JobSide, id: string): JobSide
    requires InQueue(j, id)
  {
    var q := Searched(j.q, id);
    var i := FirstWith(j.q.jobs, j.q.jobQueue, id);
    j.(q := QueuedRemoved(q, i), removed := j.removed + {q.jobQueue[i]}, freed := j.freed + [q.jobQueue[i]])
  }

  function DoFlag(j: JobSide, id: string): JobSide {
    j.(q := CurrentFlagged(Searched(j.q, id), id))
  }

  // --- monitor side ----------------------------------------------------------------------

  function DoPublish(w: WatchSide, m: Handle, monitor: Monitor, h: Handle, mt: ThreadId): WatchSide {
    w.(w := Published(w.w, m, monitor),
       watchers := if w.w.isMonitoringRunning then w.watchers else w.watchers[mt := Idle],
       origin := w.origin[m := h],
       log := w.log[m := []])
  }

  function Logged(w: WatchSide, m: Handle, reports: seq<Report>): WatchSide {
    w.(log := w.log[m := (if m in w.log then w.log[m] else []) + reports])
  }

  function DoSnapshot(w: WatchSide, t: ThreadId): WatchSide {
    w.(watchers := w.watchers[t := Passing(w.w.jobMonitorList)])
  }

  /** Records an outcome for the head of the pass and moves the loop on. */
  function Advanced(w: WatchSide, t: ThreadId, o: Outcome, proceed: Watcher): WatchSide
    requires AtHead(w, t)
  {
    var pass := w.watchers[t].pass;
    var next := match o.verdict
      case Proceed => proceed
      case Keep => Passing(pass[1..])
      case Drop => Erasing(pass);
    Logged(w, pass[0], o.reports).(
      w := w.w.(monitors := w.w.monitors[pass[0] := o.m]),
      watchers := w.watchers[t := next])
  }

  function Head(w: WatchSide, t: ThreadId): Handle
    requires AtHead(w, t)
  {
    w.watchers[t].pass[0]
  }

  function DoReadCanceled(w: WatchSide, t: ThreadId, cancelOk: bool): WatchSide
    requires AtHead(w, t)
  {
    Advanced(w, t, CheckCanceled(w.w.monitors[Head(w, t)], cancelOk), NotCanceled(w.watchers[t].pass))
  }

  function DoReadInterrupt(w: WatchSide, t: ThreadId): WatchSide
    requires AtHead(w, t)
  {
    Advanced(w, t, CheckInterrupt(w.w.monitors[Head(w, t)]), Querying(w.watchers[t].pass))
  }

  function DoQuery(w: WatchSide, t: ThreadId, poll: Poll): WatchSide
    requires AtHead(w, t) && ValidPoll(poll)
  {
    Advanced(w, t, Query(w.w.monitors[Head(w, t)], poll), Passing(w.watchers[t].pass))
  }

  function DoErase(w: WatchSide, t: ThreadId): WatchSide
    requires AtHead(w, t)
  {
    var m, rest := Head(w, t), w.watchers[t].pass[1..];
    if m in w.w.jobMonitorList then
      w.(w := MonitorErased(w.w, m), watchers := w.watchers[t := Passing(rest)], erased := w.erased + [m])
    else
      w.(lost := true, watchers := w.watchers[t := Passing(rest)])
  }

  function DoEndPass(w: WatchSide, t: ThreadId): WatchSide {
    w.(w := PassEnded(w.w),
       watchers := if w.w.jobMonitorList == [] then w.watchers - {t} else w.watchers[t := Idle])
  }

  // --- whole states ----------------------------------------------------------------------

  function DoPublishJob(s: State, t: ThreadId, m: Handle, mt: ThreadId, hasService: bool, usb: bool, make: string)
    : State
    requires t in s.j.workers && s.j.workers[t].Sending?
  {
    var h := s.j.workers[t].job;
    var id := if h in s.j.q.jobs then s.j.q.jobs[h].serviceJobId else "";
    s.(j := DoFinish(s.j, t), w := DoPublish(s.w, m, NewMonitor(hasService, id, usb, make), h, mt))
  }

  function DoSearchQueue(s: State, t: ThreadId, kind: RequestKind, id: string): State {
    if InQueue(s.j, id) then s.(j := DoRemove(s.j, id))
    else s.(j := DoFlag(s.j, id), requests := s.requests[t := SearchingMonitors(kind, id)])
  }

  function DoSearchMonitors(s: State, t: ThreadId): State
    requires t in s.requests && s.requests[t].SearchingMonitors?
  {
    match FoundMonitor(s.w.w, s.requests[t].id)
    case None => s.(requests := s.requests - {t})
    case Some(m) =>
      if s.requests[t].kind.Cancel?
      then s.(w := s.w.(w := MonitorCanceled(s.w.w, m)), requests := s.requests - {t})
      else s.(requests := s.requests[t := MarkingInterrupt(m)])
  }

  function DoMarkInterrupt(s: State, t: ThreadId): State
    requires t in s.requests && s.requests[t].MarkingInterrupt?
  {
    s.(w := s.w.(w := MonitorInterrupted(s.w.w, s.requests[t].monitor)), requests := s.requests - {t})
  }

  /** The state after an action. */
  function Apply(s: State, a: Action): State
    requires Enabled(s, a)
  {
    match a
    case BuildJob(t, h, id) => s.(j := DoBuild(s.j, t, h, id))
    case PushJob(t) => s.(j := DoPush(s.j, t))
    case GetNextJob(t) => s.(j := DoGetNext(s.j, t))
    case StartJob(t, verified) => s.(j := DoStart(s.j, t, verified))
    case FailSending(t) => s.(j := DoFinish(s.j, t))
    case Publish(t, m, mt, hasService, usb, make) => DoPublishJob(s, t, m, mt, hasService, usb, make)
    case SentCallback(t) => s.(j := DoSentCallback(s.j, t))
    case SearchQueue(t, kind, id) => DoSearchQueue(s, t, kind, id)
    case SearchMonitors(t) => DoSearchMonitors(s, t)
    case MarkInterrupt(t) => DoMarkInterrupt(s, t)
    case TakeSnapshot(t) => s.(w := DoSnapshot(s.w, t))
    case ReadCanceled(t, cancelOk) => s.(w := DoReadCanceled(s.w, t, cancelOk))
    case ReadInterrupt(t) => s.(w := DoReadInterrupt(s.w, t))
    case QueryState(t, poll) => s.(w := DoQuery(s.w, t, poll))
    case EraseCompleted(t) => s.(w := DoErase(s.w, t))
    case EndPass(t) => s.(w := DoEndPass(s.w, t))
  }

  /** Every action was possible when it happened. */
  predicate ValidRun(s: State, actions: seq<Action>)
    decreases |actions|
  {
    actions == [] || (Enabled(s, actions[0]) && ValidRun(Apply(s, actions[0]), actions[1..]))
  }

  /** The state after a run. */
  function After(s: State, actions: seq<Action>): State
    requires ValidRun(s, actions)
    decreases |actions|
  {
    if actions == [] then s else After(Apply(s, actions[0]), actions[1..])
  }

  /** Runs from the initial state. */
  ghost predicate Reachable(s: State) {
    exists actions :: ValidRun(INITIAL, actions) && After(INITIAL, actions) == s
  }
}
