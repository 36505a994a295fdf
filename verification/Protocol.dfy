/** The queue protocol as a state machine: any number of handlers and of webhook deliveries, interleaved
    at the level of Redis commands. One step of a handler sees the shared lists and its own three lists;
    taking over a paused job is the one step that reaches into another handler's plugin queue. */
module Protocol {
  import opened QueueJobs
  import opened JobQueue
  import opened Cleanup

  /* ----- handlers ----- */

  /** Where a handler's Run is. The job carried along is Run's local variable, not a list entry, except in
      Holding, where the entry has left one list and not reached the next. */
  datatype Pc =
    | Idle | Started | Ready | Selecting
    | AdSeen(ad: QueueJob) | AdHeld(ad: QueueJob) | AdFound(entry: QueueJob, owner: HandlerId)
    | MainSeen(job: QueueJob) | Holding(job: QueueJob, fromMain: bool)
    | Picked(job: QueueJob) | InPreparation(job: QueueJob) | Advertising(job: QueueJob) | Waiting(job: QueueJob)
    | Launched(job: QueueJob) | Watching | Stopping
    | CleaningUp(stage: CleanPc, onStartRun: bool)

  /** Where its cleanup is. Removing has found the completed event of its job and not yet removed it; Returning
      holds an entry popped off the cleaning list and not yet pushed. */
  datatype CleanPc =
    | Enter | Loop | Have(entry: QueueJob) | Settling(job: QueueJob) | Removing(job: QueueJob, event: QueueJob)
    | PurgeFinished(job: QueueJob) | PurgeCleaning(job: QueueJob)
    | Returning(job: QueueJob) | Returned(job: QueueJob) | Kept

  /** `limit` is job_retry_attempts; `abandoned` is a message in the paused-cancellation channel. */
  datatype Handler = Handler(pc: Pc, reason: Option<Reason>, abandoned: bool, limit: int)

  /** The history of a run, kept to state what it conserves. `lost` are entries taken off a list whose push to
      the next one never came, because the plugin's context was canceled; `doubled` are entries a handler took
      over that were no longer there when it removed them. */
  datatype Ledger = Ledger(
    enqueued: seq<QueueJob>, doubled: seq<QueueJob>, dropped: seq<QueueJob>, lost: seq<QueueJob>, retries: seq<JobId>,
    pushed: multiset<QueueJob>, claimed: multiset<QueueJob>)

  datatype View = View(
    main: seq<QueueJob>, inProgress: seq<QueueJob>, completed: seq<QueueJob>, paused: seq<QueueJob>,
    queue: seq<QueueJob>, cleaning: seq<QueueJob>, finished: seq<QueueJob>, me: Handler, book: Ledger)

  function At(v: View, pc: Pc): View {
    v.(me := v.me.(pc := pc))
  }

  /* ----- finding a job ----- */

  datatype SelectAction =
    | Begin | Stop | PickUp
    | SeeAd(at: nat) | PopAd | PutBackAd | LoseAd | PutBackAgain(ad: QueueJob)
    | SeeMain(at: nat) | PopMain | RejectOwner | Adopt
    | PopMainCanceled | CancelInHand

  predicate MayStop(pc: Pc) {
    !pc.Idle? && !pc.AdHeld? && !pc.Holding? && !pc.Stopping? && !pc.CleaningUp?
  }

  function SelectStep(v: View, a: SelectAction): View {
    match a
    case Begin =>
      if v.me.pc.Idle? then v.(me := v.me.(pc := Started, reason := None, abandoned := false)) else v
    case Stop =>
      if MayStop(v.me.pc) then At(v, Stopping) else v
    case PickUp =>
      if !v.me.pc.Ready? then v
      else At(v, if v.queue == [] then Selecting else Picked(v.queue[|v.queue| - 1]))
    case SeeAd(at) =>
      if v.me.pc.Selecting? && at < |v.paused| then At(v, AdSeen(v.paused[at])) else v
    case PopAd =>
      if !v.me.pc.AdSeen? then v
      else if v.me.pc.ad in v.paused then At(v, AdHeld(v.me.pc.ad)).(paused := LRem(v.paused, v.me.pc.ad))
      else At(v, Selecting)
    case PutBackAd =>
      if v.me.pc.AdHeld? then At(v, Selecting).(paused := [v.me.pc.ad] + v.paused) else v
    case LoseAd =>
      if v.me.pc.AdHeld? then At(v, Selecting) else v
    case PutBackAgain(ad) =>
      // the put-backs that the search of the paused list has deferred to the end of Run
      if v.me.pc.Stopping? then v.(paused := [ad] + v.paused) else v
    case SeeMain(at) =>
      if v.me.pc.Selecting? && at < |v.main| then At(v, MainSeen(v.main[at])) else v
    case PopMain =>
      if !v.me.pc.MainSeen? then v
      else if v.me.pc.job in v.main then
        At(v, Holding(v.me.pc.job, true)).(
          main := LRem(v.main, v.me.pc.job),
          book := v.book.(claimed := v.book.claimed + multiset{v.me.pc.job}))
      else At(v, Stopping)
    case RejectOwner =>
      if v.me.pc.Holding? && v.me.pc.fromMain then
        At(v, Stopping).(
          main := v.main + [v.me.pc.job],
          book := v.book.(pushed := v.book.pushed + multiset{v.me.pc.job}))
      else v
    case Adopt =>
      if v.me.pc.Holding? then At(v, Picked(v.me.pc.job)).(queue := v.queue + [v.me.pc.job]) else v
    case PopMainCanceled =>
      // the LREM was applied, but reported as canceled: nobody gets the entry
      if v.me.pc.MainSeen? && v.me.pc.job in v.main then
        Lose(v, v.me.pc.job).(
          main := LRem(v.main, v.me.pc.job),
          book := v.book.(claimed := v.book.claimed + multiset{v.me.pc.job}, lost := v.book.lost + [v.me.pc.job]))
      else v
    case CancelInHand =>
      // the push to the plugin queue, or back to the main queue, is refused by the canceled context
      if v.me.pc.Holding? then Lose(v, v.me.pc.job) else v
  }

  // The actions that take an entry off a list or put one on it, paused list aside.
  predicate MovesAJob(a: SelectAction) {
    a.PopMain? || a.RejectOwner? || a.Adopt? || a.PopMainCanceled? || a.CancelInHand?
  }

  // Run returns without having put the entry anywhere.
  function Lose(v: View, job: QueueJob): View {
    At(v, Stopping).(book := v.book.(lost := v.book.lost + [job]))
  }

  /* ----- working on it ----- */

  /** The fields that Run and the completion checker rewrite; never the type, the ids or the attempts. */
  datatype Edit = Edit(action: Action, status: Status, conclusion: string, vm: string)

  function Edited(job: QueueJob, e: Edit): QueueJob {
    job.(action := e.action, status := e.status, conclusion := e.conclusion, vm := e.vm)
  }

  /** The attempts gate: no check at all for a first attempt, else at most the limit, 5 unless configured. */
  predicate WithinLimit(limit: int, attempts: nat) {
    attempts == 0 || attempts <= (if limit == 0 then 5 else limit)
  }

  datatype WorkAction =
    | OverLimit | Refresh(status: Status, conclusion: string) | EditAndStop(e: Edit) | MarkPreparing
    | EditJob(e: Edit) | Pause | Advertise | NoticeTaken | Resume
    | Launch(vm: string) | Watch | EditWatched(e: Edit)

  function VMEntry(job: QueueJob, vm: string): QueueJob {
    QueueJob(AnkaVM, job.id, job.runId, job.status, job.conclusion, NoAction, None, 0, vm, None, job.details)
  }

  // Run's UpdateJobInDB of its own queue, and where Run goes from there.
  function Updating(v: View, job: QueueJob, onOk: Pc, onMiss: Pc): View {
    var (queue, outcome) := UpdateList(v.queue, job);
    At(v, if outcome.AlreadyCompleted? then Stopping else if outcome.Updated? then onOk else onMiss).(queue := queue)
  }

  function WorkStep(self: HandlerId, v: View, a: WorkAction): View {
    var pc := v.me.pc;
    match a
    case OverLimit =>
      if pc.Picked? && !WithinLimit(v.me.limit, pc.job.attempts) then
        Updating(v, pc.job.(action := Action.Cancel, status := Status.Completed), Stopping, Stopping)
      else v
    case Refresh(status, conclusion) =>
      if pc.Picked? && pc.job.attempts > 0 && WithinLimit(v.me.limit, pc.job.attempts) then
        At(v, Picked(pc.job.(status := status, conclusion := conclusion)))
      else v
    case EditAndStop(e) =>
      if pc.Picked? && WithinLimit(v.me.limit, pc.job.attempts) && !e.action.Paused? then
        Updating(v, Edited(pc.job, e), Stopping, Stopping)
      else v
    case MarkPreparing =>
      if pc.Picked? && WithinLimit(v.me.limit, pc.job.attempts) then
        var job := pc.job.(action := Action.Preparing);
        Updating(v, job, InPreparation(job), Stopping)
      else v
    case EditJob(e) =>
      if pc.InPreparation? && !e.action.Paused? then
        var job := Edited(pc.job, e); Updating(v, job, InPreparation(job), InPreparation(job))
      else if pc.Launched? && !e.action.Paused? then
        var job := Edited(pc.job, e); Updating(v, job, Launched(job), Launched(job))
      else v
    case Pause =>
      if pc.InPreparation? then
        var job := pc.job.(action := Action.Paused, pausedOn := Some(self));
        Updating(v, job, Advertising(job), Advertising(job))
      else v
    case Advertise =>
      if pc.Advertising? then
        At(v, Waiting(pc.job)).(paused := if HasId(v.paused, pc.job.id) then v.paused else v.paused + [pc.job])
      else v
    case NoticeTaken =>
      if pc.Waiting? && !HasId(v.queue, pc.job.id) then v.(me := v.me.(pc := Stopping, abandoned := true)) else v
    case Resume =>
      if pc.Waiting? && HasId(v.queue, pc.job.id) then
        var job := pc.job.(action := Action.InProgress);
        Updating(v.(paused := RemoveFirstWithId(v.paused, pc.job.id)), job, InPreparation(job), InPreparation(job))
      else v
    case Launch(vm) =>
      if pc.InPreparation? then
        At(v, Launched(pc.job.(vm := vm))).(queue := v.queue + [VMEntry(pc.job, vm)])
      else v
    case Watch =>
      if || pc.Launched?
         || (pc.Started? && v.queue != [] && v.queue[0].status.InProgress?)
         || (pc.Picked? && pc.job.attempts > 0 && pc.job.status.InProgress?)
      then At(v, Watching) else v
    case EditWatched(e) =>
      if pc.Watching? && v.queue != [] && !e.action.Paused? then
        Updating(v, Edited(v.queue[0], e), Watching, Watching)
      else v
  }

  /* ----- the completion checker, which runs beside Run until the final cleanup ----- */

  datatype CheckAction =
    | SetReason(r: Option<Reason>)
    | NoteInProgress | ClaimCompleted | NoteFinished
    | Poll(status: Status, conclusion: string) | TimeOut | MarkCanceled

  predicate CheckerRuns(pc: Pc) {
    !pc.Idle? && !(pc.CleaningUp? && !pc.onStartRun)
  }

  // The head as the checker holds it after looking in the in_progress list.
  function Observed(v: View): QueueJob
    requires v.queue != []
  {
    var job := v.queue[0];
    if HasId(v.inProgress, job.id) then job.(action := Action.InProgress, status := Status.InProgress) else job
  }

  // The statuses of GitHub's answer for which the checker leaves an event for cleanup.
  predicate ReportsTheEnd(status: Status) {
    status.Completed? || status.Failed? || status == OtherStatus("cancelled")
  }

  function CheckStep(v: View, a: CheckAction): View {
    if !CheckerRuns(v.me.pc) then v
    else if a.SetReason? then v.(me := v.me.(reason := a.r))
    else if v.queue == [] then v
    else
      var head, id := v.queue[0], v.queue[0].id;
      match a
      case NoteInProgress =>
        if HasId(v.inProgress, id) && head.status != v.inProgress[FirstWithId(v.inProgress, id)].status then
          v.(queue := UpdateList(v.queue, Observed(v)).0)
        else v
      case ClaimCompleted =>
        if !HasId(v.finished, id) && HasId(v.completed, id) then
          var event := v.completed[FirstWithId(v.completed, id)];
          var job := Observed(v).(status := event.status, conclusion := event.conclusion);
          v.(completed := RemoveFirstWithId(v.completed, id), finished := [event] + v.finished,
             queue := UpdateList(v.queue, job).0)
        else v
      case NoteFinished =>
        if HasId(v.finished, id) then
          v.(queue := UpdateList(v.queue, Observed(v).(status := Status.Completed, action := Action.Finish)).0)
        else v
      case Poll(status, conclusion) =>
        if HasId(v.inProgress, id) && !HasId(v.finished, id) && !HasId(v.completed, id) then
          var job := Observed(v).(status := status, conclusion := conclusion);
          v.(finished := if ReportsTheEnd(status) then [job] + v.finished else v.finished,
             queue := UpdateList(v.queue, job).0)
        else v
      case TimeOut =>
        var job := head.(action := Action.TimedOut, status := Status.TimedOut, conclusion := "timed_out");
        v.(queue := UpdateList(v.queue, job).0)
      case MarkCanceled =>
        v.(queue := UpdateList(v.queue, head.(action := Action.Canceled)).0)
      case SetReason(_) => v
  }

  /* ----- cleanup, one Redis command at a time ----- */

  datatype CleanAction =
    | StartCleanup | LookAtHead(shutdown: bool) | TakeEntry | DropVM | ClearInProgress
    | Settle | RemoveEvent | DropFinished | DropCompleted | PushBack | ForgetPaused | ClearCleaning

  function Leave(v: View): View
    requires v.me.pc.CleaningUp?
  {
    At(v, if v.me.pc.onStartRun then Ready else Idle)
  }

  function CleanStep(v: View, a: CleanAction): View {
    var pc := v.me.pc;
    if a.StartCleanup? then
      if pc.Stopping? then At(v, CleaningUp(Enter, false))
      else if pc.Started? then At(v, CleaningUp(Enter, true))
      else v
    else if !pc.CleaningUp? then v
    else
      var stage, s := pc.stage, pc.onStartRun;
      match a
      case StartCleanup => v
      case LookAtHead(shutdown) =>
        if !stage.Enter? then v
        else if v.queue == [] then Leave(v)
        else if v.me.abandoned then
          var v := v.(paused := RemoveFirstWithId(v.paused, v.queue[0].id), me := v.me.(abandoned := false));
          Leave(v)
        else if StillRunning(v.queue[0], shutdown) then Leave(v)
        else At(v, CleaningUp(Loop, s))
      case TakeEntry =>
        if !stage.Loop? then v
        else if v.cleaning != [] then At(v, CleaningUp(Have(v.cleaning[0]), s))
        else if s || v.queue == [] then Leave(v)
        else
          var entry := v.queue[|v.queue| - 1];
          At(v, CleaningUp(Have(entry), s)).(queue := v.queue[..|v.queue| - 1], cleaning := [entry])
      case DropVM =>
        if !stage.Have? then v
        else if stage.entry.kind.AnkaVM? then At(v, CleaningUp(Loop, s)).(cleaning := [])
        else if stage.entry.kind.UnknownType? then Leave(v)
        else v
      case ClearInProgress =>
        if stage.Have? && stage.entry.kind.WorkflowJobPayload? then
          At(v, CleaningUp(Settling(stage.entry), s)).(
            inProgress := RemoveFirstWithId(v.inProgress, stage.entry.id))
        else v
      case Settle =>
        if stage.Settling? then SettleStep(v, stage.job, s) else v
      case RemoveEvent =>
        if !stage.Removing? then v
        else if stage.event in v.completed then
          At(v, CleaningUp(PurgeFinished(stage.job), s)).(completed := LRem(v.completed, stage.event))
        else Leave(v) // removed nothing: cleanup gives up, with the job still in the cleaning list
      case DropFinished =>
        if stage.PurgeFinished? then At(v, CleaningUp(PurgeCleaning(stage.job), s)).(finished := []) else v
      case DropCompleted =>
        if stage.PurgeCleaning? then Leave(Drop(v, stage.job)) else v
      case PushBack =>
        if stage.Returning? then
          At(v, CleaningUp(Returned(stage.job), s)).(
            main := [stage.job] + v.main,
            book := v.book.(pushed := v.book.pushed + multiset{stage.job}))
        else v
      case ForgetPaused =>
        if stage.Returned? then
          At(v, CleaningUp(Kept, s)).(paused := RemoveFirstWithId(v.paused, stage.job.id))
        else v
      case ClearCleaning =>
        if stage.Kept? then Leave(v.(cleaning := [])) else v
  }

  function Drop(v: View, job: QueueJob): View {
    v.(cleaning := [], book := v.book.(dropped := v.book.dropped + [job]))
  }

  function SettleStep(v: View, job: QueueJob, s: bool): View
    requires v.me.pc.CleaningUp?
  {
    if job.status.Completed? then
      At(v, CleaningUp(
           if HasId(v.completed, job.id) then Removing(job, v.completed[FirstWithId(v.completed, job.id)])
           else PurgeFinished(job), s))
    else if v.me.abandoned then Leave(Drop(v, job))
    else if v.me.reason.Some? && v.cleaning != [] then
      var r := v.me.reason.value;
      var popped := AsReturned(v.cleaning[|v.cleaning| - 1], r);
      v.(me := v.me.(pc := CleaningUp(Returning(popped), s), reason := None),
         cleaning := v.cleaning[..|v.cleaning| - 1],
         book := v.book.(retries := if Exempt(r) then v.book.retries else v.book.retries + [popped.id]))
    else if job.status.Failed? || job.status.TimedOut? then Leave(Drop(v, job))
    else if v.cleaning == [] then At(v, CleaningUp(Kept, s))
    else
      At(v, CleaningUp(Kept, s)).(
        queue := [v.cleaning[|v.cleaning| - 1]] + v.queue, cleaning := v.cleaning[..|v.cleaning| - 1])
  }

  datatype HostAction = Select(s: SelectAction) | Work(w: WorkAction) | Check(c: CheckAction) | Clean(n: CleanAction)

  function HostStep(self: HandlerId, v: View, a: HostAction): View {
    match a
    case Select(x) => SelectStep(v, x)
    case Work(x) => WorkStep(self, v, x)
    case Check(x) => CheckStep(v, x)
    case Clean(x) => CleanStep(v, x)
  }
}
