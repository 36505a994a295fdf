/** What every step keeps for the handler that takes it: the shape of its plugin queue, a cleaning list of
    at most the entry being processed, and a local job that speaks of the entry in the queue. */
module HandlerInvariant {
  import opened QueueJobs
  import opened JobQueue
  import opened Cleanup
  import opened Protocol

  /* ----- what one handler keeps ----- */

  predicate OneJobThenVMs(queue: seq<QueueJob>) {
    || queue == []
    || (&& JobAndVMs(queue)
        && forall i :: 1 <= i < |queue| ==> queue[i].id == queue[0].id && queue[i].runId == queue[0].runId)
  }

  // The handler has committed to running the job at the head: no other host can take it.
  predicate Committed(queue: seq<QueueJob>, limit: int) {
    queue != [] && !queue[0].action.Paused? && WithinLimit(limit, queue[0].attempts)
  }

  // Run's local job speaks of the queue: if the payload is still there, it has this id, run and attempts.
  predicate Mine(queue: seq<QueueJob>, job: QueueJob) {
    && (queue != [] ==> queue[0].id == job.id && queue[0].runId == job.runId)
    && match job.kind
       case WorkflowJobPayload => queue != [] ==> queue[0].attempts == job.attempts
       case AnkaVM => |queue| >= 2
       case UnknownType => false
  }

  predicate Alone(queue: seq<QueueJob>, job: QueueJob) {
    job.kind.WorkflowJobPayload? ==> |queue| <= 1
  }

  predicate Admitted(job: QueueJob, limit: int) {
    job.kind.WorkflowJobPayload? ==> WithinLimit(limit, job.attempts)
  }

  // Nothing in the cleaning list, or a completed job that a cleanup had to leave there.
  predicate AtMostALeftEntry(cleaning: seq<QueueJob>) {
    || cleaning == []
    || (|cleaning| == 1 && cleaning[0].kind.WorkflowJobPayload? && cleaning[0].status.Completed?)
  }

  predicate PcOk(queue: seq<QueueJob>, cleaning: seq<QueueJob>, me: Handler) {
    if me.pc.CleaningUp? then CleanPcOk(queue, cleaning, me.pc.stage, me.limit)
    else
      && AtMostALeftEntry(cleaning)
      && match me.pc
         case Selecting => queue == []
         case AdSeen(_) => queue == []
         case AdHeld(_) => queue == []
         case AdFound(entry, _) => queue == [] && entry.kind.WorkflowJobPayload? && entry.action.Paused?
         case MainSeen(job) => queue == [] && job.kind.WorkflowJobPayload?
         case Holding(job, _) => queue == [] && job.kind.WorkflowJobPayload?
         case Picked(job) => Mine(queue, job) && Alone(queue, job)
         case InPreparation(job) => Mine(queue, job) && Alone(queue, job) && Committed(queue, me.limit)
         case Advertising(job) => Mine(queue, job) && Alone(queue, job) && Admitted(job, me.limit)
         case Waiting(job) => Mine(queue, job) && Alone(queue, job) && Admitted(job, me.limit)
         case Launched(job) => Mine(queue, job) && |queue| >= 2
         case _ => true
  }

  predicate CleanPcOk(queue: seq<QueueJob>, cleaning: seq<QueueJob>, stage: CleanPc, limit: int) {
    match stage
    case Enter => AtMostALeftEntry(cleaning)
    case Loop => AtMostALeftEntry(cleaning)
    case Kept => cleaning == []
    case Have(e) =>
      && cleaning == [e] && !e.kind.UnknownType?
      && (if e.kind.AnkaVM? then Committed(queue, limit) && queue[0].id == e.id && queue[0].runId == e.runId
          else queue == [] || e.status.Completed?)
    case Settling(job) =>
      cleaning == [job] && job.kind.WorkflowJobPayload? && (queue == [] || job.status.Completed?)
    case Removing(job, _) => cleaning == [job] && job.kind.WorkflowJobPayload? && job.status.Completed?
    case PurgeFinished(job) => cleaning == [job] && job.kind.WorkflowJobPayload? && job.status.Completed?
    case PurgeCleaning(job) => cleaning == [job] && job.kind.WorkflowJobPayload? && job.status.Completed?
    case Returning(job) =>
      cleaning == [] && queue == [] && job.kind.WorkflowJobPayload? && !job.status.Completed?
    case Returned(job) => cleaning == [] && queue == []
  }

  predicate HandlerOk(queue: seq<QueueJob>, cleaning: seq<QueueJob>, me: Handler) {
    && OneJobThenVMs(queue)
    && (|queue| >= 2 ==> Committed(queue, me.limit))
    && PcOk(queue, cleaning, me)
    && (me.abandoned ==> queue == [] && (me.pc.Idle? || me.pc.Stopping? || me.pc == CleaningUp(Enter, false)))
  }

  predicate AllPayloads(xs: seq<QueueJob>) {
    forall i :: 0 <= i < |xs| ==> xs[i].kind.WorkflowJobPayload?
  }

  predicate Terminal(job: QueueJob) {
    job.status.Completed? || job.status.Failed? || job.status.TimedOut?
  }

  predicate ViewOk(v: View) {
    && HandlerOk(v.queue, v.cleaning, v.me)
    && AllPayloads(v.main)
    && (forall i :: 0 <= i < |v.book.dropped| ==> Terminal(v.book.dropped[i]))
  }

  lemma LRemKeepsPayloads(xs: seq<QueueJob>, x: QueueJob)
    requires AllPayloads(xs)
    ensures AllPayloads(LRem(xs, x))
  {
    var ys := LRem(xs, x);
    var i := First(xs, x);
    assert i < |xs| ==> forall k :: 0 <= k < |ys| ==> ys[k] == if k < i then xs[k] else xs[k + 1];
  }

  lemma LookingKeepsView(v: View, a: SelectAction)
    requires ViewOk(v) && !MovesAJob(a)
    ensures ViewOk(SelectStep(v, a))
  {
    hide LRem, AllPayloads, Terminal;
    assert v.main == SelectStep(v, a).main && v.book == SelectStep(v, a).book;
    if a.SeeMain? && a.at < |v.main| {
      MainIsPayload(v.main, a.at);
    }
  }

  lemma MainIsPayload(xs: seq<QueueJob>, i: nat)
    requires AllPayloads(xs) && i < |xs|
    ensures xs[i].kind.WorkflowJobPayload?
  {
  }

  lemma MovingKeepsMain(v: View, a: SelectAction)
    requires ViewOk(v) && MovesAJob(a)
    ensures AllPayloads(SelectStep(v, a).main) && SelectStep(v, a).book.dropped == v.book.dropped
  {
    if v.me.pc.MainSeen? {
      LRemKeepsPayloads(v.main, v.me.pc.job);
    }
    hide LRem, OneJobThenVMs, Committed, Terminal;
  }

  lemma MovingKeepsHandler(v: View, a: SelectAction)
    requires ViewOk(v) && MovesAJob(a)
    ensures var w := SelectStep(v, a); HandlerOk(w.queue, w.cleaning, w.me)
  {
    hide LRem, AllPayloads, Terminal;
  }

  lemma MovingKeepsView(v: View, a: SelectAction)
    requires ViewOk(v) && MovesAJob(a)
    ensures ViewOk(SelectStep(v, a))
  {
    MovingKeepsMain(v, a);
    MovingKeepsHandler(v, a);
    hide SelectStep, HandlerOk, AllPayloads;
  }

  lemma SelectKeepsView(v: View, a: SelectAction)
    requires ViewOk(v)
    ensures ViewOk(SelectStep(v, a))
  {
    hide ViewOk, SelectStep;
    if MovesAJob(a) {
      MovingKeepsView(v, a);
    } else {
      LookingKeepsView(v, a);
    }
  }

  // Rewriting the head, or the entry of the local job, keeps the shape of the queue.
  lemma UpdateKeepsShape(queue: seq<QueueJob>, job: QueueJob)
    requires OneJobThenVMs(queue)
    ensures var (after, o) := UpdateList(queue, job);
      && OneJobThenVMs(after) && |after| == |queue|
      && (queue != [] ==> SameJob(after[0], queue[0]))
      && (queue != [] && after[0] != queue[0] ==> after[0] == job)
      && (job.kind.WorkflowJobPayload? && o.Updated? ==> after[0] == job)
  {
    UpdateKeepsIdentities(queue, job);
    if UpdateList(queue, job).1.Updated? && job.kind.WorkflowJobPayload? {
      assert FirstSame(queue, job) == 0;
    }
  }

  lemma PickedKeepsView(self: HandlerId, v: View, a: WorkAction)
    requires ViewOk(v) && v.me.pc.Picked?
    ensures ViewOk(WorkStep(self, v, a))
  {
    match a
    case OverLimit =>
      UpdateKeepsShape(v.queue, v.me.pc.job.(action := Action.Cancel, status := Status.Completed));
    case EditAndStop(e) =>
      UpdateKeepsShape(v.queue, Edited(v.me.pc.job, e));
    case MarkPreparing =>
      UpdateKeepsShape(v.queue, v.me.pc.job.(action := Action.Preparing));
    case _ =>
  }

  lemma EditKeepsView(self: HandlerId, v: View, e: Edit)
    requires ViewOk(v)
    ensures ViewOk(WorkStep(self, v, EditJob(e)))
  {
    if v.me.pc.InPreparation? || v.me.pc.Launched? {
      UpdateKeepsShape(v.queue, Edited(v.me.pc.job, e));
    }
    hide UpdateList;
  }

  lemma EditWatchedKeepsView(self: HandlerId, v: View, e: Edit)
    requires ViewOk(v)
    ensures ViewOk(WorkStep(self, v, EditWatched(e)))
  {
    if v.me.pc.Watching? && v.queue != [] {
      UpdateKeepsShape(v.queue, Edited(v.queue[0], e));
    }
  }

  lemma PauseKeepsView(self: HandlerId, v: View)
    requires ViewOk(v)
    ensures ViewOk(WorkStep(self, v, Pause))
    ensures ViewOk(WorkStep(self, v, Resume))
  {
    if v.me.pc.InPreparation? {
      UpdateKeepsShape(v.queue, v.me.pc.job.(action := Action.Paused, pausedOn := Some(self)));
    } else if v.me.pc.Waiting? {
      UpdateKeepsShape(v.queue, v.me.pc.job.(action := Action.InProgress));
    }
  }

  lemma WorkKeepsView(self: HandlerId, v: View, a: WorkAction)
    requires ViewOk(v)
    ensures ViewOk(WorkStep(self, v, a))
  {
    if v.me.pc.Picked? {
      PickedKeepsView(self, v, a);
    } else if a.EditJob? {
      EditKeepsView(self, v, a.e);
    } else if a.EditWatched? {
      EditWatchedKeepsView(self, v, a.e);
    } else if a.Pause? || a.Resume? {
      PauseKeepsView(self, v);
    }
  }

  // A rewrite of the head by the checker leaves every fact about the handler in place.
  lemma HeadRewriteKeepsHandler(v: View, job: QueueJob)
    requires ViewOk(v) && v.queue != [] && SameJob(job, v.queue[0]) && job.attempts == v.queue[0].attempts
    requires job.action.Paused? ==> v.queue[0].action.Paused?
    ensures HandlerOk(UpdateList(v.queue, job).0, v.cleaning, v.me)
  {
    UpdateKeepsShape(v.queue, job);
  }

  lemma CheckKeepsView(v: View, a: CheckAction)
    requires ViewOk(v)
    ensures ViewOk(CheckStep(v, a))
  {
    if CheckerRuns(v.me.pc) && v.queue != [] {
      var head, id, seen := v.queue[0], v.queue[0].id, Observed(v);
      match a
      case SetReason(_) =>
      case NoteInProgress => HeadRewriteKeepsHandler(v, seen);
      case ClaimCompleted =>
        if HasId(v.completed, id) {
          var event := v.completed[FirstWithId(v.completed, id)];
          HeadRewriteKeepsHandler(v, seen.(status := event.status, conclusion := event.conclusion));
        }
      case NoteFinished => HeadRewriteKeepsHandler(v, seen.(status := Status.Completed, action := Action.Finish));
      case Poll(status, conclusion) => HeadRewriteKeepsHandler(v, seen.(status := status, conclusion := conclusion));
      case TimeOut =>
        HeadRewriteKeepsHandler(
          v, head.(action := Action.TimedOut, status := Status.TimedOut, conclusion := "timed_out"));
      case MarkCanceled => HeadRewriteKeepsHandler(v, head.(action := Action.Canceled));
    }
  }

  lemma SettleKeepsHandler(v: View)
    requires ViewOk(v)
    ensures var w := CleanStep(v, Settle); HandlerOk(w.queue, w.cleaning, w.me)
  {
    hide AllPayloads, Terminal, RemoveFirstWithId, Mine, Alone, Admitted;
    if v.me.pc.CleaningUp? && v.me.pc.stage.Settling? {
      assert v.cleaning == [v.me.pc.stage.job];
    }
  }

  lemma DrainingKeepsHandler(v: View, a: CleanAction)
    requires ViewOk(v) && (a.StartCleanup? || a.LookAtHead? || a.TakeEntry? || a.DropVM?)
    ensures var w := CleanStep(v, a); HandlerOk(w.queue, w.cleaning, w.me)
  {
    hide AllPayloads, Terminal, Mine, Alone, Admitted;
  }

  lemma CleanKeepsHandler(v: View, a: CleanAction)
    requires ViewOk(v)
    ensures var w := CleanStep(v, a); HandlerOk(w.queue, w.cleaning, w.me)
  {
    if a.StartCleanup? || a.LookAtHead? || a.TakeEntry? || a.DropVM? {
      DrainingKeepsHandler(v, a);
    } else if a.Settle? {
      SettleKeepsHandler(v);
    }
  }

  lemma CleanKeepsMain(v: View, a: CleanAction)
    requires ViewOk(v)
    ensures AllPayloads(CleanStep(v, a).main)
  {
    hide RemoveFirstWithId, StillRunning, Terminal;
  }

  lemma CleanDropsEnded(v: View, a: CleanAction)
    requires ViewOk(v)
    ensures var w := CleanStep(v, a); forall i :: 0 <= i < |w.book.dropped| ==> Terminal(w.book.dropped[i])
  {
    hide RemoveFirstWithId, StillRunning, AllPayloads;
  }

  lemma CleanKeepsView(v: View, a: CleanAction)
    requires ViewOk(v)
    ensures ViewOk(CleanStep(v, a))
  {
    CleanKeepsHandler(v, a);
    CleanKeepsMain(v, a);
    CleanDropsEnded(v, a);
    hide CleanStep, HandlerOk, AllPayloads, Terminal;
  }

  lemma HostKeepsView(self: HandlerId, v: View, a: HostAction)
    requires ViewOk(v)
    ensures ViewOk(HostStep(self, v, a))
  {
    match a
    case Select(x) => SelectKeepsView(v, x);
    case Work(x) => WorkKeepsView(self, v, x);
    case Check(x) => CheckKeepsView(v, x);
    case Clean(x) => CleanKeepsView(v, x);
  }
}
