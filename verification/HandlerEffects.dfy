/** What the steps of a handler do, list by list: every change of a list has one of these causes. And where its Run
    goes on from an update of its queue. */
module HandlerEffects {
  import opened QueueJobs
  import opened JobQueue
  import opened Cleanup
  import opened Protocol
  import opened HandlerInvariant
  import opened Runs

  lemma Absent(xs: seq<QueueJob>, x: QueueJob)
    ensures x !in xs ==> LRem(xs, x) == xs
  {
  }

  lemma AbsentId(xs: seq<QueueJob>, id: JobId)
    ensures !HasId(xs, id) ==> RemoveFirstWithId(xs, id) == xs
  {
  }

  /** A claim takes the entry it has seen off the main queue; a job of another owner goes back to the tail, a returned
      one to the head. Nothing else a handler does changes the main queue. */
  lemma OfMainQueue(self: HandlerId, v: View, a: HostAction)
    ensures HostStep(self, v, a).main ==
            match (a, v.me.pc)
            case (Select(PopMain), MainSeen(job)) => LRem(v.main, job)
            case (Select(PopMainCanceled), MainSeen(job)) => LRem(v.main, job)
            case (Select(RejectOwner), Holding(job, true)) => v.main + [job]
            case (Clean(PushBack), CleaningUp(Returning(job), _)) => [job] + v.main
            case _ => v.main
  {
    if v.me.pc.MainSeen? {
      Absent(v.main, v.me.pc.job);
    }
    hide UpdateList, RemoveFirstWithId, HasId, LRem;
  }

  /** An advertisement is taken off to look at it and put back to the head; one is added by the host that pauses,
      unless there is one; and it goes when that host resumes, sees that its job was taken, or returns the job. */
  lemma OfPausedList(self: HandlerId, v: View, a: HostAction)
    ensures HostStep(self, v, a).paused ==
            match (a, v.me.pc)
            case (Select(PopAd), AdSeen(ad)) => LRem(v.paused, ad)
            case (Select(PutBackAd), AdHeld(ad)) => [ad] + v.paused
            case (Select(PutBackAgain(ad)), Stopping) => [ad] + v.paused
            case (Work(Advertise), Advertising(job)) => if HasId(v.paused, job.id) then v.paused else v.paused + [job]
            case (Work(Resume), Waiting(job)) =>
              if HasId(v.queue, job.id) then RemoveFirstWithId(v.paused, job.id) else v.paused
            case (Clean(LookAtHead(_)), CleaningUp(Enter, _)) =>
              if v.queue != [] && v.me.abandoned then RemoveFirstWithId(v.paused, v.queue[0].id) else v.paused
            case (Clean(ForgetPaused), CleaningUp(Returned(job), _)) => RemoveFirstWithId(v.paused, job.id)
            case _ => v.paused
  {
    if v.me.pc.AdSeen? {
      Absent(v.paused, v.me.pc.ad);
    }
    hide UpdateList, RemoveFirstWithId, LRem, HasId;
  }

  /** The event lists: cleanup takes the in_progress event of its job, the checker moves the completed event of the
      job at the head to the handler's own list, where it also notes an end that GitHub reports, and cleanup of a
      completed job removes both. */
  lemma OfEventLists(self: HandlerId, v: View, a: HostAction)
    ensures var w := HostStep(self, v, a);
      && w.inProgress == (match (a, v.me.pc)
                          case (Clean(ClearInProgress), CleaningUp(Have(e), _)) =>
                            if e.kind.WorkflowJobPayload? then RemoveFirstWithId(v.inProgress, e.id) else v.inProgress
                          case _ => v.inProgress)
      && w.completed == (match (a, v.me.pc)
                         case (Clean(RemoveEvent), CleaningUp(Removing(_, event), _)) => LRem(v.completed, event)
                         case (Check(ClaimCompleted), _) =>
                           if ClaimsEvent(v) then RemoveFirstWithId(v.completed, v.queue[0].id) else v.completed
                         case _ => v.completed)
  {
    if v.me.pc.CleaningUp? && v.me.pc.stage.Removing? {
      Absent(v.completed, v.me.pc.stage.event);
    }
    hide UpdateList, RemoveFirstWithId, LRem, HasId;
  }

  // The checker runs, and finds an event for the job at the head that the handler has not got yet.
  predicate ClaimsEvent(v: View) {
    && !v.me.pc.Idle? && (v.me.pc.CleaningUp? ==> v.me.pc.onStartRun)
    && v.queue != [] && HasId(v.completed, v.queue[0].id) && !HasId(v.finished, v.queue[0].id)
  }

  predicate Polls(v: View) {
    && !v.me.pc.Idle? && (v.me.pc.CleaningUp? ==> v.me.pc.onStartRun)
    && v.queue != [] && HasId(v.inProgress, v.queue[0].id)
    && !HasId(v.completed, v.queue[0].id) && !HasId(v.finished, v.queue[0].id)
  }

  lemma OfFinishedList(self: HandlerId, v: View, a: HostAction)
    ensures HostStep(self, v, a).finished ==
            match (a, v.me.pc)
            case (Clean(DropFinished), CleaningUp(PurgeFinished(_), _)) => []
            case (Check(ClaimCompleted), _) =>
              if ClaimsEvent(v) then [v.completed[FirstWithId(v.completed, v.queue[0].id)]] + v.finished else v.finished
            case (Check(Poll(status, conclusion)), _) =>
              if Polls(v) && status in [Status.Completed, Status.Failed, OtherStatus("cancelled")] then
                [v.queue[0].(action := Action.InProgress, status := status, conclusion := conclusion)] + v.finished
              else v.finished
            case _ => v.finished
  {
    hide UpdateList, RemoveFirstWithId, LRem, HasId;
  }

  predicate OverLimit(job: QueueJob, limit: int) {
    job.attempts > 0 && job.attempts > if limit == 0 then 5 else limit
  }

  // Everything of a job but its type, ids, attempts, owner, host and details.
  ghost function Rewritten(job: QueueJob, e: Edit): QueueJob {
    QueueJob(job.kind, job.id, job.runId, e.status, e.conclusion, e.action, job.pausedOn, job.attempts, e.vm, job.owner,
             job.details)
  }

  /** The entry that the step asks UpdateJobInDB to write. Run writes its own copy of the job: completed when it is
      over the limit, under preparation, paused here, resumed, or edited; the checker writes what it finds at the head
      with what the event lists, GitHub or a timeout say. No one writes a paused action but the host that pauses. */
  ghost function Written(self: HandlerId, v: View, a: HostAction): Option<QueueJob> {
    match (a, v.me.pc)
    case (Work(OverLimit), Picked(job)) =>
      if OverLimit(job, v.me.limit) then Some(job.(action := Action.Cancel, status := Status.Completed)) else None
    case (Work(EditAndStop(e)), Picked(job)) =>
      if !OverLimit(job, v.me.limit) && !e.action.Paused? then Some(Rewritten(job, e)) else None
    case (Work(MarkPreparing), Picked(job)) =>
      if !OverLimit(job, v.me.limit) then Some(job.(action := Action.Preparing)) else None
    case (Work(EditJob(e)), InPreparation(job)) => if !e.action.Paused? then Some(Rewritten(job, e)) else None
    case (Work(EditJob(e)), Launched(job)) => if !e.action.Paused? then Some(Rewritten(job, e)) else None
    case (Work(Pause), InPreparation(job)) => Some(job.(action := Action.Paused, pausedOn := Some(self)))
    case (Work(Resume), Waiting(job)) =>
      if HasId(v.queue, job.id) then Some(job.(action := Action.InProgress)) else None
    case (Work(EditWatched(e)), Watching) =>
      if v.queue != [] && !e.action.Paused? then Some(Rewritten(v.queue[0], e)) else None
    case (Check(c), _) => if v.queue != [] && CheckerRuns(v.me.pc) then WrittenByChecker(v, c) else None
    case _ => None
  }

  function WrittenByChecker(v: View, c: CheckAction): Option<QueueJob>
    requires v.queue != []
  {
    var head := v.queue[0];
    var started := HasId(v.inProgress, head.id);
    var seen := if started then head.(action := Action.InProgress, status := Status.InProgress) else head;
    match c
    case SetReason(_) => None
    case NoteInProgress =>
      if started && v.inProgress[FirstWithId(v.inProgress, head.id)].status != head.status then Some(seen) else None
    case ClaimCompleted =>
      if ClaimsEvent(v) then
        var event := v.completed[FirstWithId(v.completed, head.id)];
        Some(seen.(status := event.status, conclusion := event.conclusion))
      else None
    case NoteFinished =>
      if HasId(v.finished, head.id) then Some(seen.(action := Action.Finish, status := Status.Completed)) else None
    case Poll(status, conclusion) =>
      if Polls(v) then Some(seen.(status := status, conclusion := conclusion)) else None
    case TimeOut => Some(head.(action := Action.TimedOut, status := Status.TimedOut, conclusion := "timed_out"))
    case MarkCanceled => Some(head.(action := Action.Canceled))
  }

  // The plugin queue with this update done to it.
  function AfterUpdate(queue: seq<QueueJob>, job: Option<QueueJob>): seq<QueueJob> {
    if job.None? then queue else UpdateList(queue, job.value).0
  }

  /** The plugin queue: a job taken on is added at the tail, and a VM entry when its VM is started; cleanup takes
      entries from the tail and puts a job it keeps back to the head; every other change is one guarded update. */
  lemma OfPluginQueue(self: HandlerId, v: View, a: HostAction)
    ensures HostStep(self, v, a).queue ==
            match (a, v.me.pc)
            case (Select(Adopt), Holding(job, _)) => v.queue + [job]
            case (Work(Launch(vm)), InPreparation(job)) =>
              v.queue + [QueueJob(AnkaVM, job.id, job.runId, job.status, job.conclusion, Action.NoAction, None, 0, vm,
                                  None, job.details)]
            case (Clean(TakeEntry), CleaningUp(Loop, onStartRun)) =>
              if v.cleaning == [] && !onStartRun && v.queue != [] then v.queue[..|v.queue| - 1] else v.queue
            case (Clean(Settle), CleaningUp(Settling(job), _)) =>
              if Keeps(v, job) && v.cleaning != [] then [v.cleaning[|v.cleaning| - 1]] + v.queue else v.queue
            case _ => AfterUpdate(v.queue, Written(self, v, a))
  {
    hide UpdateList, RemoveFirstWithId, LRem, HasId;
    match a
    case Check(c) => OfCheckedQueue(v, c);
    case _ =>
  }

  // Cleanup puts the job back into the plugin queue.
  predicate Keeps(v: View, job: QueueJob) {
    && !v.me.abandoned && v.me.reason.None?
    && !job.status.Completed? && !job.status.Failed? && !job.status.TimedOut?
  }

  lemma OfCheckedQueue(v: View, c: CheckAction)
    ensures CheckStep(v, c).queue ==
            if v.queue != [] && CheckerRuns(v.me.pc) then AfterUpdate(v.queue, WrittenByChecker(v, c)) else v.queue
  {
    hide UpdateList, RemoveFirstWithId, LRem, HasId;
  }

  /** Where Run goes on after it has written: nowhere when the head is completed, and from a job it picked up only to
      prepare it, and only if the update found it. In all other cases it goes on with what it has written. */
  lemma OfUpdates(self: HandlerId, v: View, a: HostAction)
    requires a.Work? && Written(self, v, a).Some?
    ensures var job := Written(self, v, a).value; var w := HostStep(self, v, a).me;
      var stops := (v.queue != [] && v.queue[0].status.Completed?) || a.w.OverLimit? || a.w.EditAndStop?
        || (a.w.MarkPreparing? && !exists x :: x in v.queue && SameJob(x, job));
      w == v.me.(pc := if stops then Stopping
                       else match v.me.pc
                         case Launched(_) => Launched(job)
                         case Watching => Watching
                         case _ => if a.w.Pause? then Advertising(job) else InPreparation(job))
  {
    if v.me.pc.Picked? {
      OfPickedUpdates(self, v, a);
    } else {
      OfLaterUpdates(self, v, a);
    }
    hide Written, HostStep;
  }

  lemma OfPickedUpdates(self: HandlerId, v: View, a: HostAction)
    requires a.Work? && Written(self, v, a).Some? && v.me.pc.Picked?
    ensures var job := Written(self, v, a).value; var w := HostStep(self, v, a).me;
      && (a.w.OverLimit? || a.w.EditAndStop? || a.w.MarkPreparing?)
      && w == v.me.(pc := if a.w.MarkPreparing? && !(v.queue != [] && v.queue[0].status.Completed?)
                             && exists x :: x in v.queue && SameJob(x, job)
                          then InPreparation(job) else Stopping)
  {
    FoundIff(v.queue, Written(self, v, a).value);
    hide FirstSame, RemoveFirstWithId, LRem, HasId, SameJob;
  }

  lemma OfLaterUpdates(self: HandlerId, v: View, a: HostAction)
    requires a.Work? && Written(self, v, a).Some? && !v.me.pc.Picked?
    ensures var job := Written(self, v, a).value; var w := HostStep(self, v, a).me;
      && !(a.w.OverLimit? || a.w.EditAndStop? || a.w.MarkPreparing?)
      && w == v.me.(pc := if v.queue != [] && v.queue[0].status.Completed? then Stopping
                          else match v.me.pc
                            case Launched(_) => Launched(job)
                            case Watching => Watching
                            case _ => if a.w.Pause? then Advertising(job) else InPreparation(job))
  {
    hide FirstSame, RemoveFirstWithId, LRem, HasId, SameJob, WithinLimit, VMEntry;
  }

  lemma FoundIff(queue: seq<QueueJob>, job: QueueJob)
    ensures FirstSame(queue, job) < |queue| <==> exists x :: x in queue && SameJob(x, job)
  {
    if x :| x in queue && SameJob(x, job) {
      var i :| 0 <= i < |queue| && queue[i] == x;
    }
  }

  /** How a run gets hold of a job: what it looks at is what it takes, if it is still there, and there is no other way
      to a job than its own queue, the main queue and a paused one; a cancellation in hand ends the run. */
  lemma OfSelection(v: View, a: SelectAction)
    ensures var w := SelectStep(v, a).me;
      && w.limit == v.me.limit
      && (a.Begin? && v.me.pc.Idle? ==> w.pc == Started && w.reason == None && !w.abandoned)
      && (!(a.Begin? && v.me.pc.Idle?) ==> w == v.me.(pc := w.pc))
      && (w.pc.Picked? && w.pc != v.me.pc ==>
            || (a.PickUp? && v.queue != [] && w.pc.job == v.queue[|v.queue| - 1])
            || (a.Adopt? && v.me.pc.Holding? && w.pc.job == v.me.pc.job))
      && (w.pc.Holding? && w.pc != v.me.pc ==>
            a.PopMain? && v.me.pc == MainSeen(w.pc.job) && w.pc.job in v.main && w.pc.fromMain)
      && (w.pc.AdHeld? && w.pc != v.me.pc ==> a.PopAd? && v.me.pc == AdSeen(w.pc.ad) && w.pc.ad in v.paused)
      && (v.me.pc.Holding? ==> w.pc == match a
                                       case Adopt => Picked(v.me.pc.job)
                                       case RejectOwner => if v.me.pc.fromMain then Stopping else v.me.pc
                                       case CancelInHand => Stopping
                                       case _ => v.me.pc)
      && (v.me.pc.Selecting? ==> w.pc == match a
                                         case SeeAd(at) => if at < |v.paused| then AdSeen(v.paused[at]) else Selecting
                                         case SeeMain(at) => if at < |v.main| then MainSeen(v.main[at]) else Selecting
                                         case Stop => Stopping
                                         case _ => Selecting)
      && (a.Stop? ==>
            w.pc == match v.me.pc
                    case Idle => Idle
                    case AdHeld(_) => v.me.pc
                    case Holding(_, _) => v.me.pc
                    case CleaningUp(_, _) => v.me.pc
                    case _ => Stopping)
      && (v.me.pc.AdSeen? && a.PopAd? ==> w.pc == if v.me.pc.ad in v.paused then AdHeld(v.me.pc.ad) else Selecting)
      && (v.me.pc.AdHeld? && (a.PutBackAd? || a.LoseAd?) ==> w.pc == Selecting)
      && (v.me.pc.MainSeen? && a.PopMain? ==>
            w.pc == if v.me.pc.job in v.main then Holding(v.me.pc.job, true) else Stopping)
      && (v.me.pc.Ready? && a.PickUp? ==>
            w.pc == if v.queue != [] then Picked(v.queue[|v.queue| - 1]) else Selecting)
  {
    hide LRem;
  }

  /** The rest of Run's work: only a first attempt is not refreshed from GitHub, an advertised job is waited for until
      it is gone from the queue, a started VM is noted, and a job is watched when it has a VM or runs already. */
  lemma OfOtherWork(self: HandlerId, v: View, a: WorkAction)
    requires Written(self, v, Work(a)).None?
    ensures WorkStep(self, v, a).me.pc ==
            match (a, v.me.pc)
            case (Refresh(status, conclusion), Picked(job)) =>
              if job.attempts > 0 && !OverLimit(job, v.me.limit) then
                Picked(job.(status := status, conclusion := conclusion))
              else v.me.pc
            case (Advertise, Advertising(job)) => Waiting(job)
            case (NoticeTaken, Waiting(job)) => if HasId(v.queue, job.id) then v.me.pc else Stopping
            case (Launch(vm), InPreparation(job)) => Launched(job.(vm := vm))
            case (Watch, Launched(_)) => Watching
            case (Watch, Started) => if v.queue != [] && v.queue[0].status.InProgress? then Watching else Started
            case (Watch, Picked(job)) => if job.attempts > 0 && job.status.InProgress? then Watching else v.me.pc
            case _ => v.me.pc
  {
    hide UpdateList, RemoveFirstWithId, LRem, HasId;
  }

  /** The two signals: the reason to return a job is set by the checker and used up by the cleanup that returns one;
      that another host took the job is noted by the host that paused it, and used up by the next cleanup that has
      something to clean up. Both are gone when a run begins. */
  lemma OfSignals(self: HandlerId, v: View, a: HostAction)
    ensures HostStep(self, v, a).me.reason ==
            match (a, v.me.pc)
            case (Select(Begin), Idle) => None
            case (Check(SetReason(r)), _) => if CheckerRuns(v.me.pc) then r else v.me.reason
            case (Clean(Settle), CleaningUp(Settling(job), _)) =>
              if !job.status.Completed? && !v.me.abandoned && v.cleaning != [] then None else v.me.reason
            case _ => v.me.reason
    ensures HostStep(self, v, a).me.abandoned ==
            match (a, v.me.pc)
            case (Select(Begin), Idle) => false
            case (Work(NoticeTaken), Waiting(job)) => v.me.abandoned || !HasId(v.queue, job.id)
            case (Clean(LookAtHead(_)), CleaningUp(Enter, _)) => v.me.abandoned && v.queue == []
            case _ => v.me.abandoned
  {
    hide UpdateList, RemoveFirstWithId, LRem, HasId;
  }

  // A step that is none of cleanup's.
  ghost predicate StaysOut(before: Pc, after: Pc) {
    && (after.Ready? ==> before.Ready?) && (after.Idle? ==> before.Idle?)
    && (before.CleaningUp? <==> after.CleaningUp?) && (before.CleaningUp? ==> after == before)
  }

  lemma SelectingStaysOut(v: View, a: SelectAction)
    ensures StaysOut(v.me.pc, SelectStep(v, a).me.pc)
  {
    hide LRem;
  }

  lemma WorkStaysOut(self: HandlerId, v: View, a: WorkAction)
    ensures StaysOut(v.me.pc, WorkStep(self, v, a).me.pc)
  {
    hide UpdateList, RemoveFirstWithId, HasId, WithinLimit, VMEntry;
  }

  lemma CheckingStaysOut(v: View, a: CheckAction)
    ensures StaysOut(v.me.pc, CheckStep(v, a).me.pc)
  {
    hide UpdateList, RemoveFirstWithId, HasId;
  }

  lemma CleaningMoves(v: View, a: CleanAction)
    ensures var (before, after) := (v.me.pc, CleanStep(v, a).me.pc);
      && (after.Ready? && !before.Ready? ==> before.CleaningUp? && before.onStartRun)
      && (after.Idle? && !before.Idle? ==> before.CleaningUp? && !before.onStartRun)
      && (after.CleaningUp? && before.CleaningUp? ==> after.onStartRun == before.onStartRun)
      && (if a.StartCleanup? then after == match before
                                           case Started => CleaningUp(Enter, true)
                                           case Stopping => CleaningUp(Enter, false)
                                           case _ => before
          else after.CleaningUp? ==> before.CleaningUp?)
  {
    hide RemoveFirstWithId, LRem, HasId, StillRunning, AsReturned, Exempt;
  }

  /** No run works without the cleanup at its start, and none is over without the final one. */
  lemma OfCleanups(self: HandlerId, v: View, a: HostAction)
    ensures var (before, after) := (v.me.pc, HostStep(self, v, a).me.pc);
      && (after.Ready? && !before.Ready? ==> before.CleaningUp? && before.onStartRun)
      && (after.Idle? && !before.Idle? ==> before.CleaningUp? && !before.onStartRun)
      && (after.CleaningUp? && before.CleaningUp? ==> after.onStartRun == before.onStartRun)
      && (after.CleaningUp? && !before.CleaningUp? ==> a == Clean(StartCleanup))
      && (a == Clean(StartCleanup) ==>
            after == match before
                     case Started => CleaningUp(Enter, true)
                     case Stopping => CleaningUp(Enter, false)
                     case _ => before)
  {
    hide SelectStep, WorkStep, CheckStep;
    match a
    case Select(x) => SelectingStaysOut(v, x);
    case Work(x) => WorkStaysOut(self, v, x);
    case Check(x) => CheckingStaysOut(v, x);
    case Clean(x) => CleaningMoves(v, x);
    hide CleanStep;
  }

  /** The checker runs from the beginning of a run to its final cleanup. */
  lemma CheckerRunsWhile(pc: Pc)
    ensures CheckerRuns(pc) <==> pc != Idle && !exists stage :: pc == CleaningUp(stage, false)
  {
    if pc.CleaningUp? && !pc.onStartRun {
      assert pc == CleaningUp(pc.stage, false);
    }
  }

  /** The lookup of a paused job looks in the plugin queue of the host named in the advertisement. It goes on only
      with an entry it finds there still paused; one that has been resumed ends the run, its advertisement put back. */
  lemma OfLookUp(s: State, h: HandlerId, ad: QueueJob, o: HandlerId)
    requires h < |s.hosts| && s.hosts[h].pc == AdHeld(ad) && ad.pausedOn == Some(o) && o != h && o < |s.hosts|
    ensures var t, queue := LookUpStep(s, h), Read(s.db, PluginQueue(o));
      var i := FirstWithId(queue, ad.id);
      && t == s.(db := t.db, hosts := s.hosts[h := s.hosts[h].(pc := t.hosts[h].pc)])
      && (forall k :: k != PausedJobs ==> Read(t.db, k) == Read(s.db, k))
      && if i < |queue| && queue[i].action != Action.Paused then
           t.hosts[h].pc == Stopping && Read(t.db, PausedJobs) == [ad] + Read(s.db, PausedJobs)
         else
           && t.db == s.db
           && t.hosts[h].pc == if i < |queue| then AdFound(queue[i], o) else Selecting
  {
  }

  /** The take removes that entry from there, found or not, and has it in hand either way. */
  lemma OfTake(s: State, h: HandlerId, entry: QueueJob, o: HandlerId)
    requires h < |s.hosts| && s.hosts[h].pc == AdFound(entry, o) && o != h && o < |s.hosts|
    ensures var t := TakeStep(s, h);
      && t.hosts == s.hosts[h := s.hosts[h].(pc := Holding(entry, false))] && t.deliveries == s.deliveries
      && Read(t.db, PluginQueue(o)) == LRem(Read(s.db, PluginQueue(o)), entry)
      && forall k :: k != PluginQueue(o) ==> Read(t.db, k) == Read(s.db, k)
  {
    hide LRem;
  }
}
