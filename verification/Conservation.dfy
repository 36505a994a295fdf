/** What a handler's steps conserve. Two measures are followed at once: how many copies of a job there are,
    and how many attempts its copies carry. */
module Conservation {
  import opened QueueJobs
  import opened JobQueue
  import opened Cleanup
  import opened Protocol
  import opened HandlerInvariant

  datatype Measure = CopiesOf(id: JobId) | AttemptsOf(id: JobId)

  // VM entries carry their job's id but are not copies of it.
  function Weigh(m: Measure, job: QueueJob): nat {
    if !job.kind.WorkflowJobPayload? || job.id != m.id then 0
    else match m case CopiesOf(_) => 1 case AttemptsOf(_) => job.attempts
  }

  function Total(m: Measure, xs: seq<QueueJob>): nat {
    if xs == [] then 0 else Weigh(m, xs[0]) + Total(m, xs[1..])
  }

  // Each non-exempt return adds one attempt to its job.
  function Retried(m: Measure, ids: seq<JobId>): nat {
    if ids == [] then 0
    else (if m == AttemptsOf(ids[0]) then 1 else 0) + Retried(m, ids[1..])
  }

  lemma {:induction false} TotalConcat(m: Measure, a: seq<QueueJob>, b: seq<QueueJob>)
    ensures Total(m, a + b) == Total(m, a) + Total(m, b)
  {
    if a == [] {
      assert a + b == b;
    } else {
      TotalConcat(m, a[1..], b);
      assert (a + b)[1..] == a[1..] + b;
    }
  }

  lemma TotalOne(m: Measure, x: QueueJob)
    ensures Total(m, [x]) == Weigh(m, x)
  {
  }

  lemma TotalNil(m: Measure)
    ensures Total(m, []) == 0
  {
  }

  lemma RetriedOne(m: Measure, id: JobId)
    ensures Retried(m, [id]) == if m == AttemptsOf(id) then 1 else 0
  {
  }

  lemma TotalRemoveAt(m: Measure, xs: seq<QueueJob>, i: nat)
    requires i < |xs|
    ensures Total(m, RemoveAt(xs, i)) + Weigh(m, xs[i]) == Total(m, xs)
  {
    TotalConcat(m, xs[..i], xs[i + 1..]);
    TotalConcat(m, xs[..i], xs[i..]);
    assert xs == xs[..i] + xs[i..];
    assert xs[i..][1..] == xs[i + 1..];
  }

  lemma TotalSet(m: Measure, xs: seq<QueueJob>, i: nat, x: QueueJob)
    requires i < |xs|
    ensures Total(m, xs[i := x]) + Weigh(m, xs[i]) == Total(m, xs) + Weigh(m, x)
  {
    TotalRemoveAt(m, xs, i);
    TotalRemoveAt(m, xs[i := x], i);
    assert RemoveAt(xs[i := x], i) == RemoveAt(xs, i);
  }

  lemma TotalLRem(m: Measure, xs: seq<QueueJob>, x: QueueJob)
    requires x in xs
    ensures Total(m, LRem(xs, x)) + Weigh(m, x) == Total(m, xs)
  {
    TotalRemoveAt(m, xs, First(xs, x));
  }

  lemma TotalInit(m: Measure, xs: seq<QueueJob>)
    requires xs != []
    ensures Total(m, xs[..|xs| - 1]) + Weigh(m, xs[|xs| - 1]) == Total(m, xs)
  {
    TotalRemoveAt(m, xs, |xs| - 1);
    assert RemoveAt(xs, |xs| - 1) == xs[..|xs| - 1];
  }

  lemma {:induction false} RetriedConcat(m: Measure, a: seq<JobId>, b: seq<JobId>)
    ensures Retried(m, a + b) == Retried(m, a) + Retried(m, b)
  {
    if a == [] {
      assert a + b == b;
    } else {
      RetriedConcat(m, a[1..], b);
      assert (a + b)[1..] == a[1..] + b;
    }
  }

  // An update writes the attempts it read, so it moves no weight.
  lemma UpdateKeepsTotal(m: Measure, queue: seq<QueueJob>, job: QueueJob)
    requires OneJobThenVMs(queue)
    requires job.kind.WorkflowJobPayload? && queue != [] ==> queue[0].attempts == job.attempts
    ensures Total(m, UpdateList(queue, job).0) == Total(m, queue)
  {
    var i := FirstSame(queue, job);
    if UpdateList(queue, job).1.Updated? {
      TotalSet(m, queue, i, job);
      if job.kind.WorkflowJobPayload? {
        assert i == 0;
      }
    }
  }

  // Entries that are in no list: popped and about to be pushed again.
  function InHand(m: Measure, pc: Pc): nat {
    match pc
    case Holding(job, _) => Weigh(m, job)
    case CleaningUp(stage, _) => if stage.Returning? then Weigh(m, stage.job) else 0
    case _ => 0
  }

  function Held(m: Measure, queue: seq<QueueJob>, cleaning: seq<QueueJob>, pc: Pc): nat {
    Total(m, queue) + Total(m, cleaning) + InHand(m, pc)
  }

  // Weight dropped and lost, against what was enqueued, doubled and retried.
  function Owed(m: Measure, book: Ledger): int {
    Total(m, book.dropped) + Total(m, book.lost)
    - Total(m, book.enqueued) - Total(m, book.doubled) - Retried(m, book.retries)
  }

  /** Weight in the lists, in hand, dropped and lost, against what was enqueued, doubled and retried. */
  function Balance(m: Measure, v: View): int {
    Total(m, v.main) + Held(m, v.queue, v.cleaning, v.me.pc) + Owed(m, v.book)
  }

  // Every entry ever pushed to the main queue is still there or was claimed, once.
  predicate ClaimsAddUp(main: seq<QueueJob>, book: Ledger) {
    multiset(main) + book.claimed == book.pushed
  }

  lemma LookingConserves(m: Measure, v: View, a: SelectAction)
    requires !MovesAJob(a)
    ensures Balance(m, SelectStep(v, a)) == Balance(m, v)
  {
    hide Total, Retried, LRem;
  }

  lemma ClaimConserves(m: Measure, v: View)
    requires v.me.pc.MainSeen?
    ensures Balance(m, SelectStep(v, PopMain)) == Balance(m, v)
    ensures Balance(m, SelectStep(v, PopMainCanceled)) == Balance(m, v)
  {
    hide Total, Retried, LRem;
    if v.me.pc.job in v.main {
      TotalLRem(m, v.main, v.me.pc.job);
      TotalConcat(m, v.book.lost, [v.me.pc.job]);
      TotalOne(m, v.me.pc.job);
    }
  }

  lemma HandConserves(m: Measure, v: View, a: SelectAction)
    requires v.me.pc.Holding? && (a.RejectOwner? || a.Adopt? || a.CancelInHand?)
    ensures Balance(m, SelectStep(v, a)) == Balance(m, v)
  {
    hide Total, Retried;
    var job := v.me.pc.job;
    TotalOne(m, job);
    TotalConcat(m, v.main, [job]);
    TotalConcat(m, v.queue, [job]);
    TotalConcat(m, v.book.lost, [job]);
  }

  lemma SelectConserves(m: Measure, v: View, a: SelectAction)
    ensures Balance(m, SelectStep(v, a)) == Balance(m, v)
  {
    hide Balance;
    if !MovesAJob(a) {
      LookingConserves(m, v, a);
    } else if v.me.pc.MainSeen? {
      ClaimConserves(m, v);
    } else if v.me.pc.Holding? && (a.RejectOwner? || a.Adopt? || a.CancelInHand?) {
      HandConserves(m, v, a);
    }
  }

  lemma UpdatingConserves(m: Measure, v: View, job: QueueJob, onOk: Pc, onMiss: Pc)
    requires OneJobThenVMs(v.queue)
    requires job.kind.WorkflowJobPayload? && v.queue != [] ==> v.queue[0].attempts == job.attempts
    requires InHand(m, v.me.pc) == InHand(m, onOk) == InHand(m, onMiss) == 0
    ensures Balance(m, Updating(v, job, onOk, onMiss)) == Balance(m, v)
  {
    hide Total, Retried, UpdateList;
    UpdateKeepsTotal(m, v.queue, job);
  }

  lemma EditConserves(m: Measure, self: HandlerId, v: View, e: Edit)
    requires ViewOk(v)
    ensures Balance(m, WorkStep(self, v, EditJob(e))) == Balance(m, v)
    ensures Balance(m, WorkStep(self, v, EditWatched(e))) == Balance(m, v)
  {
    hide Total, Retried, UpdateList;
    var pc := v.me.pc;
    if pc.InPreparation? {
      var job := Edited(pc.job, e);
      UpdatingConserves(m, v, job, InPreparation(job), InPreparation(job));
    } else if pc.Launched? {
      var job := Edited(pc.job, e);
      UpdatingConserves(m, v, job, Launched(job), Launched(job));
    } else if pc.Watching? && v.queue != [] {
      UpdatingConserves(m, v, Edited(v.queue[0], e), Watching, Watching);
    }
  }

  lemma PickedConserves(m: Measure, self: HandlerId, v: View, a: WorkAction)
    requires ViewOk(v) && v.me.pc.Picked?
    ensures Balance(m, WorkStep(self, v, a)) == Balance(m, v)
  {
    hide Total, Retried, UpdateList;
    var job := v.me.pc.job;
    match a
    case OverLimit =>
      UpdatingConserves(m, v, job.(action := Action.Cancel, status := Status.Completed), Stopping, Stopping);
    case EditAndStop(e) =>
      UpdatingConserves(m, v, Edited(job, e), Stopping, Stopping);
    case MarkPreparing =>
      var marked := job.(action := Action.Preparing);
      UpdatingConserves(m, v, marked, InPreparation(marked), Stopping);
    case _ =>
  }

  lemma PauseConserves(m: Measure, self: HandlerId, v: View)
    requires ViewOk(v)
    ensures Balance(m, WorkStep(self, v, Pause)) == Balance(m, v)
    ensures Balance(m, WorkStep(self, v, Resume)) == Balance(m, v)
  {
    var pc := v.me.pc;
    if pc.InPreparation? {
      var job := pc.job.(action := Action.Paused, pausedOn := Some(self));
      UpdatingConserves(m, v, job, Advertising(job), Advertising(job));
    } else if pc.Waiting? {
      var job := pc.job.(action := Action.InProgress);
      UpdatingConserves(
        m, v.(paused := RemoveFirstWithId(v.paused, pc.job.id)), job, InPreparation(job), InPreparation(job));
    }
  }

  lemma LaunchConserves(m: Measure, self: HandlerId, v: View, vm: string)
    ensures Balance(m, WorkStep(self, v, Launch(vm))) == Balance(m, v)
  {
    hide Total, Retried;
    if v.me.pc.InPreparation? {
      TotalConcat(m, v.queue, [VMEntry(v.me.pc.job, vm)]);
      TotalOne(m, VMEntry(v.me.pc.job, vm));
    }
  }

  // The steps that leave the plugin queue alone.
  lemma IdleWorkConserves(m: Measure, self: HandlerId, v: View, a: WorkAction)
    requires a.Advertise? || a.NoticeTaken? || a.Watch?
    ensures Balance(m, WorkStep(self, v, a)) == Balance(m, v)
  {
    hide Total, Retried, HasId, UpdateList;
  }

  lemma WorkConserves(m: Measure, self: HandlerId, v: View, a: WorkAction)
    requires ViewOk(v)
    ensures Balance(m, WorkStep(self, v, a)) == Balance(m, v)
  {
    hide Balance;
    if v.me.pc.Picked? {
      PickedConserves(m, self, v, a);
    } else if a.EditJob? || a.EditWatched? {
      EditConserves(m, self, v, a.e);
    } else if a.Pause? || a.Resume? {
      PauseConserves(m, self, v);
    } else if a.Launch? {
      LaunchConserves(m, self, v, a.vm);
    } else if a.Advertise? || a.NoticeTaken? || a.Watch? {
      IdleWorkConserves(m, self, v, a);
    }
  }

  lemma CheckConserves(m: Measure, v: View, a: CheckAction)
    requires ViewOk(v)
    ensures Balance(m, CheckStep(v, a)) == Balance(m, v)
  {
    if CheckerRuns(v.me.pc) && v.queue != [] {
      var head, id, seen := v.queue[0], v.queue[0].id, Observed(v);
      match a
      case SetReason(_) =>
      case NoteInProgress => UpdateKeepsTotal(m, v.queue, seen);
      case ClaimCompleted =>
        if HasId(v.completed, id) {
          var event := v.completed[FirstWithId(v.completed, id)];
          UpdateKeepsTotal(m, v.queue, seen.(status := event.status, conclusion := event.conclusion));
        }
      case NoteFinished =>
        UpdateKeepsTotal(m, v.queue, seen.(status := Status.Completed, action := Action.Finish));
      case Poll(status, conclusion) =>
        UpdateKeepsTotal(m, v.queue, seen.(status := status, conclusion := conclusion));
      case TimeOut =>
        UpdateKeepsTotal(
          m, v.queue, head.(action := Action.TimedOut, status := Status.TimedOut, conclusion := "timed_out"));
      case MarkCanceled => UpdateKeepsTotal(m, v.queue, head.(action := Action.Canceled));
    }
  }

  lemma SettleConserves(m: Measure, v: View, job: QueueJob, onStartRun: bool)
    requires v.me.pc == CleaningUp(Settling(job), onStartRun)
    requires v.cleaning == [job] && (v.queue == [] || job.status.Completed?)
    requires job.kind.WorkflowJobPayload?
    ensures Balance(m, SettleStep(v, job, onStartRun)) == Balance(m, v)
  {
    hide Total, Retried, RemoveFirstWithId, Owed;
    assert v.cleaning[..0] == [] && (v.queue == [] ==> [job] + v.queue == [job]);
    TotalNil(m);
    TotalOne(m, job);
    if v.me.reason.Some? && !job.status.Completed? && !v.me.abandoned {
      RetryOwes(m, v.book, job.id);
    }
    DropOwes(m, v.book, job);
  }

  lemma DropOwes(m: Measure, book: Ledger, job: QueueJob)
    ensures Owed(m, book.(dropped := book.dropped + [job])) == Owed(m, book) + Weigh(m, job)
  {
    hide Retried, Weigh;
    TotalConcat(m, book.dropped, [job]);
    TotalOne(m, job);
    hide Total;
  }

  lemma RetryOwes(m: Measure, book: Ledger, id: JobId)
    ensures Owed(m, book.(retries := book.retries + [id])) == Owed(m, book) - if m == AttemptsOf(id) then 1 else 0
  {
    hide Total;
    RetriedConcat(m, book.retries, [id]);
    RetriedOne(m, id);
    hide Retried;
  }

  // Moving the tail of the queue to the cleaning list, and finding it there.
  lemma TakeEntryConserves(m: Measure, v: View)
    ensures Balance(m, CleanStep(v, TakeEntry)) == Balance(m, v)
  {
    hide Total, Retried;
    TotalNil(m);
    if v.me.pc.CleaningUp? && v.me.pc.stage.Loop? && v.cleaning == [] && v.queue != [] {
      TotalInit(m, v.queue);
      TotalOne(m, v.queue[|v.queue| - 1]);
    }
  }

  lemma DropCompletedConserves(m: Measure, v: View)
    requires v.me.pc.CleaningUp? && (v.me.pc.stage.PurgeCleaning? ==> v.cleaning == [v.me.pc.stage.job])
    ensures Balance(m, CleanStep(v, DropCompleted)) == Balance(m, v)
  {
    hide Total, Retried, Owed;
    TotalNil(m);
    if v.me.pc.stage.PurgeCleaning? {
      DropOwes(m, v.book, v.me.pc.stage.job);
      TotalOne(m, v.me.pc.stage.job);
    }
  }

  lemma ClearingConserves(m: Measure, v: View)
    requires v.me.pc.CleaningUp?
    requires v.me.pc.stage.Have? ==> v.cleaning == [v.me.pc.stage.entry]
    requires v.me.pc.stage.Kept? ==> v.cleaning == []
    ensures Balance(m, CleanStep(v, DropVM)) == Balance(m, v)
    ensures Balance(m, CleanStep(v, ClearCleaning)) == Balance(m, v)
  {
    hide Total, Retried, Owed;
    TotalNil(m);
    if v.me.pc.stage.Have? {
      TotalOne(m, v.me.pc.stage.entry);
    }
  }

  // While cleanup holds an entry, the cleaning list is that entry.
  lemma EntryAlone(v: View)
    requires ViewOk(v) && v.me.pc.CleaningUp?
    ensures var stage := v.me.pc.stage;
      && (stage.PurgeCleaning? ==> v.cleaning == [stage.job])
      && (stage.Have? ==> v.cleaning == [stage.entry])
      && (stage.Kept? ==> v.cleaning == [])
      && (stage.Settling? ==>
            && v.cleaning == [stage.job] && stage.job.kind.WorkflowJobPayload?
            && (v.queue == [] || stage.job.status.Completed?))
  {
  }

  lemma PushBackConserves(m: Measure, v: View)
    ensures Balance(m, CleanStep(v, PushBack)) == Balance(m, v)
  {
    hide Total, Retried;
    if v.me.pc.CleaningUp? && v.me.pc.stage.Returning? {
      TotalConcat(m, [v.me.pc.stage.job], v.main);
      TotalOne(m, v.me.pc.stage.job);
    }
  }

  // The commands that touch neither a queue nor an entry in hand.
  lemma TidyingConserves(m: Measure, v: View, a: CleanAction)
    requires a.StartCleanup? || a.LookAtHead? || a.ClearInProgress? || a.RemoveEvent? || a.DropFinished?
             || a.ForgetPaused?
    ensures Balance(m, CleanStep(v, a)) == Balance(m, v)
  {
    hide Total, Retried, RemoveFirstWithId, StillRunning, LRem;
  }

  lemma CleanConserves(m: Measure, v: View, a: CleanAction)
    requires ViewOk(v)
    ensures Balance(m, CleanStep(v, a)) == Balance(m, v)
  {
    if v.me.pc.CleaningUp? {
      EntryAlone(v);
    }
    hide Balance, SettleStep, ViewOk;
    if v.me.pc.CleaningUp? && a.Settle? {
      if v.me.pc.stage.Settling? {
        SettleConserves(m, v, v.me.pc.stage.job, v.me.pc.onStartRun);
      }
    } else if v.me.pc.CleaningUp? && a.DropCompleted? {
      DropCompletedConserves(m, v);
    } else if v.me.pc.CleaningUp? && (a.DropVM? || a.ClearCleaning?) {
      ClearingConserves(m, v);
    } else if a.TakeEntry? {
      TakeEntryConserves(m, v);
    } else if a.PushBack? {
      PushBackConserves(m, v);
    } else if v.me.pc.CleaningUp? || a.StartCleanup? {
      TidyingConserves(m, v, a);
    }
  }

  lemma HostConserves(m: Measure, self: HandlerId, v: View, a: HostAction)
    requires ViewOk(v)
    ensures Balance(m, HostStep(self, v, a)) == Balance(m, v)
  {
    match a
    case Select(x) => SelectConserves(m, v, x);
    case Work(x) => WorkConserves(m, self, v, x);
    case Check(x) => CheckConserves(m, v, x);
    case Clean(x) => CleanConserves(m, v, x);
  }

  lemma WorkFrame(self: HandlerId, v: View, a: WorkAction)
    ensures var w := WorkStep(self, v, a); w.main == v.main && w.book == v.book
  {
  }

  lemma CheckFrame(v: View, a: CheckAction)
    ensures var w := CheckStep(v, a); w.main == v.main && w.book == v.book
  {
  }

  lemma SelectFrame(v: View, a: SelectAction)
    requires !a.PopMain? && !a.RejectOwner? && !a.PopMainCanceled? && !a.CancelInHand?
    ensures var w := SelectStep(v, a); w.main == v.main && w.book == v.book
  {
    hide LRem;
  }

  lemma PopKeepsClaims(main: seq<QueueJob>, book: Ledger, job: QueueJob)
    requires ClaimsAddUp(main, book) && job in main
    ensures ClaimsAddUp(LRem(main, job), book.(claimed := book.claimed + multiset{job}))
  {
    LRemMultiset(main, job);
    assert job in multiset(main);
  }

  lemma SelectKeepsClaims(v: View, a: SelectAction)
    requires ClaimsAddUp(v.main, v.book)
    ensures var w := SelectStep(v, a); ClaimsAddUp(w.main, w.book)
  {
    hide LRem;
    if a.PopMain? || a.PopMainCanceled? {
      if v.me.pc.MainSeen? && v.me.pc.job in v.main {
        PopKeepsClaims(v.main, v.book, v.me.pc.job);
      }
    } else if !a.RejectOwner? && !a.CancelInHand? {
      SelectFrame(v, a);
    }
  }

  lemma CleanKeepsClaims(v: View, a: CleanAction)
    requires ClaimsAddUp(v.main, v.book)
    ensures var w := CleanStep(v, a); ClaimsAddUp(w.main, w.book)
  {
    if a.PushBack? {
      if v.me.pc.CleaningUp? && v.me.pc.stage.Returning? {
        PushKeepsClaims(v.main, v.book, v.me.pc.stage.job);
      }
    } else {
      CleanFrame(v, a);
      hide CleanStep;
    }
  }

  lemma PushKeepsClaims(main: seq<QueueJob>, book: Ledger, job: QueueJob)
    requires ClaimsAddUp(main, book)
    ensures ClaimsAddUp([job] + main, book.(pushed := book.pushed + multiset{job}))
  {
  }

  lemma CleanFrame(v: View, a: CleanAction)
    requires !a.PushBack?
    ensures var w := CleanStep(v, a);
      w.main == v.main && w.book.claimed == v.book.claimed && w.book.pushed == v.book.pushed
  {
    hide RemoveFirstWithId, StillRunning;
  }

  lemma HostKeepsClaims(self: HandlerId, v: View, a: HostAction)
    requires ClaimsAddUp(v.main, v.book)
    ensures var w := HostStep(self, v, a); ClaimsAddUp(w.main, w.book)
  {
    match a
    case Select(x) => SelectKeepsClaims(v, x);
    case Work(x) => WorkFrame(self, v, x);
    case Check(x) => CheckFrame(v, x);
    case Clean(x) => CleanKeepsClaims(v, x);
  }
}
