/** The protocol's cleanup steps against the cleanup method: left alone, a handler's steps from the start of a
    cleanup, the one at the start of its run or the final one, end exactly in the state the method computes. */
module CleanupSteps {
  import opened QueueJobs
  import opened JobQueue
  import opened Cleanup
  import opened Protocol
  import opened HandlerInvariant

  function NextClean(stage: CleanPc, shutdown: bool): CleanAction {
    match stage
    case Enter => LookAtHead(shutdown)
    case Loop => TakeEntry
    case Have(e) => if e.kind.WorkflowJobPayload? then ClearInProgress else DropVM
    case Settling(_) => CleanAction.Settle
    case Removing(_, _) => RemoveEvent
    case PurgeFinished(_) => DropFinished
    case PurgeCleaning(_) => DropCompleted
    case Returning(_) => PushBack
    case Returned(_) => ForgetPaused
    case Kept => ClearCleaning
  }

  // What is left to do: each entry costs a move and a deletion, and then the job is settled.
  function Cost(v: View): nat {
    if !v.me.pc.CleaningUp? then 0
    else
      var entries := 4 * (2 * |v.queue| + |v.cleaning|);
      match v.me.pc.stage
      case Enter => 13 + entries
      case Loop => 12 + entries
      case Have(_) => 11 + entries
      case Settling(_) => 9
      case Removing(_, _) => 3
      case PurgeFinished(_) => 2
      case PurgeCleaning(_) => 1
      case Returning(_) => 3
      case Returned(_) => 2
      case Kept => 1
  }

  lemma CleanProgress(v: View, shutdown: bool)
    requires v.me.pc.CleaningUp? && (v.me.pc.stage.Have? ==> v.cleaning != [])
    ensures Cost(CleanStep(v, NextClean(v.me.pc.stage, shutdown))) < Cost(v)
  {
    hide RemoveFirstWithId, StillRunning, AsReturned, LRem, HasId;
    match v.me.pc.stage
    case Enter =>
    case Loop =>
    case Have(_) =>
    case Settling(_) =>
    case _ =>
  }

  // The entry being processed is still in the cleaning list.
  lemma EntryInHand(v: View)
    requires ViewOk(v)
    ensures v.me.pc.CleaningUp? && v.me.pc.stage.Have? ==> v.cleaning != []
  {
  }

  /** The handler's cleanup steps, one after the other, until it is out of cleanup. */
  ghost function Finish(v: View, shutdown: bool): View
    requires ViewOk(v)
    decreases Cost(v)
  {
    if !v.me.pc.CleaningUp? then v
    else
      EntryInHand(v);
      CleanProgress(v, shutdown);
      CleanKeepsView(v, NextClean(v.me.pc.stage, shutdown));
      Finish(CleanStep(v, NextClean(v.me.pc.stage, shutdown)), shutdown)
  }

  predicate Agree(db: Store, h: HandlerId, v: View) {
    && Read(db, Main) == v.main && Read(db, MainInProgress) == v.inProgress
    && Read(db, MainCompleted) == v.completed && Read(db, PausedJobs) == v.paused
    && Read(db, PluginQueue(h)) == v.queue && Read(db, Cleaning(h)) == v.cleaning
    && Read(db, PluginCompleted(h)) == v.finished
  }

  function SignalsOf(me: Handler, shutdown: bool): Signals
    requires me.pc.CleaningUp?
  {
    Signals(me.pc.onStartRun, shutdown, me.abandoned, false, me.reason, [])
  }

  // Cleaning up, and at this stage.
  predicate Cleans(v: View, stage: CleanPc) {
    v.me.pc.CleaningUp? && v.me.pc.stage == stage
  }

  /** After a cleanup at the start of a run Run goes on; after the final one it is over. */
  predicate Left(v: View, w: View)
    requires v.me.pc.CleaningUp?
  {
    w.me.pc == if v.me.pc.onStartRun then Ready else Idle
  }

  // One step of Finish, for proofs that follow it.
  lemma FinishStep(v: View, shutdown: bool, w: View)
    requires ViewOk(v) && v.me.pc.CleaningUp? && w == CleanStep(v, NextClean(v.me.pc.stage, shutdown))
    ensures ViewOk(w) && Finish(v, shutdown) == Finish(w, shutdown)
  {
    CleanKeepsView(v, NextClean(v.me.pc.stage, shutdown));
  }

  lemma FinishEnds(v: View, shutdown: bool)
    requires ViewOk(v) && !v.me.pc.CleaningUp?
    ensures Finish(v, shutdown) == v
  {
  }

  // From the purge on.
  lemma FinishPurging(v: View, shutdown: bool, job: QueueJob)
    requires ViewOk(v) && Cleans(v, PurgeFinished(job))
    ensures Left(v, Finish(v, shutdown))
    ensures var w := Finish(v, shutdown); w == v.(finished := [], cleaning := [], me := w.me, book := w.book)
  {
    hide HandlerOk, Finish;
    var v1 := CleanStep(v, DropFinished);
    FinishStep(v, shutdown, v1);
    var v2 := CleanStep(v1, DropCompleted);
    FinishStep(v1, shutdown, v2);
    FinishEnds(v2, shutdown);
  }

  lemma FinishCompleted(v: View, shutdown: bool, job: QueueJob)
    requires ViewOk(v) && Cleans(v, Settling(job)) && job.status.Completed?
    ensures Left(v, Finish(v, shutdown))
    ensures var w := Finish(v, shutdown);
      w == v.(completed := RemoveFirstWithId(v.completed, job.id), finished := [], cleaning := [],
              me := w.me, book := w.book)
  {
    hide HandlerOk, Finish;
    FirstWithIdIsFirst(v.completed, job.id);
    var v1 := CleanStep(v, CleanAction.Settle);
    FinishStep(v, shutdown, v1);
    if HasId(v.completed, job.id) {
      var v2 := CleanStep(v1, RemoveEvent);
      FinishStep(v1, shutdown, v2);
      FinishPurging(v2, shutdown, job);
    } else {
      FinishPurging(v1, shutdown, job);
    }
  }

  lemma FinishForgetting(v: View, shutdown: bool, job: QueueJob)
    requires ViewOk(v) && Cleans(v, Returned(job))
    ensures Left(v, Finish(v, shutdown))
    ensures var w := Finish(v, shutdown); w == v.(paused := RemoveFirstWithId(v.paused, job.id), me := w.me)
  {
    assert v.cleaning == [];
    hide HandlerOk, Finish, RemoveFirstWithId;
    var v1 := CleanStep(v, ForgetPaused);
    FinishStep(v, shutdown, v1);
    var v2 := CleanStep(v1, ClearCleaning);
    FinishStep(v1, shutdown, v2);
    FinishEnds(v2, shutdown);
  }

  lemma FinishReturning(v: View, shutdown: bool, job: QueueJob)
    requires ViewOk(v) && Cleans(v, Returning(job))
    ensures Left(v, Finish(v, shutdown))
    ensures var w := Finish(v, shutdown);
      w == v.(main := [job] + v.main, paused := RemoveFirstWithId(v.paused, job.id), me := w.me, book := w.book)
  {
    hide HandlerOk, Finish, RemoveFirstWithId;
    var v1 := CleanStep(v, PushBack);
    FinishStep(v, shutdown, v1);
    FinishForgetting(v1, shutdown, job);
  }

  lemma FinishReturned(v: View, shutdown: bool, job: QueueJob)
    requires ViewOk(v) && Cleans(v, Settling(job))
    requires !job.status.Completed? && v.me.reason.Some?
    ensures Left(v, Finish(v, shutdown))
    ensures var w := Finish(v, shutdown);
      w == v.(main := [AsReturned(job, v.me.reason.value)] + v.main,
              paused := RemoveFirstWithId(v.paused, job.id), cleaning := [], me := w.me, book := w.book)
  {
    assert v.cleaning == [job] && v.cleaning[..0] == [] && !v.me.abandoned;
    hide HandlerOk, Finish, RemoveFirstWithId;
    var v1 := CleanStep(v, CleanAction.Settle);
    FinishStep(v, shutdown, v1);
    FinishReturning(v1, shutdown, AsReturned(job, v.me.reason.value));
  }

  lemma FinishOther(v: View, shutdown: bool, job: QueueJob)
    requires ViewOk(v) && Cleans(v, Settling(job))
    requires !job.status.Completed? && v.me.reason.None?
    ensures Left(v, Finish(v, shutdown))
    ensures var w := Finish(v, shutdown);
      w == v.(queue := if job.status.Failed? || job.status.TimedOut? then [] else [job], cleaning := [],
              me := w.me, book := w.book)
  {
    assert v.cleaning == [job] && v.cleaning[..0] == [] && v.queue == [];
    hide HandlerOk, Finish, RemoveFirstWithId;
    var v1 := CleanStep(v, CleanAction.Settle);
    FinishStep(v, shutdown, v1);
    if !job.status.Failed? && !job.status.TimedOut? {
      var v2 := CleanStep(v1, ClearCleaning);
      FinishStep(v1, shutdown, v2);
      FinishEnds(v2, shutdown);
    } else {
      FinishEnds(v1, shutdown);
    }
  }

  lemma SettleAgrees(db: Store, h: HandlerId, v: View, shutdown: bool, job: QueueJob)
    requires ViewOk(v) && Agree(db, h, v) && Cleans(v, Have(job))
    requires job.kind.WorkflowJobPayload?
    ensures Left(v, Finish(v, shutdown))
    ensures Agree(Cleanup.Settle(db, h, job, SignalsOf(v.me, shutdown)), h, Finish(v, shutdown))
  {
    assert v.cleaning == [job] && (v.queue == [] || job.status.Completed?);
    hide HandlerOk, Finish, RemoveFirstWithId, Cleanup.Settle;
    var v1 := CleanStep(v, ClearInProgress);
    FinishStep(v, shutdown, v1);
    if job.status.Completed? {
      CompletedAgrees(db, h, v, v1, shutdown, job);
    } else {
      UncompletedAgrees(db, h, v, v1, shutdown, job);
    }
  }

  lemma UncompletedAgrees(db: Store, h: HandlerId, v: View, v1: View, shutdown: bool, job: QueueJob)
    requires v.me.pc.CleaningUp? && Agree(db, h, v) && v.cleaning == [job] && v.queue == []
    requires job.kind.WorkflowJobPayload? && !job.status.Completed?
    requires ViewOk(v1) && Cleans(v1, Settling(job)) && v1.me.pc.onStartRun == v.me.pc.onStartRun
    requires v1.me.reason == v.me.reason && v1.me.abandoned == v.me.abandoned
    requires v1 == v.(inProgress := RemoveFirstWithId(v.inProgress, job.id), me := v1.me)
    ensures Left(v1, Finish(v1, shutdown))
    ensures Agree(Cleanup.Settle(db, h, job, SignalsOf(v.me, shutdown)), h, Finish(v1, shutdown))
  {
    hide Cleanup.Settle, RemoveFirstWithId, HandlerOk, Finish, ViewOk;
    PayloadSettles(db, h, job, SignalsOf(v.me, shutdown));
    if v.me.reason.Some? {
      FinishReturned(v1, shutdown, job);
    } else {
      FinishOther(v1, shutdown, job);
    }
  }

  lemma CompletedAgrees(db: Store, h: HandlerId, v: View, v1: View, shutdown: bool, job: QueueJob)
    requires v.me.pc.CleaningUp? && Agree(db, h, v) && v.cleaning == [job]
    requires job.kind.WorkflowJobPayload? && job.status.Completed?
    requires ViewOk(v1) && Cleans(v1, Settling(job))
    requires v1 == v.(inProgress := RemoveFirstWithId(v.inProgress, job.id), me := v1.me)
    ensures Left(v1, Finish(v1, shutdown))
    ensures Agree(Cleanup.Settle(db, h, job, SignalsOf(v.me, shutdown)), h, Finish(v1, shutdown))
  {
    hide Cleanup.Settle, RemoveFirstWithId, EventTaken, EventsAfter, HandlerOk, Finish, ViewOk;
    var s := SignalsOf(v.me, shutdown);
    CompletedSettles(db, h, job, s);
    NothingTaken(v.completed, job.id, s);
    FinishCompleted(v1, shutdown, job);
  }

  // Left alone, cleanup removes the event it found.
  lemma NothingTaken(events: seq<QueueJob>, id: JobId, s: Signals)
    requires s.taken == []
    ensures !EventTaken(events, id, s) && EventsAfter(events, id, s) == RemoveFirstWithId(events, id)
  {
    FirstWithIdIsFirst(events, id);
  }

  lemma TakenAgrees(db: Store, h: HandlerId, v: View)
    requires Agree(db, h, v) && Cleans(v, Loop) && !v.me.pc.onStartRun && v.cleaning == [] && v.queue != []
    ensures var entry := v.queue[|v.queue| - 1]; var taken := CleanStep(v, TakeEntry);
      && Agree(Refilled(db, h), h, taken) && taken.me == v.me.(pc := v.me.pc.(stage := Have(entry)))
      && Read(Refilled(db, h), Cleaning(h))[0] == entry
  {
  }

  lemma DroppedAgrees(db: Store, h: HandlerId, v: View)
    requires Agree(db, h, v) && Cleans(v, Loop) && !v.me.pc.onStartRun && v.cleaning == [] && v.queue != []
    requires v.queue[|v.queue| - 1].kind.AnkaVM?
    ensures var dropped := CleanStep(CleanStep(v, TakeEntry), DropVM);
      && Agree(Write(Refilled(db, h), Cleaning(h), []), h, dropped)
      && dropped.me == v.me && |dropped.queue| == |v.queue| - 1
  {
  }

  // An entry an earlier cleanup left is taken first.
  lemma LeftEntryFound(v: View)
    requires Cleans(v, Loop) && v.cleaning != []
    ensures CleanStep(v, TakeEntry) == v.(me := v.me.(pc := v.me.pc.(stage := Have(v.cleaning[0]))))
  {
  }

  lemma LoopIsOver(v: View)
    requires Cleans(v, Loop) && v.cleaning == [] && (v.me.pc.onStartRun || v.queue == [])
    ensures var w := CleanStep(v, TakeEntry); Left(v, w) && w == v.(me := w.me)
  {
  }

  lemma {:induction false} LoopAgrees(db: Store, h: HandlerId, v: View, shutdown: bool)
    requires ViewOk(v) && Agree(db, h, v) && Cleans(v, Loop)
    ensures Left(v, Finish(v, shutdown))
    ensures Agree(DrainAndSettle(db, h, SignalsOf(v.me, shutdown)), h, Finish(v, shutdown))
    decreases |v.queue|
  {
    assert v.cleaning == [] || (v.cleaning == [v.cleaning[0]] && v.cleaning[0].kind.WorkflowJobPayload?);
    hide DrainAndSettle, HandlerOk, Finish, CleanStep, Cleanup.Settle;
    DrainUnrolls(db, h, SignalsOf(v.me, shutdown));
    var v1 := CleanStep(v, TakeEntry);
    FinishStep(v, shutdown, v1);
    if v.cleaning != [] {
      LeftEntryFound(v);
      hide Agree, Refilled;
      SettleAgrees(db, h, v1, shutdown, v.cleaning[0]);
    } else if v.me.pc.onStartRun || v.queue == [] {
      LoopIsOver(v);
      FinishEnds(v1, shutdown);
    } else {
      var entry := v.queue[|v.queue| - 1];
      TakenAgrees(db, h, v);
      hide Agree, Refilled, ViewOk;
      if entry.kind.AnkaVM? {
        var v2 := CleanStep(v1, DropVM);
        DroppedAgrees(db, h, v);
        FinishStep(v1, shutdown, v2);
        LoopAgrees(Write(Refilled(db, h), Cleaning(h), []), h, v2, shutdown);
      } else {
        TakenIsKnown(v1);
        SettleAgrees(Refilled(db, h), h, v1, shutdown, entry);
      }
    }
  }

  lemma TakenIsKnown(v: View)
    requires ViewOk(v) && v.me.pc.CleaningUp? && v.me.pc.stage.Have?
    ensures !v.me.pc.stage.entry.kind.UnknownType?
  {
  }

  /** Taken without interference, the steps of a cleanup, the one at the start of a run or the final one, come to its
      end with the lists that the cleanup method, proved equal to Result, leaves. */
  lemma StepsMatchMethod(db: Store, h: HandlerId, v: View, shutdown: bool)
    requires ViewOk(v) && Agree(db, h, v) && Cleans(v, Enter)
    ensures Left(v, Finish(v, shutdown))
    ensures Agree(Result(db, h, SignalsOf(v.me, shutdown)).0, h, Finish(v, shutdown))
  {
    var v1 := CleanStep(v, LookAtHead(shutdown));
    FinishStep(v, shutdown, v1);
    if v.queue != [] && !StillRunning(v.queue[0], shutdown) {
      LoopAgrees(db, h, v1, shutdown);
    }
  }
}
