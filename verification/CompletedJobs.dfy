/** What becomes of a completed job, over whole runs: it stays completed where it is until cleanup drops it. */
module CompletedJobs {
  import opened QueueJobs
  import opened JobQueue
  import opened Cleanup
  import opened Protocol
  import opened HandlerInvariant
  import opened CleanupSteps
  import opened Conservation
  import opened Runs
  import opened Guarantees
  import opened ReachableStates

  predicate IsCompleted(job: QueueJob) {
    job.kind.WorkflowJobPayload? && job.status.Completed?
  }

  // The handler has this very entry: as the job of its queue, in its cleaning list, or taken over and in hand.
  predicate Has(v: View, job: QueueJob) {
    (v.queue != [] && v.queue[0] == job) || v.cleaning == [job] || v.me.pc == Holding(job, false)
  }

  predicate HandlerHas(s: State, job: QueueJob) {
    exists h :: 0 <= h < |s.hosts| && Has(ViewOf(s, h), job)
  }

  /* ----- one handler ----- */

  lemma SelectKeepsCompleted(v: View, a: SelectAction, job: QueueJob)
    requires ViewOk(v) && IsCompleted(job) && Has(v, job)
    ensures Has(SelectStep(v, a), job) || (a.CancelInHand? && v.me.pc == Holding(job, false))
  {
    hide LRem, AllPayloads;
  }

  lemma UpdateLeavesCompleted(queue: seq<QueueJob>, job: QueueJob)
    requires queue != [] && queue[0].status.Completed?
    ensures UpdateList(queue, job).0 == queue
  {
  }

  lemma WorkKeepsCompleted(self: HandlerId, v: View, a: WorkAction, job: QueueJob)
    requires ViewOk(v) && IsCompleted(job) && Has(v, job)
    ensures Has(WorkStep(self, v, a), job)
  {
    hide RemoveFirstWithId, HasId, FirstSame, AllPayloads, OneJobThenVMs, Committed;
  }

  lemma CheckKeepsCompleted(v: View, a: CheckAction, job: QueueJob)
    requires ViewOk(v) && IsCompleted(job) && Has(v, job)
    ensures Has(CheckStep(v, a), job)
  {
    hide RemoveFirstWithId, HasId, FirstSame, ViewOk;
  }

  lemma CleanKeepsCompleted(v: View, a: CleanAction, job: QueueJob)
    requires ViewOk(v) && IsCompleted(job) && Has(v, job)
    ensures Has(CleanStep(v, a), job) || (DropsItsJob(v, Clean(a)) && v.me.pc.stage.job == job)
  {
    hide RemoveFirstWithId, StillRunning, AllPayloads;
  }

  lemma HostKeepsCompleted(self: HandlerId, v: View, a: HostAction, job: QueueJob)
    requires ViewOk(v) && IsCompleted(job) && Has(v, job)
    ensures Has(HostStep(self, v, a), job)
            || (DropsItsJob(v, a) && v.me.pc.stage.job == job) || (LosesItsJob(v, a) && v.me.pc.job == job)
  {
    hide ViewOk, Has, SelectStep, WorkStep, CheckStep, CleanStep;
    match a
    case Select(x) => SelectKeepsCompleted(v, x, job);
    case Work(x) => WorkKeepsCompleted(self, v, x, job);
    case Check(x) => CheckKeepsCompleted(v, x, job);
    case Clean(x) => CleanKeepsCompleted(v, x, job);
  }

  /* ----- the whole system ----- */

  lemma TakeKeepsCompleted(s: State, h: HandlerId, o: HandlerId, job: QueueJob)
    requires Inv(s) && o < |s.hosts| && IsCompleted(job) && Has(ViewOf(s, o), job)
    ensures HandlerHas(TakeStep(s, h), job)
  {
    var t := TakeStep(s, h);
    if TakesTheJob(s, h, o, job) {
      TakenOver(s, h, o, job);
      assert Has(ViewOf(t, h), job);
    } else {
      NotTakenOver(s, h, o, job);
      assert Has(ViewOf(t, o), job);
    }
  }

  predicate TakesTheJob(s: State, h: HandlerId, o: HandlerId, job: QueueJob) {
    && h < |s.hosts| && s.hosts[h].pc == AdFound(job, o) && o != h && o < |s.hosts|
    && job in Read(s.db, PluginQueue(o))
  }

  lemma TakenOver(s: State, h: HandlerId, o: HandlerId, job: QueueJob)
    requires TakesTheJob(s, h, o, job)
    ensures TakeStep(s, h).hosts[h].pc == Holding(job, false)
  {
    hide LRem;
  }

  lemma NotTakenOver(s: State, h: HandlerId, o: HandlerId, job: QueueJob)
    requires Inv(s) && o < |s.hosts| && IsCompleted(job) && Has(ViewOf(s, o), job) && !TakesTheJob(s, h, o, job)
    ensures Has(ViewOf(TakeStep(s, h), o), job)
  {
    var queue := Read(s.db, PluginQueue(o));
    assert HandlerOk(queue, Read(s.db, Cleaning(o)), s.hosts[o]);
    if h < |s.hosts| && s.hosts[h].pc.AdFound? {
      assert HandlerOk(Read(s.db, PluginQueue(h)), Read(s.db, Cleaning(h)), s.hosts[h]);
      RemovingPaused(queue, s.hosts[h].pc.entry, Read(s.db, Cleaning(o)), s.hosts[o]);
    }
    hide LRem, HandlerOk;
  }

  lemma LookUpKeepsCompleted(s: State, h: HandlerId, o: HandlerId, job: QueueJob)
    requires o < |s.hosts| && Has(ViewOf(s, o), job)
    ensures Has(ViewOf(LookUpStep(s, h), o), job)
  {
  }

  lemma StepKeepsCompleted(s: State, step: Step, job: QueueJob)
    requires Inv(s) && IsCompleted(job) && HandlerHas(s, job)
    ensures HandlerHas(Next(s, step), job) || Drops(s, step, job.id) || Loses(s, step, job.id)
  {
    var o :| 0 <= o < |s.hosts| && Has(ViewOf(s, o), job);
    var t := Next(s, step);
    match step
    case Host(h, a) =>
      hide HostStep, HandlerOk, Has;
      if h < |s.hosts| {
        var v := ViewOf(s, h);
        PutThenView(s, h, HostStep(h, v, a));
        if h == o {
          assert ViewOk(v);
          HostKeepsCompleted(h, v, a, job);
          assert ViewOf(t, o) == HostStep(h, v, a);
        } else {
          OtherHas(ViewOf(s, o), ViewOf(t, o), job);
          assert Has(ViewOf(t, o), job);
        }
      }
    case LookUp(h) => LookUpKeepsCompleted(s, h, o, job);
    case Take(h) => TakeKeepsCompleted(s, h, o, job);
    case _ =>
      ReceiverFrame(s, step);
      OtherHas(ViewOf(s, o), ViewOf(t, o), job);
      assert Has(ViewOf(t, o), job);
  }

  lemma OtherHas(v: View, w: View, job: QueueJob)
    requires v.queue == w.queue && v.cleaning == w.cleaning && v.me == w.me
    ensures Has(v, job) == Has(w, job)
  {
  }

  // Somewhere in the run this job is dropped by cleanup or lost in hand.
  predicate Ends(s: State, steps: seq<Step>, id: JobId)
    decreases |steps|
  {
    steps != [] && (Drops(s, steps[0], id) || Loses(s, steps[0], id) || Ends(Next(s, steps[0]), steps[1..], id))
  }

  /** Over every run in which updates of a queue entry are whole, an entry once completed stays in the system
      exactly as it is, with the handler that has it or with one that takes it over, until cleanup drops it (or a
      cancellation catches it in hand): it is not made to run again, and not returned to the main queue. Where
      updates overlap, CompletionStaysIff of GuardedUpdate says when it stays completed. */
  lemma {:induction false} CompletedStaysUntilDropped(s: State, steps: seq<Step>, job: QueueJob)
    requires Inv(s) && IsCompleted(job) && HandlerHas(s, job)
    ensures HandlerHas(Run(s, steps), job) || Ends(s, steps, job.id)
    decreases |steps|
  {
    hide Next, Inv, HandlerHas, Drops, Loses;
    if steps != [] {
      StepKeepsCompleted(s, steps[0], job);
      StepKeepsInv(s, steps[0]);
      if HandlerHas(Next(s, steps[0]), job) {
        CompletedStaysUntilDropped(Next(s, steps[0]), steps[1..], job);
      }
    }
  }

  /* ----- a job over the limit ----- */

  /** From the gate to the end: a job over the limit is marked completed, and the cleanup that ends the run leaves
      the main queue alone. Unless an earlier job was left in the cleaning list, or (its head was completed before)
      a shutdown finds its action in progress, its id is then in none of the five lists. */
  lemma OverLimitIsRemoved(s: State, h: HandlerId, shutdown: bool)
    requires Reachable(s) && h < |s.hosts| && s.hosts[h].pc.Picked? && s.hosts[h].pc.job.kind.WorkflowJobPayload?
    requires !WithinLimit(s.hosts[h].limit, s.hosts[h].pc.job.attempts) && Read(s.db, PluginQueue(h)) != []
    requires DistinctIds(Read(s.db, MainInProgress)) && DistinctIds(Read(s.db, MainCompleted))
    ensures var t := Next(Next(s, Host(h, Work(OverLimit))), Host(h, Clean(StartCleanup)));
      && ViewOk(ViewOf(t, h))
      && var id, w := s.hosts[h].pc.job.id, CleanupSteps.Finish(ViewOf(t, h), shutdown);
      && w.me.pc.Idle? && w.main == Read(s.db, Main)
      && (Read(s.db, Cleaning(h)) == [] && !(shutdown && HeadInProgress(Read(t.db, PluginQueue(h)))) ==>
            && !HasId(w.queue, id) && !HasId(w.cleaning, id) && !HasId(w.inProgress, id)
            && !HasId(w.completed, id) && !HasId(w.finished, id))
  {
    hide HostStep, CleanupSteps.Finish, HasId, HandlerOk, DistinctIds, Tracked;
    ReachableInv(s);
    var v := ViewOf(s, h);
    var v1 := HostStep(h, v, Work(OverLimit));
    var v2 := HostStep(h, v1, Clean(StartCleanup));
    var s1 := Next(s, Host(h, Work(OverLimit)));
    PutThenView(s, h, v1);
    PutThenView(s1, h, v2);
    assert ViewOk(v);
    hide Inv, Next;
    AtTheGate(h, v);
    hide ViewOk;
    HostKeepsView(h, v, Work(OverLimit));
    HostKeepsView(h, v1, Clean(StartCleanup));
    EndOfCompleted(PutView(s1, h, v2).db, h, v2, shutdown);
  }

  predicate HeadInProgress(queue: seq<QueueJob>) {
    queue != [] && queue[0].action.InProgress?
  }

  // The cleanup of a handler whose job is completed.
  lemma EndOfCompleted(db: Store, h: HandlerId, v: View, shutdown: bool)
    requires ViewOk(v) && Agree(db, h, v) && v.me.pc == CleaningUp(Enter, false) && !v.me.abandoned
    requires v.queue != [] && v.queue[0].status.Completed?
    requires DistinctIds(v.inProgress) && DistinctIds(v.completed)
    ensures var id, w := v.queue[0].id, CleanupSteps.Finish(v, shutdown);
      && w.me.pc.Idle? && w.main == v.main
      && (v.cleaning == [] && !(shutdown && HeadInProgress(v.queue)) ==>
            && !HasId(w.queue, id) && !HasId(w.cleaning, id) && !HasId(w.inProgress, id)
            && !HasId(w.completed, id) && !HasId(w.finished, id))
  {
    assert JobAndVMs(v.queue);
    var s := SignalsOf(v.me, shutdown);
    StepsMatchMethod(db, h, v, shutdown);
    if v.cleaning == [] {
      hide CleanupSteps.Finish, HasId, HandlerOk, DistinctIds, Result;
      CompletedIsPurgedIff(db, h, s);
    } else {
      assert v.cleaning == [v.cleaning[0]] && v.cleaning[0].kind.WorkflowJobPayload?;
      hide CleanupSteps.Finish, HasId, HandlerOk, DistinctIds;
      DrainUnrolls(db, h, s);
      CompletedSettles(db, h, v.cleaning[0], s);
      hide Cleanup.Settle, DrainAndSettle, Drain;
    }
  }

  lemma AtTheGate(self: HandlerId, v: View)
    requires HandlerOk(v.queue, v.cleaning, v.me) && v.queue != []
    requires v.me.pc.Picked? && v.me.pc.job.kind.WorkflowJobPayload?
    requires !WithinLimit(v.me.limit, v.me.pc.job.attempts)
    ensures var w := HostStep(self, HostStep(self, v, Work(OverLimit)), Clean(StartCleanup));
      && w.me.pc == CleaningUp(Enter, false) && !w.me.abandoned && w.cleaning == v.cleaning
      && JobAndVMs(w.queue) && w.queue[0].id == v.me.pc.job.id && w.queue[0].status.Completed?
      && w.main == v.main && w.inProgress == v.inProgress && w.completed == v.completed
  {
    OverLimitView(self, v);
  }
}
