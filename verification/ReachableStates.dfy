/** What the lists look like in every state a run can reach. */
module ReachableStates {
  import opened QueueJobs
  import opened JobQueue
  import opened Cleanup
  import opened Protocol
  import opened HandlerInvariant
  import opened Conservation
  import opened Runs
  import opened Guarantees

  ghost predicate Reachable(s: State) {
    exists s0, steps :: Initial(s0) && s == Run(s0, steps)
  }

  lemma ReachableInv(s: State)
    requires Reachable(s)
    ensures Inv(s)
  {
    var s0, steps :| Initial(s0) && s == Run(s0, steps);
    InitialInv(s0);
    RunKeepsInv(s0, steps);
  }

  /** The shape of a handler's lists: its plugin queue is empty or one payload followed by VM entries of the
      same job and run; its cleaning list has at most one entry, which is there only while cleanup processes it,
      a payload then being in one list only, unless it is a completed job that a cleanup left there. */
  lemma ListShapes(s: State, h: HandlerId)
    requires Reachable(s) && h < |s.hosts|
    ensures var queue, cleaning := Read(s.db, PluginQueue(h)), Read(s.db, Cleaning(h));
      && (queue != [] ==> queue[0].kind.WorkflowJobPayload?)
      && (forall i :: 1 <= i < |queue| ==>
            queue[i].kind.AnkaVM? && queue[i].id == queue[0].id && queue[i].runId == queue[0].runId)
      && |cleaning| <= 1
      && (cleaning != [] && cleaning[0].kind.AnkaVM? ==> s.hosts[h].pc.CleaningUp? && queue != [])
      && (cleaning != [] && !cleaning[0].kind.AnkaVM? ==>
            && cleaning[0].kind.WorkflowJobPayload?
            && (cleaning[0].status.Completed? || (s.hosts[h].pc.CleaningUp? && queue == [])))
  {
    ReachableInv(s);
  }

  /** While cleanup holds an entry, the cleaning list is exactly that entry, so RPOP takes it and DEL drops
      nothing else; and what goes back to the main queue is never a completed job. */
  lemma CleaningHoldsTheEntry(s: State, h: HandlerId)
    requires Reachable(s) && h < |s.hosts| && s.hosts[h].pc.CleaningUp?
    ensures var cleaning := Read(s.db, Cleaning(h));
      match s.hosts[h].pc.stage
      case Have(e) => cleaning == [e]
      case Settling(job) => cleaning == [job]
      case Removing(job, _) => cleaning == [job] && job.status.Completed?
      case PurgeFinished(job) => cleaning == [job] && job.status.Completed?
      case PurgeCleaning(job) => cleaning == [job] && job.status.Completed?
      case Returning(job) => cleaning == [] && !job.status.Completed?
      case Returned(_) => cleaning == []
      case Kept => cleaning == []
      case _ => AtMostALeftEntry(cleaning)
  {
    ReachableInv(s);
  }

  /** The attempts gate: no job over the limit has its VM prepared or launched, none with VMs is over it, and
      none of these can be taken over by another host. */
  lemma GateIsRespected(s: State, h: HandlerId)
    requires Reachable(s) && h < |s.hosts|
    requires s.hosts[h].pc.InPreparation? || s.hosts[h].pc.Launched? || |Read(s.db, PluginQueue(h))| >= 2
    ensures var queue := Read(s.db, PluginQueue(h));
      && queue != [] && queue[0].kind.WorkflowJobPayload? && !queue[0].action.Paused?
      && (queue[0].attempts > 0 ==> queue[0].attempts <= if s.hosts[h].limit == 0 then 5 else s.hosts[h].limit)
  {
    ReachableInv(s);
  }

  /** A job over the limit is marked completed by the gate, or is already, unless another host has taken it;
      and Run stops there. */
  lemma OverLimitIsCompleted(s: State, h: HandlerId)
    requires Reachable(s) && h < |s.hosts| && s.hosts[h].pc.Picked? && s.hosts[h].pc.job.kind.WorkflowJobPayload?
    requires var attempts := s.hosts[h].pc.job.attempts;
      attempts > 0 && attempts > if s.hosts[h].limit == 0 then 5 else s.hosts[h].limit
    ensures var t := Next(s, Host(h, Work(OverLimit))); var queue := Read(t.db, PluginQueue(h));
      && t.hosts[h].pc.Stopping?
      && |queue| <= 1 && (queue != [] ==> queue[0].id == s.hosts[h].pc.job.id && queue[0].status.Completed?)
      && (queue == [] <==> Read(s.db, PluginQueue(h)) == [])
  {
    ReachableInv(s);
    hide WorkStep;
    OverLimitView(h, ViewOf(s, h));
    PutThenView(s, h, WorkStep(h, ViewOf(s, h), OverLimit));
  }

  lemma OverLimitView(self: HandlerId, v: View)
    requires HandlerOk(v.queue, v.cleaning, v.me)
    requires v.me.pc.Picked? && v.me.pc.job.kind.WorkflowJobPayload?
    requires !WithinLimit(v.me.limit, v.me.pc.job.attempts)
    ensures var w := WorkStep(self, v, OverLimit);
      && w.me.pc.Stopping? && |w.queue| == |v.queue| <= 1
      && (w.queue != [] ==> w.queue[0].id == v.me.pc.job.id && w.queue[0].status.Completed?)
  {
    if v.queue != [] {
      assert FirstSame(v.queue, v.me.pc.job.(action := Action.Cancel, status := Status.Completed)) == 0;
    }
  }

  /** A pausing host that finds its job still there resumes that very job, or finds it completed and stops. */
  lemma ResumeOwnsTheJob(s: State, h: HandlerId)
    requires Reachable(s) && h < |s.hosts| && s.hosts[h].pc.Waiting? && s.hosts[h].pc.job.kind.WorkflowJobPayload?
    requires HasId(Read(s.db, PluginQueue(h)), s.hosts[h].pc.job.id)
    ensures var t := Next(s, Host(h, Work(Resume))); var queue := Read(t.db, PluginQueue(h));
      && |queue| == 1 && queue[0].id == s.hosts[h].pc.job.id
      && (|| (t.hosts[h].pc == InPreparation(queue[0]) && queue[0].action.InProgress?)
          || (t.hosts[h].pc.Stopping? && queue[0].status.Completed?))
  {
    ReachableInv(s);
    hide WorkStep;
    ResumedView(h, ViewOf(s, h));
    PutThenView(s, h, WorkStep(h, ViewOf(s, h), Resume));
  }

  lemma ResumedView(self: HandlerId, v: View)
    requires HandlerOk(v.queue, v.cleaning, v.me)
    requires v.me.pc.Waiting? && v.me.pc.job.kind.WorkflowJobPayload? && HasId(v.queue, v.me.pc.job.id)
    ensures var w := WorkStep(self, v, Resume);
      && |w.queue| == 1 && w.queue[0].id == v.me.pc.job.id
      && (|| (w.me.pc == InPreparation(w.queue[0]) && w.queue[0].action.InProgress?)
          || (w.me.pc.Stopping? && w.queue[0].status.Completed?))
  {
    assert FirstSame(v.queue, v.me.pc.job.(action := Action.InProgress)) == 0;
  }

  /** Cleanup's two paused-cancellation branches are never taken: when the message is pending the plugin
      queue is already empty, and it is gone by the time a payload is settled. */
  lemma PausedCancellationIsUnreachable(s: State, h: HandlerId)
    requires Reachable(s) && h < |s.hosts| && s.hosts[h].abandoned
    ensures Read(s.db, PluginQueue(h)) == []
    ensures s.hosts[h].pc.CleaningUp? ==> s.hosts[h].pc.stage.Enter?
  {
    ReachableInv(s);
  }

  /** Looking only at the heads is enough: whenever a handler has the payload of this job and run in its
      plugin queue or cleaning list, at whatever position, the receiver's check of the heads finds it. */
  lemma HeadCheckIsComplete(s: State, job: QueueJob, h: HandlerId, k: Key, i: nat)
    requires Reachable(s) && h < |s.hosts| && (k == PluginQueue(h) || k == Cleaning(h)) && i < |Read(s.db, k)|
    requires var x := Read(s.db, k)[i]; x.kind.WorkflowJobPayload? && x.id == job.id && x.runId == job.runId
    ensures AtSomeHandlersHead(s, job)
  {
    ReachableInv(s);
    assert i == 0;
    assert HeadIs(Read(s.db, k), job);
  }

  lemma Run3(s: State, a: Step, b: Step, c: Step)
    ensures Run(s, [a, b, c]) == Next(Next(Next(s, a), b), c)
  {
    assert [a, b, c][1..] == [b, c] && [b, c][1..] == [c] && [c][1..] == [];
    assert Run(Next(s, a), [b, c]) == Run(Next(Next(s, a), b), [c]);
    assert Run(Next(Next(s, a), b), [c]) == Run(Next(Next(Next(s, a), b), c), []);
  }

  // The receiver's look at the handlers' lists, on their fields.
  lemma HeadCheckIff(s: State, job: QueueJob)
    ensures AtSomeHandlersHead(s, job) <==>
            exists h, k :: 0 <= h < |s.hosts| && k in [PluginQueue(h), Cleaning(h)] &&
              Read(s.db, k) != [] && Read(s.db, k)[0].id == job.id && Read(s.db, k)[0].runId == job.runId
  {
    forall h | 0 <= h < |s.hosts|
      ensures HeadIs(Read(s.db, PluginQueue(h)), job) || HeadIs(Read(s.db, Cleaning(h)), job) <==>
        exists k :: k in [PluginQueue(h), Cleaning(h)] &&
          Read(s.db, k) != [] && Read(s.db, k)[0].id == job.id && Read(s.db, k)[0].runId == job.runId
    {
      assert PluginQueue(h) in [PluginQueue(h), Cleaning(h)] && Cleaning(h) in [PluginQueue(h), Cleaning(h)];
    }
  }

  /** Handled on its own, a queued event is enqueued exactly when its job is neither in the main queue nor at
      the head of a handler's list. */
  lemma QueuedEventIsEnqueuedIff(s: State, d: nat, job: QueueJob)
    requires WellFormed(job) && d < |s.deliveries| && s.deliveries[d].Resting?
    ensures var t := Run(s, [Receive(d, QueuedEvent(job)), Proceed(d), Proceed(d)]);
      var main := Read(s.db, Main);
      var present := (exists i :: 0 <= i < |main| && main[i].id == job.id)
        || exists h, k :: 0 <= h < |s.hosts| && k in [PluginQueue(h), Cleaning(h)] &&
             Read(s.db, k) != [] && Read(s.db, k)[0].id == job.id && Read(s.db, k)[0].runId == job.runId;
      && Read(t.db, Main) == (if present then main else main + [job])
      && t.hosts == s.hosts && forall k :: k != Main ==> Read(t.db, k) == Read(s.db, k)
  {
    HeadCheckIff(s, job);
    hide Run, AtSomeHandlersHead;
    HasIdIff(Read(s.db, Main), job.id);
    QueuedEventEffect(s, d, job);
  }

  lemma QueuedEventEffect(s: State, d: nat, job: QueueJob)
    requires WellFormed(job) && d < |s.deliveries| && s.deliveries[d].Resting?
    ensures var t := Run(s, [Receive(d, QueuedEvent(job)), Proceed(d), Proceed(d)]);
      var main := Read(s.db, Main);
      && Read(t.db, Main) == (if HasId(main, job.id) || AtSomeHandlersHead(s, job) then main else main + [job])
      && t.hosts == s.hosts && forall k :: k != Main ==> Read(t.db, k) == Read(s.db, k)
  {
    Run3(s, Receive(d, QueuedEvent(job)), Proceed(d), Proceed(d));
    var s1 := Next(s, Receive(d, QueuedEvent(job)));
    if !HasId(Read(s.db, Main), job.id) {
      assert s1 == DeliveryAt(s, d, CheckingHandlers(job));
      assert AtSomeHandlersHead(s1, job) == AtSomeHandlersHead(s, job);
    }
  }

  // No list of a handler, nor the main queue, has a copy of the job: all copies there are, are in hand.
  predicate AllInHand(s: State, id: JobId) {
    && Total(CopiesOf(id), Read(s.db, Main)) == 0
    && forall h :: 0 <= h < |s.hosts| ==>
         Total(CopiesOf(id), Read(s.db, PluginQueue(h))) == 0 && Total(CopiesOf(id), Read(s.db, Cleaning(h))) == 0
  }

  // A job id belongs to one run: stored payloads with this id have this run id.
  ghost predicate OneRunOf(s: State, job: QueueJob) {
    forall h :: 0 <= h < |s.hosts| ==>
      forall x :: (x in Read(s.db, PluginQueue(h)) || x in Read(s.db, Cleaning(h))) && x.kind.WorkflowJobPayload? ==>
        (x.id == job.id ==> x.runId == job.runId)
  }

  /** So in a reachable state a job that already has copies gets another one from a repeated queued event if and
      only if all its copies are in hand: popped off one list and not yet pushed to the next. */
  lemma SecondCopyIff(s: State, d: nat, job: QueueJob)
    requires Reachable(s) && OneRunOf(s, job) && Load(CopiesOf(job.id), s) > 0
    requires WellFormed(job) && d < |s.deliveries| && s.deliveries[d].Resting?
    ensures var t := Run(s, [Receive(d, QueuedEvent(job)), Proceed(d), Proceed(d)]);
      Load(CopiesOf(job.id), t) == Load(CopiesOf(job.id), s) + if AllInHand(s, job.id) then 1 else 0
  {
    var m, main := CopiesOf(job.id), Read(s.db, Main);
    var t := Run(s, [Receive(d, QueuedEvent(job)), Proceed(d), Proceed(d)]);
    QueuedEventEffect(s, d, job);
    LookupsFindIff(s, job);
    HeldChange(m, s, t, |s.hosts|, |s.hosts|, |s.hosts|);
    TotalConcat(m, main, [job]);
    TotalOne(m, job);
  }

  lemma LookupsFindIff(s: State, job: QueueJob)
    requires Reachable(s) && OneRunOf(s, job)
    ensures HasId(Read(s.db, Main), job.id) || AtSomeHandlersHead(s, job) <==> !AllInHand(s, job.id)
  {
    hide Reachable, AtSomeHandlersHead;
    var m, main := CopiesOf(job.id), Read(s.db, Main);
    ReachableInv(s);
    SomeCopyIff(job.id, main);
    if AtSomeHandlersHead(s, job) {
      var _ := HeadIsStored(s, job);
    } else {
      forall h | 0 <= h < |s.hosts|
        ensures Total(m, Read(s.db, PluginQueue(h))) == 0 && Total(m, Read(s.db, Cleaning(h))) == 0
      {
        NotAtHead(s, job, h, PluginQueue(h));
        NotAtHead(s, job, h, Cleaning(h));
      }
    }
    if HasId(main, job.id) {
      assert main[FirstWithId(main, job.id)].kind.WorkflowJobPayload?;
    } else if Total(m, main) > 0 {
      HasIdIff(main, job.id);
    }
  }

  lemma {:induction false} SomeCopyIff(id: JobId, xs: seq<QueueJob>)
    ensures Total(CopiesOf(id), xs) > 0 <==>
            exists i :: 0 <= i < |xs| && xs[i].kind.WorkflowJobPayload? && xs[i].id == id
  {
    if xs != [] {
      SomeCopyIff(id, xs[1..]);
      assert forall i :: 0 <= i < |xs[1..]| ==> xs[1..][i] == xs[i + 1];
      assert forall i :: 0 < i < |xs| ==> xs[i] == xs[1..][i - 1];
    }
  }

  // A list without a copy at any handler's head has none at all.
  lemma NotAtHead(s: State, job: QueueJob, h: HandlerId, k: Key)
    requires Reachable(s) && OneRunOf(s, job) && !AtSomeHandlersHead(s, job)
    requires h < |s.hosts| && (k == PluginQueue(h) || k == Cleaning(h))
    ensures Total(CopiesOf(job.id), Read(s.db, k)) == 0
  {
    var xs := Read(s.db, k);
    SomeCopyIff(job.id, xs);
    if i: nat :| i < |xs| && xs[i].kind.WorkflowJobPayload? && xs[i].id == job.id {
      assert xs[i] in xs;
      HeadCheckIsComplete(s, job, h, k, i);
    }
  }

  // A head with this job's id and run id, payload or VM, stands for a payload the same handler stores.
  lemma HeadIsStored(s: State, job: QueueJob) returns (h: HandlerId)
    requires Reachable(s) && AtSomeHandlersHead(s, job)
    ensures h < |s.hosts|
    ensures Total(CopiesOf(job.id), Read(s.db, PluginQueue(h))) + Total(CopiesOf(job.id), Read(s.db, Cleaning(h))) > 0
  {
    ReachableInv(s);
    h :| 0 <= h < |s.hosts| && (HeadIs(Read(s.db, PluginQueue(h)), job) || HeadIs(Read(s.db, Cleaning(h)), job));
    var queue, cleaning := Read(s.db, PluginQueue(h)), Read(s.db, Cleaning(h));
    hide Total;
    SomeCopyIff(job.id, queue);
    SomeCopyIff(job.id, cleaning);
    if !HeadIs(queue, job) && cleaning[0].kind.WorkflowJobPayload? {
      assert cleaning[0].id == job.id;
    } else {
      assert queue[0].kind.WorkflowJobPayload? && queue[0].id == job.id;
    }
  }
}
