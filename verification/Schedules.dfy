/** Concrete runs from an empty Redis, showing that what the guarantees allow does happen. */
module Schedules {
  import opened QueueJobs
  import opened JobQueue
  import opened Cleanup
  import opened Protocol
  import opened HandlerInvariant
  import opened Conservation
  import opened Runs
  import opened Guarantees
  import opened ReachableStates
  import opened EventLists
  import opened LeftEntries

  // One handler has just popped the only job there is off the main queue.
  predicate JobInHand(s: State, job: QueueJob) {
    && |s.hosts| == 1 && s.hosts[0].pc == Holding(job, true)
    && |s.deliveries| == 1 && s.deliveries[0].Resting?
    && Read(s.db, Main) == [] && Read(s.db, PluginQueue(0)) == [] && Read(s.db, Cleaning(0)) == []
    && Read(s.db, MainCompleted) == [] && s.hosts[0].reason == None && !s.hosts[0].abandoned
    && s.book.enqueued == [job] && s.book.doubled == [] && s.book.dropped == [] && s.book.lost == []
  }

  // The receiver enqueues the job.
  function Enqueuing(job: QueueJob): seq<Step> {
    [Receive(0, QueuedEvent(job)), Proceed(0), Proceed(0)]
  }

  // The handler starts a run, finds nothing of its own, and pops the head of the main queue.
  function Claiming(): seq<HostAction> {
    [Select(Begin), Clean(StartCleanup), Clean(LookAtHead(false)), Select(PickUp), Select(SeeMain(0)), Select(PopMain)]
  }

  function OfHost(actions: seq<HostAction>): seq<Step> {
    if actions == [] then [] else [Host(0, actions[0])] + OfHost(actions[1..])
  }

  function HostRun(v: View, actions: seq<HostAction>): View
    decreases |actions|
  {
    if actions == [] then v else HostRun(HostStep(0, v, actions[0]), actions[1..])
  }

  lemma {:induction false} HostRunIsRun(s: State, actions: seq<HostAction>)
    requires |s.hosts| == 1
    ensures var t := Run(s, OfHost(actions));
      |t.hosts| == 1 && t.deliveries == s.deliveries && ViewOf(t, 0) == HostRun(ViewOf(s, 0), actions)
    decreases |actions|
  {
    hide HostStep;
    if actions != [] {
      PutThenView(s, 0, HostStep(0, ViewOf(s, 0), actions[0]));
      var rest := OfHost(actions[1..]);
      assert ([Host(0, actions[0])] + rest)[1..] == rest;
      HostRunIsRun(Next(s, Host(0, actions[0])), actions[1..]);
    }
  }

  lemma Enqueued(s0: State, job: QueueJob)
    requires Initial(s0) && |s0.hosts| == 1 && |s0.deliveries| == 1 && WellFormed(job)
    ensures var s := Run(s0, Enqueuing(job));
      && s.hosts == s0.hosts && s.deliveries == s0.deliveries
      && Read(s.db, Main) == [job] && Read(s.db, PluginQueue(0)) == [] && Read(s.db, Cleaning(0)) == []
      && Read(s.db, MainCompleted) == []
      && s.book == s0.book.(enqueued := [job], pushed := multiset{job})
  {
    var e := QueuedEvent(job);
    Run3(s0, Receive(0, e), Proceed(0), Proceed(0));
    var s1 := DeliveryAt(s0, 0, CheckingHandlers(job));
    assert Next(s0, Receive(0, e)) == s1;
    var s2 := DeliveryAt(s0, 0, PushingQueued(job));
    assert Next(s1, Proceed(0)) == s2;
    assert [] + [job] == [job];
  }

  lemma Claimed(v: View, job: QueueJob)
    requires v.me.pc.Idle? && v.main == [job] && v.queue == [] && v.cleaning == []
    ensures var w := HostRun(v, Claiming());
      && w.me == Handler(Holding(job, true), None, false, v.me.limit)
      && w.main == [] && w.queue == [] && w.cleaning == [] && w.completed == v.completed
      && w.book == v.book.(claimed := v.book.claimed + multiset{job})
  {
    var a := Claiming();
    assert a[1..] == [Clean(StartCleanup), Clean(LookAtHead(false)), Select(PickUp), Select(SeeMain(0)),
                      Select(PopMain)];
    assert a[1..][1..] == [Clean(LookAtHead(false)), Select(PickUp), Select(SeeMain(0)), Select(PopMain)];
    assert a[1..][1..][1..] == [Select(PickUp), Select(SeeMain(0)), Select(PopMain)];
    assert a[1..][1..][1..][1..] == [Select(SeeMain(0)), Select(PopMain)];
    assert a[1..][1..][1..][1..][1..] == [Select(PopMain)];
    var v1 := HostStep(0, v, Select(Begin));
    var v2 := HostStep(0, v1, Clean(StartCleanup));
    var v3 := HostStep(0, v2, Clean(LookAtHead(false)));
    var v4 := HostStep(0, v3, Select(PickUp));
    var v5 := HostStep(0, v4, Select(SeeMain(0)));
    var v6 := HostStep(0, v5, Select(PopMain));
    assert v5.me.pc == MainSeen(job) && First([job], job) == 0;
    assert v6.main == [];
    assert HostRun(v, a) == HostRun(v1, a[1..]) == HostRun(v2, a[1..][1..]) == HostRun(v3, a[1..][1..][1..])
           == HostRun(v4, a[1..][1..][1..][1..]) == HostRun(v5, [Select(PopMain)]) == v6 by {
      hide HostStep;
    }
  }

  lemma ToHand(s0: State, job: QueueJob) returns (steps: seq<Step>)
    requires Initial(s0) && |s0.hosts| == 1 && |s0.deliveries| == 1 && WellFormed(job)
    ensures JobInHand(Run(s0, steps), job)
  {
    steps := Enqueuing(job) + OfHost(Claiming());
    var s := Run(s0, Enqueuing(job));
    Enqueued(s0, job);
    RunConcat(s0, Enqueuing(job), OfHost(Claiming()));
    HostRunIsRun(s, Claiming());
    Claimed(ViewOf(s, 0), job);
    var t := Run(s, OfHost(Claiming()));
    assert ViewOf(t, 0).main == Read(t.db, Main) && ViewOf(t, 0).queue == Read(t.db, PluginQueue(0))
           && ViewOf(t, 0).cleaning == Read(t.db, Cleaning(0)) && ViewOf(t, 0).me == t.hosts[0]
           && ViewOf(t, 0).completed == Read(t.db, MainCompleted)
           && ViewOf(t, 0).book == t.book;
  }

  lemma Canceled(s: State, job: QueueJob)
    requires JobInHand(s, job)
    ensures var t := Run(s, [Host(0, Select(CancelInHand))]); t.book == s.book.(lost := [job])
  {
    var v := ViewOf(s, 0);
    var w := HostStep(0, v, Select(CancelInHand));
    assert [] + [job] == [job];
    assert w.book == s.book.(lost := [job]);
    hide HostStep;
    PutThenView(s, 0, w);
    assert [Host(0, Select(CancelInHand))][1..] == [];
    var t := Next(s, Host(0, Select(CancelInHand)));
    assert Run(s, [Host(0, Select(CancelInHand))]) == Run(t, []) == t;
    assert ViewOf(t, 0).book == t.book;
  }

  /** A shutdown between the LREM and the RPUSH of a claim: the job, enqueued and not dropped, is nowhere. */
  lemma ShutdownLosesTheClaimedJob(s0: State, job: QueueJob) returns (steps: seq<Step>)
    requires Initial(s0) && |s0.hosts| == 1 && |s0.deliveries| == 1 && WellFormed(job)
    ensures var s := Run(s0, steps);
      && s.book.enqueued == [job] && s.book.dropped == [] && s.book.lost == [job]
      && !InTheSystem(s, job.id) && Load(CopiesOf(job.id), s) == 0
  {
    var before := ToHand(s0, job);
    var cancel := [Host(0, Select(CancelInHand))];
    steps := before + cancel;
    hide Run, Total, Load, InTheSystem;
    RunConcat(s0, before, cancel);
    Canceled(Run(s0, before), job);
    RunConserves(s0, steps, job.id);
    TotalOne(CopiesOf(job.id), job);
    TotalNil(CopiesOf(job.id));
    LoadIffInTheSystem(Run(s0, steps), job.id);
  }

  lemma EnqueuedAgain(s: State, job: QueueJob)
    requires JobInHand(s, job) && WellFormed(job)
    ensures var t := Run(s, Enqueuing(job));
      t.book == s.book.(enqueued := [job] + [job], pushed := s.book.pushed + multiset{job})
  {
    var e := QueuedEvent(job);
    Run3(s, Receive(0, e), Proceed(0), Proceed(0));
    var s1, s2 := DeliveryAt(s, 0, CheckingHandlers(job)), DeliveryAt(s, 0, PushingQueued(job));
    assert Next(s, Receive(0, e)) == s1;
    assert Next(s1, Proceed(0)) == s2;
  }

  /** The same event delivered again in that moment: the lookups find the job nowhere and it is enqueued twice. */
  lemma RedeliveryInThatMomentDuplicates(s0: State, job: QueueJob) returns (steps: seq<Step>)
    requires Initial(s0) && |s0.hosts| == 1 && |s0.deliveries| == 1 && WellFormed(job)
    ensures Load(CopiesOf(job.id), Run(s0, steps)) == 2
  {
    var before := ToHand(s0, job);
    steps := before + Enqueuing(job);
    hide Run, Total, Load;
    RunConcat(s0, before, Enqueuing(job));
    EnqueuedAgain(Run(s0, before), job);
    RunConserves(s0, steps, job.id);
    TotalConcat(CopiesOf(job.id), [job], [job]);
    TotalOne(CopiesOf(job.id), job);
    TotalNil(CopiesOf(job.id));
  }

  // The handler adopts the job and finds at GitHub that it is completed; its cleanup goes on from there.
  function Finishing(): seq<HostAction> {
    [Select(Adopt), Work(EditAndStop(Edit(NoAction, Status.Completed, "success", "")))]
  }

  function CleaningUntilFound(): seq<HostAction> {
    [Clean(StartCleanup), Clean(LookAtHead(false)), Clean(TakeEntry), Clean(ClearInProgress), Clean(CleanAction.Settle)]
  }

  function Done(job: QueueJob): QueueJob {
    Edited(job, Edit(NoAction, Status.Completed, "success", ""))
  }

  lemma Finished(v: View, job: QueueJob)
    requires v.me.pc == Holding(job, true) && v.queue == [] && WellFormed(job) && !job.status.Completed?
    ensures var w := HostRun(v, Finishing());
      && w.queue == [Done(job)] && w.me == v.me.(pc := Stopping) && w.cleaning == v.cleaning
      && w.completed == v.completed
  {
    var a := Finishing();
    assert a[1..] == [Work(EditAndStop(Edit(NoAction, Status.Completed, "success", "")))] && a[1..][1..] == [];
    var v1 := HostStep(0, v, a[0]);
    assert v1.queue == [job] && FirstSame([job], Done(job)) == 0;
    var v2 := HostStep(0, v1, a[1]);
    assert v2.queue == [Done(job)];
    assert HostRun(v, a) == HostRun(v1, a[1..]) == v2 by {
      hide HostStep;
    }
  }

  lemma LookedUp(v: View, job: QueueJob, event: QueueJob)
    requires v.me.pc.Stopping? && v.queue == [job] && v.cleaning == [] && v.completed == [event] && event.id == job.id
    requires job.kind.WorkflowJobPayload? && job.status.Completed? && !v.me.abandoned
    ensures var w := HostRun(v, CleaningUntilFound());
      && w.queue == [] && w.cleaning == [job] && w.completed == [event]
      && w.me == v.me.(pc := CleaningUp(Removing(job, event), false))
  {
    var a := CleaningUntilFound();
    assert a[1..] == [Clean(LookAtHead(false)), Clean(TakeEntry), Clean(ClearInProgress), Clean(CleanAction.Settle)];
    assert a[1..][1..] == [Clean(TakeEntry), Clean(ClearInProgress), Clean(CleanAction.Settle)];
    assert a[1..][1..][1..] == [Clean(ClearInProgress), Clean(CleanAction.Settle)];
    assert a[1..][1..][1..][1..] == [Clean(CleanAction.Settle)];
    var v1 := HostStep(0, v, a[0]);
    var v2 := HostStep(0, v1, a[1]);
    var v3 := HostStep(0, v2, a[2]);
    assert v3.queue == [] && v3.cleaning == [job];
    var v4 := HostStep(0, v3, a[3]);
    var v5 := HostStep(0, v4, a[4]);
    assert HostRun(v, a) == HostRun(v1, a[1..]) == HostRun(v2, a[1..][1..]) == HostRun(v3, a[1..][1..][1..])
           == HostRun(v4, [Clean(CleanAction.Settle)]) == v5 by {
      hide HostStep;
    }
  }

  // The handler's cleanup has found the completed event of its job, and not yet removed it.
  predicate AtTheGap(s: State, job: QueueJob, event: QueueJob) {
    && |s.hosts| == 1 && s.hosts[0].pc == CleaningUp(Removing(job, event), false)
    && Read(s.db, PluginQueue(0)) == [] && Read(s.db, Cleaning(0)) == [job] && Read(s.db, MainCompleted) == [event]
  }

  function Completing(event: QueueJob): seq<Step> {
    [Receive(0, CompletedEvent(event)), Proceed(0), Proceed(0)]
  }

  lemma ToTheGap(s: State, job: QueueJob, event: QueueJob)
    requires JobInHand(s, job) && WellFormed(job) && !job.status.Completed? && WellFormed(event) && event.id == job.id
    ensures AtTheGap(Run(s, OfHost(Finishing()) + Completing(event) + OfHost(CleaningUntilFound())), Done(job), event)
  {
    hide HostRun;
    var s1 := Run(s, OfHost(Finishing()));
    HostRunIsRun(s, Finishing());
    Finished(ViewOf(s, 0), job);
    assert ViewOf(s1, 0).queue == Read(s1.db, PluginQueue(0)) && ViewOf(s1, 0).completed == Read(s1.db, MainCompleted)
           && ViewOf(s1, 0).cleaning == Read(s1.db, Cleaning(0)) && ViewOf(s1, 0).me == s1.hosts[0];
    assert HasId(Read(s1.db, PluginQueue(0)), event.id);
    assert InSomeQueue(s1, event.id);
    CompletedEventIsRecordedIff(s1, 0, event);
    var s2 := Run(s1, Completing(event));
    assert [] + [event] == [event];
    HostRunIsRun(s2, CleaningUntilFound());
    LookedUp(ViewOf(s2, 0), Done(job), event);
    var s3 := Run(s2, OfHost(CleaningUntilFound()));
    assert ViewOf(s3, 0).queue == Read(s3.db, PluginQueue(0)) && ViewOf(s3, 0).completed == Read(s3.db, MainCompleted)
           && ViewOf(s3, 0).cleaning == Read(s3.db, Cleaning(0)) && ViewOf(s3, 0).me == s3.hosts[0];
    RunConcat(s, OfHost(Finishing()), Completing(event));
    RunConcat(s, OfHost(Finishing()) + Completing(event), OfHost(CleaningUntilFound()));
  }

  lemma GivenUp(s: State, job: QueueJob, event: QueueJob)
    requires AtTheGap(s, job, event)
    ensures var t := Run(s, [Forget(MainCompleted, event), Host(0, Clean(RemoveEvent))]);
      && |t.hosts| == 1 && t.hosts[0].pc.Idle? && Read(t.db, Cleaning(0)) == [job] && !Tidy(t, 0)
  {
    var s1 := Next(s, Forget(MainCompleted, event));
    assert Read(s1.db, MainCompleted) == LRem([event], event) == [];
    var w := HostStep(0, ViewOf(s1, 0), Clean(RemoveEvent));
    var s2 := Next(s1, Host(0, Clean(RemoveEvent)));
    PutThenView(s1, 0, w);
    assert ViewOf(s2, 0).cleaning == Read(s2.db, Cleaning(0)) && ViewOf(s2, 0).me == s2.hosts[0];
    var steps := [Forget(MainCompleted, event), Host(0, Clean(RemoveEvent))];
    assert steps[1..] == [Host(0, Clean(RemoveEvent))] && steps[1..][1..] == [];
    assert Run(s, steps) == Run(s1, steps[1..]) == Run(s2, []);
  }

  /** The redelivery walk purges the completed event between cleanup's lookup and its removal: the run is over and
      the completed job is still in the cleaning list. */
  lemma PurgedEventLeavesTheJob(s0: State, job: QueueJob, event: QueueJob) returns (steps: seq<Step>)
    requires Initial(s0) && |s0.hosts| == 1 && |s0.deliveries| == 1
    requires WellFormed(job) && !job.status.Completed? && WellFormed(event) && event.id == job.id
    ensures var s := Run(s0, steps);
      && |s.hosts| == 1 && s.hosts[0].pc.Idle? && Read(s.db, Cleaning(0)) == [Done(job)] && !Tidy(s, 0)
  {
    hide Run;
    var before := ToHand(s0, job);
    var toGap := OfHost(Finishing()) + Completing(event) + OfHost(CleaningUntilFound());
    var rest := [Forget(MainCompleted, event), Host(0, Clean(RemoveEvent))];
    steps := before + toGap + rest;
    RunConcat(s0, before, toGap);
    RunConcat(s0, before + toGap, rest);
    ToTheGap(Run(s0, before), job, event);
    GivenUp(Run(s0, before + toGap), Done(job), event);
  }
}
