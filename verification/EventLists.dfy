/** The receiver's two event lists, in_progress and completed: entries are added after a lookup and removed
    by handlers at any time. */
module EventLists {
  import opened QueueJobs
  import opened JobQueue
  import opened Cleanup
  import opened Protocol
  import opened Conservation
  import opened Runs
  import opened ReachableStates

  // A pending push whose lookup found nothing, and still would.
  predicate PushStillNew(s: State, d: Delivery) {
    match d
    case PushingInProgress(job) => !HasId(Read(s.db, MainInProgress), job.id)
    case PushingCompleted(job) => !HasId(Read(s.db, MainCompleted), job.id)
    case _ => true
  }

  predicate EventsOk(s: State) {
    && |s.deliveries| <= 1
    && DistinctIds(Read(s.db, MainInProgress)) && DistinctIds(Read(s.db, MainCompleted))
    && forall d :: 0 <= d < |s.deliveries| ==> PushStillNew(s, s.deliveries[d])
  }

  // Nothing is added: no id appears that was not there, and none twice.
  ghost predicate Shrinks(before: seq<QueueJob>, after: seq<QueueJob>) {
    DistinctIds(before) ==> DistinctIds(after) && forall id :: HasId(after, id) ==> HasId(before, id)
  }

  lemma RemovalShrinks(xs: seq<QueueJob>, id: JobId)
    ensures Shrinks(xs, RemoveFirstWithId(xs, id))
  {
    if DistinctIds(xs) {
      RemoveKeepsDistinct(xs, FirstWithId(xs, id));
    }
  }

  lemma HostShrinksEvents(self: HandlerId, v: View, a: HostAction)
    ensures var w := HostStep(self, v, a);
      Shrinks(v.inProgress, w.inProgress) && Shrinks(v.completed, w.completed)
  {
    hide Shrinks, RemoveFirstWithId, HasId, UpdateList, LRem;
    SameShrinks(v.inProgress);
    SameShrinks(v.completed);
    match a
    case Select(x) =>
    case Work(x) => WorkLeavesEvents(self, v, x);
    case Check(x) =>
      if v.queue != [] { RemovalShrinks(v.completed, v.queue[0].id); }
    case Clean(x) =>
      if v.me.pc.CleaningUp? {
        if v.me.pc.stage.Have? { RemovalShrinks(v.inProgress, v.me.pc.stage.entry.id); }
        if v.me.pc.stage.Removing? { LRemShrinks(v.completed, v.me.pc.stage.event); }
      }
  }

  lemma SameShrinks(xs: seq<QueueJob>)
    ensures Shrinks(xs, xs)
  {
  }

  lemma WorkLeavesEvents(self: HandlerId, v: View, a: WorkAction)
    ensures var w := WorkStep(self, v, a); w.inProgress == v.inProgress && w.completed == v.completed
  {
  }

  lemma HostKeepsEvents(s: State, h: HandlerId, a: HostAction)
    requires EventsOk(s) && h < |s.hosts|
    ensures EventsOk(Next(s, Host(h, a)))
  {
    hide HostStep, DistinctIds, HasId;
    var t := Next(s, Host(h, a));
    HostShrinksEvents(h, ViewOf(s, h), a);
    PutThenView(s, h, HostStep(h, ViewOf(s, h), a));
    assert ViewOf(t, h).inProgress == Read(t.db, MainInProgress);
    assert ViewOf(t, h).completed == Read(t.db, MainCompleted);
  }

  lemma ForgetKeepsEvents(s: State, k: Key, x: QueueJob)
    requires EventsOk(s)
    ensures EventsOk(Next(s, Forget(k, x)))
  {
    hide DistinctIds, HasId, LRem;
    var completed := Read(s.db, MainCompleted);
    assert Shrinks(completed, LRem(completed, x)) by {
      LRemShrinks(completed, x);
    }
  }

  lemma LRemShrinks(xs: seq<QueueJob>, x: QueueJob)
    ensures Shrinks(xs, LRem(xs, x))
  {
    if DistinctIds(xs) {
      RemoveKeepsDistinct(xs, First(xs, x));
    }
  }

  lemma TakeLeavesEvents(s: State, h: HandlerId)
    ensures forall t :: t == TakeStep(s, h) || t == LookUpStep(s, h) ==>
      && Read(t.db, MainInProgress) == Read(s.db, MainInProgress)
      && Read(t.db, MainCompleted) == Read(s.db, MainCompleted) && t.deliveries == s.deliveries
  {
    hide LRem;
  }

  lemma StepKeepsEvents(s: State, step: Step)
    requires EventsOk(s)
    ensures EventsOk(Next(s, step))
  {
    match step
    case Host(h, a) =>
      if h < |s.hosts| {
        HostKeepsEvents(s, h, a);
      }
    case LookUp(h) =>
      hide LookUpStep, DistinctIds, HasId;
      TakeLeavesEvents(s, h);
    case Take(h) =>
      hide TakeStep, DistinctIds, HasId;
      TakeLeavesEvents(s, h);
    case Receive(d, event) =>
    case Proceed(d) => ProceedKeepsEvents(s, d);
    case Abandon(d) =>
    case RestartReceiver =>
    case Forget(k, x) => ForgetKeepsEvents(s, k, x);
  }

  lemma ProceedKeepsEvents(s: State, d: nat)
    requires EventsOk(s)
    ensures EventsOk(ProceedStep(s, d))
  {
    if d < |s.deliveries| {
      match s.deliveries[d]
      case PushingInProgress(job) => AppendKeepsDistinct(Read(s.db, MainInProgress), job);
      case PushingCompleted(job) => AppendKeepsDistinct(Read(s.db, MainCompleted), job);
      case _ =>
    }
  }

  /** With deliveries handled one at a time, the in_progress list and the main completed list never hold two
      entries of one job, whatever the handlers do in between. */
  lemma {:induction false} EventsStayUnique(s0: State, steps: seq<Step>)
    requires EventsOk(s0)
    ensures var s := Run(s0, steps);
      EventsOk(s) && DistinctIds(Read(s.db, MainInProgress)) && DistinctIds(Read(s.db, MainCompleted))
    decreases |steps|
  {
    if steps != [] {
      StepKeepsEvents(s0, steps[0]);
      EventsStayUnique(Next(s0, steps[0]), steps[1..]);
    }
  }

  /** What else happens to the receiver's lists: a start of the receiver empties the in_progress list, the redelivery
      walk removes one entry equal to the one it found from a completed list, and no other; and a delivery that is
      given up pushes nothing. */
  lemma OfOthers(s: State, step: Step)
    requires step.RestartReceiver? || step.Forget? || step.Abandon?
    ensures var t := Next(s, step);
      && t.hosts == s.hosts && t.book == s.book
      && (step.RestartReceiver? ==>
            && t.deliveries == s.deliveries && Read(t.db, MainInProgress) == []
            && forall k :: k != MainInProgress ==> Read(t.db, k) == Read(s.db, k))
      && (step.Forget? ==>
            && t.deliveries == s.deliveries
            && forall k :: Read(t.db, k) ==
                 if k == step.k && (k.MainCompleted? || k.PluginCompleted?) then LRem(Read(s.db, k), step.x)
                 else Read(s.db, k))
      && (step.Abandon? ==>
            && t.db == s.db && |t.deliveries| == |s.deliveries|
            && forall d :: 0 <= d < |s.deliveries| ==>
                 t.deliveries[d] == if d == step.d then Resting else s.deliveries[d])
  {
  }

  lemma InitialEvents(s: State)
    requires Initial(s) && |s.deliveries| <= 1
    ensures EventsOk(s)
  {
  }

  /** Two deliveries of the same event at once defeat the lookup: both push. */
  lemma ConcurrentDeliveriesPushTwice(s: State, job: QueueJob)
    requires |s.deliveries| == 2 && s.deliveries[0].Resting? && s.deliveries[1].Resting? && WellFormed(job)
    requires !HasId(Read(s.db, MainInProgress), job.id) && job.conclusion != "cancelled"
    ensures var e := InProgressEvent(job); var before := Read(s.db, MainInProgress);
      Read(Run(s, [Receive(0, e), Receive(1, e), Proceed(0)] + [Proceed(1)]).db, MainInProgress)
      == before + [job] + [job]
  {
    var e := InProgressEvent(job);
    RunConcat(s, [Receive(0, e), Receive(1, e), Proceed(0)], [Proceed(1)]);
    Run3(s, Receive(0, e), Receive(1, e), Proceed(0));
    var t := Run(s, [Receive(0, e), Receive(1, e), Proceed(0)]);
    assert [Proceed(1)][1..] == [];
    assert Run(t, [Proceed(1)]) == Run(Next(t, Proceed(1)), []);
  }

  /** Handled on its own, an in_progress event is recorded exactly when its job was not cancelled and has none yet. */
  lemma InProgressEventIsRecordedIff(s: State, d: nat, job: QueueJob)
    requires WellFormed(job) && d < |s.deliveries| && s.deliveries[d].Resting?
    ensures var t := Run(s, [Receive(d, InProgressEvent(job)), Proceed(d), Proceed(d)]);
      var inProgress := Read(s.db, MainInProgress);
      var recorded := exists i :: 0 <= i < |inProgress| && inProgress[i].id == job.id;
      && Read(t.db, MainInProgress)
         == (if job.conclusion != "cancelled" && !recorded then inProgress + [job] else inProgress)
      && t.hosts == s.hosts && forall k :: k != MainInProgress ==> Read(t.db, k) == Read(s.db, k)
  {
    var inProgress := Read(s.db, MainInProgress);
    Run3(s, Receive(d, InProgressEvent(job)), Proceed(d), Proceed(d));
    HasIdIff(inProgress, job.id);
    hide Run, HasId;
    if job.conclusion != "cancelled" && !HasId(inProgress, job.id) {
      assert Next(s, Receive(d, InProgressEvent(job))) == DeliveryAt(s, d, PushingInProgress(job));
    } else {
      assert Next(s, Receive(d, InProgressEvent(job))) == s && Next(s, Proceed(d)) == s;
    }
  }

  // The receiver's search of the queued lists, on their fields.
  lemma QueueSearchIff(s: State, id: JobId)
    ensures InSomeQueue(s, id) <==>
            exists k, i ::
              && (k == Main || ((k.PluginQueue? || k.Cleaning?) && k.h < |s.hosts|))
              && 0 <= i < |Read(s.db, k)| && Read(s.db, k)[i].id == id
  {
    HasIdIff(Read(s.db, Main), id);
    forall h: HandlerId
      ensures HasId(Read(s.db, PluginQueue(h)), id) <==>
              exists i :: 0 <= i < |Read(s.db, PluginQueue(h))| && Read(s.db, PluginQueue(h))[i].id == id
      ensures HasId(Read(s.db, Cleaning(h)), id) <==>
              exists i :: 0 <= i < |Read(s.db, Cleaning(h))| && Read(s.db, Cleaning(h))[i].id == id
    {
      HasIdIff(Read(s.db, PluginQueue(h)), id);
      HasIdIff(Read(s.db, Cleaning(h)), id);
    }
    hide HasId;
    if k, i :| (k == Main || ((k.PluginQueue? || k.Cleaning?) && k.h < |s.hosts|)) &&
               0 <= i < |Read(s.db, k)| && Read(s.db, k)[i].id == id {
      if k.PluginQueue? {
        assert HasId(Read(s.db, PluginQueue(k.h)), id);
      } else if k.Cleaning? {
        assert HasId(Read(s.db, Cleaning(k.h)), id);
      }
    }
  }

  /** Handled on its own, a completed event is recorded exactly when its job is in some queued list, the main
      queue or a handler's, and is not recorded already. */
  lemma CompletedEventIsRecordedIff(s: State, d: nat, job: QueueJob)
    requires WellFormed(job) && d < |s.deliveries| && s.deliveries[d].Resting?
    ensures var t := Run(s, [Receive(d, CompletedEvent(job)), Proceed(d), Proceed(d)]);
      var completed := Read(s.db, MainCompleted);
      var queued := exists k, i ::
        && (k == Main || ((k.PluginQueue? || k.Cleaning?) && k.h < |s.hosts|))
        && 0 <= i < |Read(s.db, k)| && Read(s.db, k)[i].id == job.id;
      var recorded := exists i :: 0 <= i < |completed| && completed[i].id == job.id;
      && Read(t.db, MainCompleted) == (if queued && !recorded then completed + [job] else completed)
      && t.hosts == s.hosts && |t.deliveries| == |s.deliveries| && t.book == s.book
      && forall k :: k != MainCompleted ==> Read(t.db, k) == Read(s.db, k)
  {
    var receive, proceed := Receive(d, CompletedEvent(job)), Proceed(d);
    QueueSearchIff(s, job.id);
    HasIdIff(Read(s.db, MainCompleted), job.id);
    Run3(s, receive, proceed, proceed);
    hide Run, InSomeQueue, HasId;
    if InSomeQueue(s, job.id) {
      var s1 := DeliveryAt(s, d, CheckingCompleted(job));
      assert Next(s, receive) == s1;
      if HasId(Read(s.db, MainCompleted), job.id) {
        assert Next(s1, proceed) == DeliveryAt(s1, d, Resting);
      } else {
        assert Next(s1, proceed) == DeliveryAt(s1, d, PushingCompleted(job));
      }
    } else {
      assert Next(s, receive) == s && Next(s, proceed) == s;
    }
  }
}
