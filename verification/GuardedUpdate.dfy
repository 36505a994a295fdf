/** internal/github/database.go, UpdateJobInDB, by any number of writers at once. Each reads the head and goes on
    unless it is completed, then reads the list to find its entry, then writes at that index: three commands,
    with those of the others in between. */
module GuardedUpdate {
  import opened QueueJobs
  import opened JobQueue

  /** Passed: the head it read was not completed. Planned: it found its entry at this index. */
  datatype Writer = Resting | Passed(job: QueueJob) | Planned(job: QueueJob, at: nat)

  datatype State = State(list: seq<QueueJob>, writers: seq<Writer>)

  /** Other clients append, remove an equal entry (LREM), move the last entry away (RPOPLPUSH) or delete the list. */
  datatype Step =
    | ReadHead(w: nat, job: QueueJob) | ReadList(w: nat) | Write(w: nat)
    | Append(x: QueueJob) | Remove(x: QueueJob) | MoveTail | Delete

  function Next(s: State, a: Step): State {
    match a
    case ReadHead(w, job) =>
      if w < |s.writers| && s.writers[w].Resting? && s.list != [] && !s.list[0].status.Completed? then
        Set(s, w, Passed(job))
      else s
    case ReadList(w) =>
      if w < |s.writers| && s.writers[w].Passed? then
        var at := FirstSame(s.list, s.writers[w].job);
        Set(s, w, if at < |s.list| then Planned(s.writers[w].job, at) else Resting)
      else s
    case Write(w) =>
      if w < |s.writers| && s.writers[w].Planned? then
        var (job, at) := (s.writers[w].job, s.writers[w].at);
        Set(s, w, Resting).(list := if at < |s.list| then s.list[at := job] else s.list)
      else s
    case Append(x) => s.(list := s.list + [x])
    case Remove(x) => s.(list := LRem(s.list, x))
    case MoveTail => if s.list == [] then s else s.(list := s.list[..|s.list| - 1])
    case Delete => s.(list := [])
  }

  function Set(s: State, w: nat, x: Writer): State
    requires w < |s.writers|
  {
    s.(writers := s.writers[w := x])
  }

  function Run(s: State, steps: seq<Step>): State
    decreases |steps|
  {
    if steps == [] then s else Run(Next(s, steps[0]), steps[1..])
  }

  /** An update of this module left alone is the whole update. */
  lemma AloneIsUpdateList(s: State, w: nat, job: QueueJob)
    requires w < |s.writers| && s.writers[w].Resting?
    ensures Run(s, [ReadHead(w, job), ReadList(w), Write(w)]).list == UpdateList(s.list, job).0
  {
    var steps := [ReadHead(w, job), ReadList(w), Write(w)];
    assert steps[1..] == [ReadList(w), Write(w)] && steps[1..][1..] == [Write(w)] && [Write(w)][1..] == [];
    assert Run(Next(s, steps[0]), steps[1..]) == Run(Next(Next(s, steps[0]), ReadList(w)), [Write(w)]);
    assert Run(Next(Next(s, steps[0]), ReadList(w)), [Write(w)])
           == Run(Next(Next(Next(s, steps[0]), ReadList(w)), Write(w)), []);
  }

  /** And the method, with other clients acting in its two gaps, is those three steps on the lists they leave. */
  lemma UpdateIsThreeSteps(
    s: State, w: nat, db: Store, queue: Key, job: QueueJob, afterHead: seq<Command>, afterList: seq<Command>)
    requires w < |s.writers| && s.writers[w].Resting? && s.list == Read(db, queue)
    ensures var after := UpdateAmid(db, queue, job, afterHead, afterList).0;
      var mid := ExecuteAll(db, afterHead); var late := ExecuteAll(mid, afterList);
      var s1 := Next(s, ReadHead(w, job));
      if s1.writers[w].Resting? then after == db
      else
        var s2 := Next(s1.(list := Read(mid, queue)), ReadList(w));
        if s2.writers[w].Resting? then after == mid
        else Read(after, queue) == Next(s2.(list := Read(late, queue)), Write(w)).list
  {
    hide ExecuteAll;
  }

  predicate HeadCompleted(s: State) {
    s.list != [] && s.list[0].status.Completed?
  }

  // The completed entry of the job is at the head.
  predicate Done(job: QueueJob, s: State) {
    s.list != [] && SameJob(s.list[0], job) && s.list[0].status.Completed?
  }

  /** A writer that is past the guard and about to put at the head something else than that job completed: it has
      found, or will find, its entry there, or removals have moved the list under an index it found before. */
  predicate Late(s: State, w: nat) {
    && w < |s.writers| && s.list != []
    && match s.writers[w]
       case Resting => false
       case Passed(job) => SameJob(s.list[0], job) && !job.status.Completed?
       case Planned(job, at) => at == 0 && !(SameJob(s.list[0], job) && job.status.Completed?)
  }

  // The step executes such a writer's plan.
  predicate Undoes(s: State, a: Step) {
    a.Write? && Late(s, a.w) && s.writers[a.w].Planned?
  }

  // The step takes the head away.
  predicate Takes(s: State, a: Step) {
    s.list != [] && (a.Delete? || (a.MoveTail? && |s.list| == 1) || (a.Remove? && s.list[0] == a.x))
  }

  /** The completed job at the head stays as long as it is not taken away. */
  predicate StaysCompleted(job: QueueJob, s: State, steps: seq<Step>)
    decreases |steps|
  {
    Done(job, s) && (steps == [] || Takes(s, steps[0]) || StaysCompleted(job, Next(s, steps[0]), steps[1..]))
  }

  // Until then, no step executes a plan for the head by a writer that was past its guard in s0 already.
  predicate NoLateWrite(s0: State, s: State, steps: seq<Step>)
    decreases |steps|
  {
    || steps == [] || Takes(s, steps[0])
    || (!(Undoes(s, steps[0]) && Late(s0, steps[0].w)) && NoLateWrite(s0, Next(s, steps[0]), steps[1..]))
  }

  // One step: the job stays at the head and completed unless it is undone, and no writer becomes late.
  lemma StepOnCompleted(job: QueueJob, s: State, a: Step, w: nat)
    requires Done(job, s) && !Takes(s, a)
    ensures Done(job, Next(s, a)) <==> !Undoes(s, a)
    ensures Late(Next(s, a), w) && !Undoes(s, a) ==> Late(s, w)
  {
  }

  lemma {:induction false} StaysCompletedFrom(s0: State, job: QueueJob, s: State, steps: seq<Step>)
    requires Done(job, s) && forall w :: Late(s, w) ==> Late(s0, w)
    ensures StaysCompleted(job, s, steps) <==> NoLateWrite(s0, s, steps)
    decreases |steps|
  {
    hide Done, Late, Next, Undoes, Takes;
    if steps != [] && !Takes(s, steps[0]) {
      var a := steps[0];
      StepOnCompleted(job, s, a, 0);
      if Undoes(s, a) {
        UndoerIsLate(s, a);
        NotCompleted(job, Next(s, a), steps[1..]);
      } else {
        forall w | Late(Next(s, a), w) ensures Late(s0, w) {
          StepOnCompleted(job, s, a, w);
        }
        StaysCompletedFrom(s0, job, Next(s, a), steps[1..]);
      }
    }
  }

  lemma UndoerIsLate(s: State, a: Step)
    requires Undoes(s, a)
    ensures a.Write? && Late(s, a.w)
  {
  }

  lemma NotCompleted(job: QueueJob, s: State, steps: seq<Step>)
    requires !Done(job, s)
    ensures !StaysCompleted(job, s, steps)
  {
  }

  /** Under every interleaving of any number of writers with appends and removals, a completed job at the head stays
      there completed until it is taken away, if and only if before that no write at the head is executed by a
      writer that had passed its guard before the completion and writes anything but that job completed. */
  lemma CompletionStaysIff(s: State, steps: seq<Step>)
    requires HeadCompleted(s)
    ensures StaysCompleted(s.list[0], s, steps) <==> NoLateWrite(s, s, steps)
  {
    StaysCompletedFrom(s, s.list[0], s, steps);
  }

  /** So it is safe in all continuations exactly when at that moment there is no such writer. */
  lemma CompletionIsSafeIff(s: State)
    requires HeadCompleted(s)
    ensures (forall steps :: StaysCompleted(s.list[0], s, steps)) <==> (forall w :: !Late(s, w))
  {
    if forall w :: !Late(s, w) {
      forall steps ensures StaysCompleted(s.list[0], s, steps) {
        CompletionStaysIff(s, steps);
        SafeWithoutLateWriters(s, s, steps);
      }
    } else {
      var w :| Late(s, w);
      var steps := LateSchedule(s, w);
      assert !StaysCompleted(s.list[0], s, steps);
    }
  }

  lemma {:induction false} SafeWithoutLateWriters(s0: State, s: State, steps: seq<Step>)
    requires forall w :: !Late(s0, w)
    ensures NoLateWrite(s0, s, steps)
    decreases |steps|
  {
    hide Late, Next, Undoes, Takes;
    if steps != [] {
      if Undoes(s, steps[0]) {
        UndoerIsLate(s, steps[0]);
      }
      SafeWithoutLateWriters(s0, Next(s, steps[0]), steps[1..]);
    }
  }

  // How a late writer undoes the completion.
  lemma LateSchedule(s: State, w: nat) returns (steps: seq<Step>)
    requires HeadCompleted(s) && Late(s, w)
    ensures !StaysCompleted(s.list[0], s, steps)
  {
    if s.writers[w].Planned? {
      steps := [Write(w)];
      assert !Done(s.list[0], Next(s, Write(w)));
    } else {
      steps := [ReadList(w), Write(w)];
      var t := Next(s, ReadList(w));
      assert FirstSame(s.list, s.writers[w].job) == 0;
      assert steps[1..] == [Write(w)];
      assert !Done(s.list[0], Next(t, Write(w)));
      assert !StaysCompleted(s.list[0], t, [Write(w)]);
    }
  }

  /** While the list only grows, what a writer plans to overwrite is an entry of its job. Then a late writer is one
      that has something not completed to write for the job at the head. */
  predicate PlansFit(s: State) {
    forall w :: 0 <= w < |s.writers| && s.writers[w].Planned? ==>
      s.writers[w].at < |s.list| && SameJob(s.list[s.writers[w].at], s.writers[w].job)
  }

  lemma {:induction false} LateWhileGrowing(s: State, steps: seq<Step>, w: nat)
    requires PlansFit(s)
    requires forall i :: 0 <= i < |steps| ==> !(steps[i].Remove? || steps[i].MoveTail? || steps[i].Delete?)
    ensures PlansFit(Run(s, steps))
    ensures Late(Run(s, steps), w) ==>
      var t := Run(s, steps); SameJob(t.list[0], t.writers[w].job) && !t.writers[w].job.status.Completed?
    decreases |steps|
  {
    if steps != [] {
      StepKeepsFit(s, steps[0]);
      LateWhileGrowing(Next(s, steps[0]), steps[1..], w);
    }
  }

  lemma StepKeepsFit(s: State, a: Step)
    requires PlansFit(s) && !(a.Remove? || a.MoveTail? || a.Delete?)
    ensures PlansFit(Next(s, a))
  {
  }

  /** A concrete schedule: the checker completes a queued job while Run marks it as being prepared. One after the
      other, the same two updates leave it completed. */
  lemma TwoWritersCanUndoCompletion(job: QueueJob)
    requires job.status == Status.Queued
    ensures var done, prepared := job.(status := Status.Completed), job.(action := Action.Preparing);
      var s := State([job], [Resting, Resting]);
      var t := Run(s, [ReadHead(0, prepared), ReadHead(1, done), ReadList(1), Write(1)]);
      && HeadCompleted(t) && !HeadCompleted(Run(t, [ReadList(0), Write(0)]))
      && UpdateList(t.list, prepared) == (t.list, AlreadyCompleted)
  {
    var done, prepared := job.(status := Status.Completed), job.(action := Action.Preparing);
    var s := State([job], [Resting, Resting]);
    var s1 := Next(s, ReadHead(0, prepared));
    assert s1 == State([job], [Passed(prepared), Resting]);
    AloneIsUpdateList(s1, 1, done);
    var three := [ReadHead(1, done), ReadList(1), Write(1)];
    assert [ReadHead(0, prepared)] + three == [ReadHead(0, prepared), ReadHead(1, done), ReadList(1), Write(1)];
    assert ([ReadHead(0, prepared)] + three)[1..] == three;
    assert FirstSame([job], done) == 0 && FirstSame([done], prepared) == 0;
    var t := Run(s1, three);
    RunThree(s1, ReadHead(1, done), ReadList(1), Write(1));
    assert t == State([done], [Passed(prepared), Resting]);
    assert [ReadList(0), Write(0)][1..] == [Write(0)] && [Write(0)][1..] == [];
    assert Run(t, [ReadList(0), Write(0)]) == Run(Next(t, ReadList(0)), [Write(0)])
           == Run(Next(Next(t, ReadList(0)), Write(0)), []);
  }

  /** And with a removal in between, an update can put its job, just removed, in place of another one. */
  lemma StaleIndexReplacesAnotherJob(job: QueueJob, other: QueueJob, update: QueueJob)
    requires !job.status.Completed? && SameJob(job, update) && job != other
    ensures var s := Run(State([job, other], [Resting]), [ReadHead(0, update), ReadList(0), Step.Remove(job)]);
      s.list == [other] && Run(s, [Write(0)]).list == [update]
  {
    var s := State([job, other], [Resting]);
    RunThree(s, ReadHead(0, update), ReadList(0), Step.Remove(job));
    assert FirstSame(s.list, update) == 0;
    var t := State([job, other], [Planned(update, 0)]);
    assert Next(Next(s, ReadHead(0, update)), ReadList(0)) == t;
    assert First(t.list, job) == 0;
    assert Next(t, Step.Remove(job)) == State([other], [Planned(update, 0)]);
    assert [Write(0)][1..] == [];
    assert Run(State([other], [Planned(update, 0)]), [Write(0)]) == Run(State([update], [Resting]), []);
  }

  lemma RunThree(s: State, a: Step, b: Step, c: Step)
    ensures Run(s, [a, b, c]) == Next(Next(Next(s, a), b), c)
  {
    assert [a, b, c][1..] == [b, c] && [b, c][1..] == [c] && [c][1..] == [];
    assert Run(Next(s, a), [b, c]) == Run(Next(Next(s, a), b), [c]);
    assert Run(Next(Next(s, a), b), [c]) == Run(Next(Next(Next(s, a), b), c), []);
  }
}
