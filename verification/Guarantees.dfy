/** What holds in every state of every run from an empty Redis. */
module Guarantees {
  import opened QueueJobs
  import opened JobQueue
  import opened Cleanup
  import opened Protocol
  import opened HandlerInvariant
  import opened Conservation
  import opened Runs

  lemma {:induction false} RunKeepsInv(s: State, steps: seq<Step>)
    requires Inv(s)
    ensures Inv(Run(s, steps))
    decreases |steps|
  {
    if steps != [] {
      StepKeepsInv(s, steps[0]);
      RunKeepsInv(Next(s, steps[0]), steps[1..]);
    }
  }

  lemma {:induction false} RunKeepsBalance(m: Measure, s: State, steps: seq<Step>)
    requires Inv(s)
    ensures WorldBalance(m, Run(s, steps)) == WorldBalance(m, s)
    decreases |steps|
  {
    if steps != [] {
      StepKeepsBalance(m, s, steps[0]);
      StepKeepsInv(s, steps[0]);
      RunKeepsBalance(m, Next(s, steps[0]), steps[1..]);
    }
  }

  lemma {:induction false} NothingHeldAtFirst(m: Measure, s: State, n: nat)
    requires Initial(s) && n <= |s.hosts|
    ensures HeldUpTo(m, s, n) == 0
  {
    if n > 0 {
      NothingHeldAtFirst(m, s, n - 1);
    }
  }

  lemma InitialInv(s: State)
    requires Initial(s)
    ensures Inv(s) && forall m :: WorldBalance(m, s) == 0
  {
    forall m ensures WorldBalance(m, s) == 0 {
      NothingHeldAtFirst(m, s, |s.hosts|);
    }
  }

  /** Conservation over a whole run. For copies: those in the system, those dropped and those lost in hand to a
      cancellation are exactly those the receiver enqueued and those doubled by a take on a stale lookup. For
      attempts: those carried by all these copies are exactly the job's returns to the main queue for a
      non-exempt reason, and what the doubled copies brought along. */
  lemma RunConserves(s0: State, steps: seq<Step>, id: JobId)
    requires Initial(s0)
    ensures var s := Run(s0, steps);
      && Load(CopiesOf(id), s) + Total(CopiesOf(id), s.book.dropped) + Total(CopiesOf(id), s.book.lost)
         == Total(CopiesOf(id), s.book.enqueued) + Total(CopiesOf(id), s.book.doubled)
      && Load(AttemptsOf(id), s) + Total(AttemptsOf(id), s.book.dropped) + Total(AttemptsOf(id), s.book.lost)
         == Total(AttemptsOf(id), s.book.enqueued) + Total(AttemptsOf(id), s.book.doubled)
            + Retried(AttemptsOf(id), s.book.retries)
  {
    InitialInv(s0);
    RunKeepsBalance(CopiesOf(id), s0, steps);
    RunKeepsBalance(AttemptsOf(id), s0, steps);
    NoRetriesOfCopies(id, Run(s0, steps).book.retries);
  }

  lemma {:induction false} NoRetriesOfCopies(id: JobId, ids: seq<JobId>)
    ensures Retried(CopiesOf(id), ids) == 0
  {
    if ids != [] {
      NoRetriesOfCopies(id, ids[1..]);
    }
  }

  /* ----- the same, step by step and without the ledger ----- */

  // The steps that create a copy of a job, and those that destroy one.
  predicate Enqueues(s: State, step: Step, id: JobId) {
    PushesJob(s, step) && s.deliveries[step.d].job.id == id
  }

  // Cleanup's terminal branches: completed, and failed or timed out with no reason to return it.
  predicate DropsItsJob(v: View, a: HostAction) {
    && v.me.pc.CleaningUp?
    && (|| (a == Clean(DropCompleted) && v.me.pc.stage.PurgeCleaning?)
        || (&& a == Clean(Settle) && v.me.pc.stage.Settling? && v.me.reason.None?
            && (v.me.pc.stage.job.status.Failed? || v.me.pc.stage.job.status.TimedOut?)))
  }

  predicate Drops(s: State, step: Step, id: JobId) {
    && step.Host? && step.h < |s.hosts| && DropsItsJob(ViewOf(s, step.h), step.a)
    && s.hosts[step.h].pc.stage.job.id == id
  }

  // A cancellation of the plugin's context that falls on a job in hand: already off its list, not yet on the next.
  predicate LosesItsJob(v: View, a: HostAction) {
    && a.Select?
    && (|| (a.s.CancelInHand? && v.me.pc.Holding?)
        || (a.s.PopMainCanceled? && v.me.pc.MainSeen? && v.me.pc.job in v.main))
  }

  predicate Loses(s: State, step: Step, id: JobId) {
    && step.Host? && step.h < |s.hosts| && LosesItsJob(ViewOf(s, step.h), step.a)
    && s.hosts[step.h].pc.job.id == id
  }

  lemma HostLedger(self: HandlerId, v: View, a: HostAction)
    requires ViewOk(v)
    ensures var w := HostStep(self, v, a);
      && w.book.enqueued == v.book.enqueued && w.book.doubled == v.book.doubled
      && w.book.dropped == (if DropsItsJob(v, a) then v.book.dropped + [v.me.pc.stage.job] else v.book.dropped)
      && w.book.lost == (if LosesItsJob(v, a) then v.book.lost + [v.me.pc.job] else v.book.lost)
  {
    match a
    case Select(x) => SelectLedger(v, x); hide SelectStep;
    case Work(x) => WorkFrame(self, v, x); hide WorkStep;
    case Check(x) => CheckFrame(v, x); hide CheckStep;
    case Clean(x) => CleanLedger(v, x); hide CleanStep;
  }

  lemma SelectLedger(v: View, x: SelectAction)
    ensures var w := SelectStep(v, x);
      && w.book.enqueued == v.book.enqueued && w.book.doubled == v.book.doubled && w.book.dropped == v.book.dropped
      && w.book.lost == (if LosesItsJob(v, Select(x)) then v.book.lost + [v.me.pc.job] else v.book.lost)
  {
    hide LRem;
  }

  lemma CleanLedger(v: View, x: CleanAction)
    requires ViewOk(v)
    ensures var w := CleanStep(v, x);
      && w.book.enqueued == v.book.enqueued && w.book.doubled == v.book.doubled && w.book.lost == v.book.lost
      && w.book.dropped ==
         (if DropsItsJob(v, Clean(x)) then v.book.dropped + [v.me.pc.stage.job] else v.book.dropped)
  {
    hide RemoveFirstWithId, StillRunning;
  }

  // A take of this job whose lookup has gone stale: the owner no longer has the entry, and the LREM's count is ignored.
  predicate Doubles(s: State, step: Step, id: JobId) {
    step.Take? && TakesStale(s, step.h) && s.hosts[step.h].pc.entry.id == id
  }

  // What a step adds to the enqueued, doubled, dropped and lost copies of a job.
  lemma LedgerChange(s: State, step: Step, id: JobId)
    requires Inv(s)
    ensures var m, t := CopiesOf(id), Next(s, step);
      && Total(m, t.book.enqueued) == Total(m, s.book.enqueued) + (if Enqueues(s, step, id) then 1 else 0)
      && Total(m, t.book.doubled) == Total(m, s.book.doubled) + (if Doubles(s, step, id) then 1 else 0)
      && Total(m, t.book.dropped) == Total(m, s.book.dropped) + (if Drops(s, step, id) then 1 else 0)
      && Total(m, t.book.lost) == Total(m, s.book.lost) + (if Loses(s, step, id) then 1 else 0)
  {
    hide Total, HostStep, HandlerOk, HasId, AtSomeHandlersHead, InSomeQueue;
    var m := CopiesOf(id);
    match step
    case Host(h, a) =>
      if h < |s.hosts| {
        var v := ViewOf(s, h);
        assert ViewOk(v);
        HostLedger(h, v, a);
        HostLedgerChange(m, v, a);
        assert Next(s, step).book == HostStep(h, v, a).book;
      }
    case LookUp(h) => TakeLeavesMain(s, h);
    case Take(h) => TakeLedger(s, h, id);
    case Proceed(d) =>
      ReceiverFrame(s, step);
      if PushesJob(s, step) {
        TotalConcat(m, s.book.enqueued, [s.deliveries[d].job]);
        TotalOne(m, s.deliveries[d].job);
      }
    case _ => ReceiverFrame(s, step);
  }

  lemma TakeLedger(s: State, h: HandlerId, id: JobId)
    requires Inv(s)
    ensures var t, m := TakeStep(s, h), CopiesOf(id);
      && t.book == s.book.(doubled := t.book.doubled)
      && Total(m, t.book.doubled) == Total(m, s.book.doubled) + (if Doubles(s, Take(h), id) then 1 else 0)
  {
    hide Total, LRem;
    if TakesStale(s, h) {
      assert HandlerOk(Read(s.db, PluginQueue(h)), Read(s.db, Cleaning(h)), s.hosts[h]);
      TotalConcat(CopiesOf(id), s.book.doubled, [s.hosts[h].pc.entry]);
      TotalOne(CopiesOf(id), s.hosts[h].pc.entry);
    }
  }

  lemma HostLedgerChange(m: Measure, v: View, a: HostAction)
    requires ViewOk(v) && m.CopiesOf?
    ensures DropsItsJob(v, a) ==>
              Total(m, v.book.dropped + [v.me.pc.stage.job])
              == Total(m, v.book.dropped) + if v.me.pc.stage.job.id == m.id then 1 else 0
    ensures LosesItsJob(v, a) ==>
              Total(m, v.book.lost + [v.me.pc.job])
              == Total(m, v.book.lost) + if v.me.pc.job.id == m.id then 1 else 0
  {
    if DropsItsJob(v, a) {
      PurgedIsPayload(v);
      TotalConcat(m, v.book.dropped, [v.me.pc.stage.job]);
      TotalOne(m, v.me.pc.stage.job);
    } else if LosesItsJob(v, a) {
      TotalConcat(m, v.book.lost, [v.me.pc.job]);
      TotalOne(m, v.me.pc.job);
    }
  }

  /** Step by step: a copy comes with the receiver's push, or with a take on a stale lookup; it goes in cleanup's
      terminal branches, or by a cancellation that falls on it in hand. No other step creates or destroys one:
      claiming, pushing back for another owner, pausing, resuming, handing over and returning keep the number of
      copies of every job. */
  lemma CopiesChange(s: State, step: Step, id: JobId)
    requires Inv(s)
    ensures Load(CopiesOf(id), Next(s, step))
         == Load(CopiesOf(id), s)
            + (if Enqueues(s, step, id) then 1 else 0) + (if Doubles(s, step, id) then 1 else 0)
            - (if Drops(s, step, id) then 1 else 0) - (if Loses(s, step, id) then 1 else 0)
  {
    hide *;
    StepKeepsBalance(CopiesOf(id), s, step);
    LedgerChange(s, step, id);
    NoRetriesOfCopies(id, s.book.retries);
    NoRetriesOfCopies(id, Next(s, step).book.retries);
    WorldBalanceIs(CopiesOf(id), s);
    WorldBalanceIs(CopiesOf(id), Next(s, step));
  }

  lemma WorldBalanceIs(m: Measure, s: State)
    ensures WorldBalance(m, s) == Load(m, s) + Total(m, s.book.dropped) + Total(m, s.book.lost)
                                  - Total(m, s.book.enqueued) - Total(m, s.book.doubled) - Retried(m, s.book.retries)
  {
    hide Load, Total, Retried;
  }

  lemma PurgedIsPayload(v: View)
    requires ViewOk(v) && v.me.pc.CleaningUp? && (v.me.pc.stage.PurgeCleaning? || v.me.pc.stage.Settling?)
    ensures v.me.pc.stage.job.kind.WorkflowJobPayload?
  {
  }

  /* ----- a job enqueued once has one owner ----- */

  lemma {:induction false} HeldByTwo(m: Measure, s: State, h: HandlerId, k: HandlerId, n: nat)
    requires h < k < n <= |s.hosts|
    ensures HeldUpTo(m, s, n) >= HeldBy(m, s, h) + HeldBy(m, s, k)
    decreases n
  {
    if k == n - 1 {
      HeldByOne(m, s, h, n - 1);
    } else {
      HeldByTwo(m, s, h, k, n - 1);
    }
  }

  lemma {:induction false} HeldByOne(m: Measure, s: State, h: HandlerId, n: nat)
    requires h < n <= |s.hosts|
    ensures HeldUpTo(m, s, n) >= HeldBy(m, s, h)
    decreases n
  {
    if h < n - 1 {
      HeldByOne(m, s, h, n - 1);
    }
  }

  /** A job that the receiver enqueued once, and that no take doubled, is never in two hands: not with two
      handlers, and not with a handler while it is in the main queue, where it is at most once. */
  lemma OneOwner(s0: State, steps: seq<Step>, id: JobId, h: HandlerId, k: HandlerId)
    requires Initial(s0)
    requires Total(CopiesOf(id), Run(s0, steps).book.enqueued) + StaleTakes(s0, steps, id) <= 1
    requires h < k < |Run(s0, steps).hosts|
    ensures var s := Run(s0, steps); var m := CopiesOf(id);
      Total(m, Read(s.db, Main)) + HeldBy(m, s, h) + HeldBy(m, s, k) <= 1
  {
    InitialInv(s0);
    RunConserves(s0, steps, id);
    LedgerCounts(s0, steps, id);
    TotalNil(CopiesOf(id));
    HeldByTwo(CopiesOf(id), Run(s0, steps), h, k, |Run(s0, steps).hosts|);
  }

  /** How often in a run a cancellation falls on this job in hand. */
  function CancellationsInHand(s: State, steps: seq<Step>, id: JobId): nat
    decreases |steps|
  {
    if steps == [] then 0
    else (if Loses(s, steps[0], id) then 1 else 0) + CancellationsInHand(Next(s, steps[0]), steps[1..], id)
  }

  /** How often in a run this job is taken over on a stale lookup. */
  function StaleTakes(s: State, steps: seq<Step>, id: JobId): nat
    decreases |steps|
  {
    if steps == [] then 0
    else (if Doubles(s, steps[0], id) then 1 else 0) + StaleTakes(Next(s, steps[0]), steps[1..], id)
  }

  // The ledger's lost and doubled copies are the run's cancellations in hand and stale takes.
  lemma {:induction false} LedgerCounts(s: State, steps: seq<Step>, id: JobId)
    requires Inv(s)
    ensures Total(CopiesOf(id), Run(s, steps).book.lost)
         == Total(CopiesOf(id), s.book.lost) + CancellationsInHand(s, steps, id)
    ensures Total(CopiesOf(id), Run(s, steps).book.doubled)
         == Total(CopiesOf(id), s.book.doubled) + StaleTakes(s, steps, id)
    decreases |steps|
  {
    hide Total, Next, Inv, Loses, Doubles;
    if steps != [] {
      LedgerChange(s, steps[0], id);
      StepKeepsInv(s, steps[0]);
      LedgerCounts(Next(s, steps[0]), steps[1..], id);
    }
  }

  predicate InTheSystem(s: State, id: JobId) {
    Total(CopiesOf(id), Read(s.db, Main)) > 0 || exists h :: 0 <= h < |s.hosts| && HeldBy(CopiesOf(id), s, h) > 0
  }

  /** Whether a job is lost: it is in the main queue or with a handler if and only if more copies of it were
      enqueued and doubled by stale takes than cleanup dropped and cancellations caught in hand. So a job enqueued
      and not dropped is never lost without such a cancellation; and enqueued once and never doubled, it is lost
      exactly by one. */
  lemma NeverLostIff(s0: State, steps: seq<Step>, id: JobId)
    requires Initial(s0)
    ensures var s := Run(s0, steps);
      var outstanding := Total(CopiesOf(id), s.book.enqueued) + StaleTakes(s0, steps, id)
                         - Total(CopiesOf(id), s.book.dropped);
      && (InTheSystem(s, id) <==> outstanding > CancellationsInHand(s0, steps, id))
      && (outstanding == 1 ==> (InTheSystem(s, id) <==> CancellationsInHand(s0, steps, id) == 0))
  {
    hide Total, Run;
    var s, m := Run(s0, steps), CopiesOf(id);
    InitialInv(s0);
    RunConserves(s0, steps, id);
    LedgerCounts(s0, steps, id);
    TotalNil(m);
    LoadIffInTheSystem(s, id);
  }

  lemma LoadIffInTheSystem(s: State, id: JobId)
    ensures Load(CopiesOf(id), s) > 0 <==> InTheSystem(s, id)
  {
    var m := CopiesOf(id);
    if Total(m, Read(s.db, Main)) == 0 {
      if Load(m, s) > 0 {
        SomeoneHolds(m, s, |s.hosts|);
      } else {
        forall h | 0 <= h < |s.hosts| ensures HeldBy(m, s, h) == 0 {
          HeldByOne(m, s, h, |s.hosts|);
        }
      }
    }
  }

  lemma {:induction false} SomeoneHolds(m: Measure, s: State, n: nat)
    requires n <= |s.hosts| && HeldUpTo(m, s, n) > 0
    ensures exists h :: 0 <= h < n && HeldBy(m, s, h) > 0
  {
    if HeldBy(m, s, n - 1) == 0 {
      SomeoneHolds(m, s, n - 1);
    }
  }

  /** Only jobs that are completed, failed or timed out are ever dropped. */
  lemma DroppedJobsHaveEnded(s0: State, steps: seq<Step>)
    requires Initial(s0)
    ensures forall job :: job in Run(s0, steps).book.dropped ==> Terminal(job)
  {
    InitialInv(s0);
    RunKeepsInv(s0, steps);
  }

  /** Every entry pushed to the main queue, by the receiver or by a handler, is in it or was claimed; as
      multisets, so no entry is claimed twice, however the claims' LRANGE and LREM interleave. */
  lemma {:induction false} ClaimsAreExclusive(s0: State, steps: seq<Step>)
    requires ClaimsAddUp(Read(s0.db, Main), s0.book)
    ensures var s := Run(s0, steps); multiset(Read(s.db, Main)) + s.book.claimed == s.book.pushed
    decreases |steps|
  {
    if steps != [] {
      StepKeepsClaims(s0, steps[0]);
      ClaimsAreExclusive(Next(s0, steps[0]), steps[1..]);
    }
  }

  lemma ReceiverKeepsClaims(s: State, step: Step)
    requires OfReceiver(step)
    requires ClaimsAddUp(Read(s.db, Main), s.book)
    ensures var t := Next(s, step); ClaimsAddUp(Read(t.db, Main), t.book)
  {
    ReceiverFrame(s, step);
  }

  lemma TakeLeavesMain(s: State, h: HandlerId)
    ensures var t := TakeStep(s, h);
      && Read(t.db, Main) == Read(s.db, Main)
      && t.book.claimed == s.book.claimed && t.book.pushed == s.book.pushed && t.book.enqueued == s.book.enqueued
    ensures var t := LookUpStep(s, h); Read(t.db, Main) == Read(s.db, Main) && t.book == s.book
  {
    hide LRem;
  }

  lemma StepKeepsClaims(s: State, step: Step)
    requires ClaimsAddUp(Read(s.db, Main), s.book)
    ensures var t := Next(s, step); ClaimsAddUp(Read(t.db, Main), t.book)
  {
    hide HostStep, TakeStep, LookUpStep;
    match step
    case Host(h, a) =>
      if h < |s.hosts| {
        HostKeepsClaims(h, ViewOf(s, h), a);
        PutThenView(s, h, HostStep(h, ViewOf(s, h), a));
      }
    case LookUp(h) => TakeLeavesMain(s, h);
    case Take(h) => TakeLeavesMain(s, h);
    case _ => ReceiverKeepsClaims(s, step);
  }

  /* ----- attempts ----- */

  lemma {:induction false} NoCopiesNoAttempts(id: JobId, xs: seq<QueueJob>)
    requires Total(CopiesOf(id), xs) == 0
    ensures Total(AttemptsOf(id), xs) == 0
  {
    if xs != [] {
      NoCopiesNoAttempts(id, xs[1..]);
    }
  }

  lemma {:induction false} OneCopysAttempts(id: JobId, xs: seq<QueueJob>, i: nat)
    requires i < |xs| && xs[i].kind.WorkflowJobPayload? && xs[i].id == id
    ensures Total(CopiesOf(id), xs) >= 1
    ensures Total(CopiesOf(id), xs) == 1 ==> Total(AttemptsOf(id), xs) == xs[i].attempts
  {
    TotalRemoveAt(CopiesOf(id), xs, i);
    TotalRemoveAt(AttemptsOf(id), xs, i);
    if Total(CopiesOf(id), xs) == 1 {
      NoCopiesNoAttempts(id, RemoveAt(xs, i));
    }
  }

  lemma {:induction false} HeldAttempts(id: JobId, s: State, n: nat)
    requires n <= |s.hosts| && HeldUpTo(CopiesOf(id), s, n) == 0
    ensures HeldUpTo(AttemptsOf(id), s, n) == 0
  {
    if n > 0 {
      HeldAttempts(id, s, n - 1);
      NoCopiesNoAttempts(id, Read(s.db, PluginQueue(n - 1)));
      NoCopiesNoAttempts(id, Read(s.db, Cleaning(n - 1)));
    }
  }

  lemma {:induction false} HolderAttempts(id: JobId, s: State, h: HandlerId, n: nat)
    requires h < n <= |s.hosts| && HeldUpTo(CopiesOf(id), s, n) <= 1 && HeldBy(CopiesOf(id), s, h) == 1
    ensures HeldUpTo(AttemptsOf(id), s, n) == HeldBy(AttemptsOf(id), s, h)
  {
    if h == n - 1 {
      HeldAttempts(id, s, n - 1);
    } else {
      HeldByOne(CopiesOf(id), s, h, n - 1);
      HolderAttempts(id, s, h, n - 1);
      NoCopiesNoAttempts(id, Read(s.db, PluginQueue(n - 1)));
      NoCopiesNoAttempts(id, Read(s.db, Cleaning(n - 1)));
    }
  }

  lemma {:induction false} EnqueuedAreFresh(s: State, steps: seq<Step>, id: JobId)
    requires Inv(s) && Total(AttemptsOf(id), s.book.enqueued) == 0
    ensures Total(AttemptsOf(id), Run(s, steps).book.enqueued) == 0
    decreases |steps|
  {
    if steps != [] {
      var step := steps[0];
      StepKeepsInv(s, step);
      if step.Host? && step.h < |s.hosts| {
        assert ViewOk(ViewOf(s, step.h));
        HostLedger(step.h, ViewOf(s, step.h), step.a);
      } else if PushesJob(s, step) {
        var job := s.deliveries[step.d].job;
        assert DeliveryOk(s.deliveries[step.d]);
        TotalConcat(AttemptsOf(id), s.book.enqueued, [job]);
        TotalOne(AttemptsOf(id), job);
      } else if step.Take? || step.LookUp? {
        TakeLeavesMain(s, step.h);
      } else if !step.Host? {
        ReceiverFrame(s, step);
      }
      EnqueuedAreFresh(Next(s, step), steps[1..], id);
    }
  }

  // The list of an entry in the main queue, or of one that handler h has in its plugin queue or cleaning list.
  predicate StoredIn(s: State, k: Key, x: QueueJob) {
    && (k.Main? || ((k.PluginQueue? || k.Cleaning?) && k.h < |s.hosts|))
    && x in Read(s.db, k)
  }

  /** The attempts of a stored job are its returns to the main queue for a non-exempt reason over the whole
      run, provided the receiver enqueued it once and no take doubled it. */
  lemma AttemptsCountReturns(s0: State, steps: seq<Step>, k: Key, job: QueueJob)
    requires Initial(s0) && job.kind.WorkflowJobPayload?
    requires StoredIn(Run(s0, steps), k, job)
    requires Total(CopiesOf(job.id), Run(s0, steps).book.enqueued) <= 1 && StaleTakes(s0, steps, job.id) == 0
    ensures job.attempts == Retried(AttemptsOf(job.id), Run(s0, steps).book.retries)
  {
    var s, id := Run(s0, steps), job.id;
    RunConserves(s0, steps, id);
    InitialInv(s0);
    LedgerCounts(s0, steps, id);
    TotalNil(CopiesOf(id));
    EnqueuedAreFresh(s0, steps, id);
    var i :| 0 <= i < |Read(s.db, k)| && Read(s.db, k)[i] == job;
    OneCopysAttempts(id, Read(s.db, k), i);
    if k.Main? {
      HeldAttempts(id, s, |s.hosts|);
    } else {
      HeldByOne(CopiesOf(id), s, k.h, |s.hosts|);
      HolderAttempts(id, s, k.h, |s.hosts|);
      NoCopiesNoAttempts(id, Read(s.db, Main));
      OthersAttempts(id, s, k);
    }
    NoCopiesNoAttempts(id, s.book.dropped);
    NoCopiesNoAttempts(id, s.book.lost);
    NoCopiesNoAttempts(id, s.book.doubled);
  }

  // With one copy, the holder's other list and its hand carry no attempts of the job.
  lemma OthersAttempts(id: JobId, s: State, k: Key)
    requires (k.PluginQueue? || k.Cleaning?) && k.h < |s.hosts|
    requires HeldBy(CopiesOf(id), s, k.h) == 1 && Total(CopiesOf(id), Read(s.db, k)) == 1
    ensures HeldBy(AttemptsOf(id), s, k.h) == Total(AttemptsOf(id), Read(s.db, k))
  {
    if k.PluginQueue? {
      NoCopiesNoAttempts(id, Read(s.db, Cleaning(k.h)));
    } else {
      NoCopiesNoAttempts(id, Read(s.db, PluginQueue(k.h)));
    }
  }
}
