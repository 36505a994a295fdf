/** Whole runs: any number of handlers and of webhook deliveries over one Redis, in any order of steps. */
module Runs {
  import opened QueueJobs
  import opened JobQueue
  import opened Cleanup
  import opened Protocol
  import opened HandlerInvariant
  import opened Conservation

  /** A webhook delivery being handled; each stage is the lookup or push it does next. */
  datatype Delivery =
    | Resting
    | CheckingHandlers(job: QueueJob) | PushingQueued(job: QueueJob)
    | PushingInProgress(job: QueueJob)
    | CheckingCompleted(job: QueueJob) | PushingCompleted(job: QueueJob)

  datatype State = State(db: Store, hosts: seq<Handler>, deliveries: seq<Delivery>, book: Ledger)

  datatype Event = QueuedEvent(job: QueueJob) | InProgressEvent(job: QueueJob) | CompletedEvent(job: QueueJob)

  /** Abandon: the context of the receiver is canceled while it handles a delivery. */
  datatype Step =
    | Host(h: HandlerId, a: HostAction)
    | LookUp(h: HandlerId)
    | Take(h: HandlerId)
    | Receive(d: nat, event: Event)
    | Proceed(d: nat)
    | Abandon(d: nat)
    | RestartReceiver
    | Forget(k: Key, x: QueueJob)

  function ViewOf(s: State, h: HandlerId): View
    requires h < |s.hosts|
  {
    View(
      Read(s.db, Main), Read(s.db, MainInProgress), Read(s.db, MainCompleted), Read(s.db, PausedJobs),
      Read(s.db, PluginQueue(h)), Read(s.db, Cleaning(h)), Read(s.db, PluginCompleted(h)), s.hosts[h], s.book)
  }

  function PutView(s: State, h: HandlerId, v: View): State
    requires h < |s.hosts|
  {
    var db := Write(Write(s.db, Main, v.main), MainInProgress, v.inProgress);
    var db := Write(Write(db, MainCompleted, v.completed), PausedJobs, v.paused);
    var db := Write(Write(db, PluginQueue(h), v.queue), Cleaning(h), v.cleaning);
    s.(db := Write(db, PluginCompleted(h), v.finished), hosts := s.hosts[h := v.me], book := v.book)
  }

  lemma PutThenView(s: State, h: HandlerId, v: View)
    requires h < |s.hosts|
    ensures var t := PutView(s, h, v);
      && |t.hosts| == |s.hosts| && t.deliveries == s.deliveries && ViewOf(t, h) == v
      && forall k :: 0 <= k < |s.hosts| && k != h ==>
           && Read(t.db, PluginQueue(k)) == Read(s.db, PluginQueue(k))
           && Read(t.db, Cleaning(k)) == Read(s.db, Cleaning(k))
           && t.hosts[k] == s.hosts[k]
  {
  }

  /* ----- taking over a paused job: the lookup with the check of its action, then the LREM ----- */

  function LookUpStep(s: State, h: HandlerId): State {
    if h >= |s.hosts| || !s.hosts[h].pc.AdHeld? then s
    else
      var ad := s.hosts[h].pc.ad;
      if ad.pausedOn.None? || ad.pausedOn.value == h || ad.pausedOn.value >= |s.hosts| then s
      else
        var queue := Read(s.db, PluginQueue(ad.pausedOn.value));
        var i := FirstWithId(queue, ad.id);
        if i == |queue| then MoveTo(s, h, Selecting)
        else if !queue[i].action.Paused? then
          MoveTo(s, h, Stopping).(db := Write(s.db, PausedJobs, [ad] + Read(s.db, PausedJobs)))
        else MoveTo(s, h, AdFound(queue[i], ad.pausedOn.value))
  }

  // The count of the LREM is ignored: the entry is taken over even if it is no longer there.
  function TakeStep(s: State, h: HandlerId): State {
    if h >= |s.hosts| || !s.hosts[h].pc.AdFound? then s
    else
      var entry, o := s.hosts[h].pc.entry, s.hosts[h].pc.owner;
      if o == h || o >= |s.hosts| then s
      else
        var queue := Read(s.db, PluginQueue(o));
        MoveTo(s, h, Holding(entry, false)).(
          db := Write(s.db, PluginQueue(o), LRem(queue, entry)),
          book := if entry in queue then s.book else s.book.(doubled := s.book.doubled + [entry]))
  }

  function MoveTo(s: State, h: HandlerId, pc: Pc): State
    requires h < |s.hosts|
  {
    s.(hosts := s.hosts[h := s.hosts[h].(pc := pc)])
  }

  /* ----- the receiver ----- */

  predicate HeadIs(xs: seq<QueueJob>, job: QueueJob) {
    xs != [] && xs[0].id == job.id && xs[0].runId == job.runId
  }

  predicate AtSomeHandlersHead(s: State, job: QueueJob) {
    exists h :: 0 <= h < |s.hosts| &&
      (HeadIs(Read(s.db, PluginQueue(h)), job) || HeadIs(Read(s.db, Cleaning(h)), job))
  }

  predicate InSomeQueue(s: State, id: JobId) {
    || HasId(Read(s.db, Main), id)
    || exists h :: 0 <= h < |s.hosts| && (HasId(Read(s.db, PluginQueue(h)), id) || HasId(Read(s.db, Cleaning(h)), id))
  }

  function DeliveryAt(s: State, d: nat, x: Delivery): State
    requires d < |s.deliveries|
  {
    s.(deliveries := s.deliveries[d := x])
  }

  // The job of an event as the receiver builds it: a payload with no attempts.
  predicate WellFormed(job: QueueJob) {
    job.kind.WorkflowJobPayload? && job.attempts == 0
  }

  function ReceiveStep(s: State, d: nat, event: Event): State {
    if d >= |s.deliveries| || !s.deliveries[d].Resting? || !WellFormed(event.job) then s
    else
      match event
      case QueuedEvent(job) =>
        if HasId(Read(s.db, Main), job.id) then s else DeliveryAt(s, d, CheckingHandlers(job))
      case InProgressEvent(job) =>
        if job.conclusion == "cancelled" || HasId(Read(s.db, MainInProgress), job.id) then s
        else DeliveryAt(s, d, PushingInProgress(job))
      case CompletedEvent(job) =>
        if InSomeQueue(s, job.id) then DeliveryAt(s, d, CheckingCompleted(job)) else s
  }

  function Push(s: State, k: Key, job: QueueJob): Store {
    Write(s.db, k, Read(s.db, k) + [job])
  }

  function ProceedStep(s: State, d: nat): State {
    if d >= |s.deliveries| then s
    else
      match s.deliveries[d]
      case Resting => s
      case CheckingHandlers(job) => DeliveryAt(s, d, if AtSomeHandlersHead(s, job) then Resting else PushingQueued(job))
      case PushingQueued(job) =>
        DeliveryAt(s, d, Resting).(
          db := Push(s, Main, job),
          book := s.book.(enqueued := s.book.enqueued + [job], pushed := s.book.pushed + multiset{job}))
      case PushingInProgress(job) => DeliveryAt(s, d, Resting).(db := Push(s, MainInProgress, job))
      case CheckingCompleted(job) =>
        DeliveryAt(s, d, if HasId(Read(s.db, MainCompleted), job.id) then Resting else PushingCompleted(job))
      case PushingCompleted(job) => DeliveryAt(s, d, Resting).(db := Push(s, MainCompleted, job))
  }

  function Next(s: State, step: Step): State {
    match step
    case Host(h, a) => if h < |s.hosts| then PutView(s, h, HostStep(h, ViewOf(s, h), a)) else s
    case LookUp(h) => LookUpStep(s, h)
    case Take(h) => TakeStep(s, h)
    case Receive(d, event) => ReceiveStep(s, d, event)
    case Proceed(d) => ProceedStep(s, d)
    case Abandon(d) => if d < |s.deliveries| then DeliveryAt(s, d, Resting) else s
    case RestartReceiver => s.(db := Write(s.db, MainInProgress, []))
    case Forget(k, x) =>
      // the redelivery walk's LREM, from any of the completed lists
      if k.MainCompleted? || k.PluginCompleted? then s.(db := Write(s.db, k, LRem(Read(s.db, k), x))) else s
  }

  function Run(s: State, steps: seq<Step>): State
    decreases |steps|
  {
    if steps == [] then s else Run(Next(s, steps[0]), steps[1..])
  }

  lemma {:induction false} RunConcat(s: State, a: seq<Step>, b: seq<Step>)
    ensures Run(s, a + b) == Run(Run(s, a), b)
    decreases |a|
  {
    if a == [] {
      assert a + b == b;
    } else {
      assert (a + b)[1..] == a[1..] + b;
      RunConcat(Next(s, a[0]), a[1..], b);
    }
  }

  predicate Initial(s: State) {
    && s.db == map[]
    && (forall h :: 0 <= h < |s.hosts| ==> s.hosts[h].pc.Idle? && !s.hosts[h].abandoned)
    && (forall d :: 0 <= d < |s.deliveries| ==> s.deliveries[d].Resting?)
    && s.book == Ledger([], [], [], [], [], multiset{}, multiset{})
  }

  /* ----- what every step keeps ----- */

  predicate DeliveryOk(d: Delivery) {
    d.PushingQueued? || d.CheckingHandlers? ==> WellFormed(d.job)
  }

  ghost predicate Inv(s: State) {
    && AllPayloads(Read(s.db, Main))
    && (forall i :: 0 <= i < |s.book.dropped| ==> Terminal(s.book.dropped[i]))
    && (forall h :: 0 <= h < |s.hosts| ==>
          HandlerOk(Read(s.db, PluginQueue(h)), Read(s.db, Cleaning(h)), s.hosts[h]))
    && (forall d :: 0 <= d < |s.deliveries| ==> DeliveryOk(s.deliveries[d]))
  }

  lemma HostKeepsInv(s: State, h: HandlerId, a: HostAction)
    requires Inv(s)
    ensures Inv(Next(s, Host(h, a)))
  {
    hide HostStep, HandlerOk;
    if h < |s.hosts| {
      var v := ViewOf(s, h);
      assert ViewOk(v);
      HostKeepsView(h, v, a);
      PutThenView(s, h, HostStep(h, v, a));
      assert ViewOk(ViewOf(Next(s, Host(h, a)), h));
    }
  }

  // A paused job is alone in its handler's queue, so taking it empties the queue.
  lemma PausedIsAlone(queue: seq<QueueJob>, id: JobId, cleaning: seq<QueueJob>, me: Handler)
    requires HandlerOk(queue, cleaning, me)
    requires HasId(queue, id) && queue[FirstWithId(queue, id)].action.Paused?
    ensures FirstWithId(queue, id) == 0 && queue == [queue[0]] && LRem(queue, queue[0]) == []
    ensures queue[0].kind.WorkflowJobPayload? && HandlerOk([], cleaning, me)
  {
    assert queue[0].id == queue[FirstWithId(queue, id)].id;
    assert FirstWithId(queue, id) == 0;
    assert queue == [queue[0]];
    assert First(queue, queue[0]) == 0;
  }

  lemma LookUpKeepsInv(s: State, h: HandlerId)
    requires Inv(s)
    ensures Inv(LookUpStep(s, h))
  {
    if h < |s.hosts| && s.hosts[h].pc.AdHeld? {
      var ad := s.hosts[h].pc.ad;
      if ad.pausedOn.Some? && ad.pausedOn.value != h && ad.pausedOn.value < |s.hosts| {
        var o := ad.pausedOn.value;
        var queue := Read(s.db, PluginQueue(o));
        var i := FirstWithId(queue, ad.id);
        if i < |queue| && queue[i].action.Paused? {
          PausedIsAlone(queue, ad.id, Read(s.db, Cleaning(o)), s.hosts[o]);
        }
      }
    }
  }

  // Removing a paused job from its owner's queue empties the queue, or finds it gone.
  lemma RemovingPaused(queue: seq<QueueJob>, entry: QueueJob, cleaning: seq<QueueJob>, me: Handler)
    requires HandlerOk(queue, cleaning, me) && entry.kind.WorkflowJobPayload? && entry.action.Paused?
    ensures LRem(queue, entry) == if entry in queue then [] else queue
    ensures entry in queue ==> queue == [entry]
    ensures HandlerOk(LRem(queue, entry), cleaning, me)
  {
    if entry in queue {
      assert queue[First(queue, entry)] == entry;
      assert First(queue, entry) == 0;
      assert queue == [entry];
    }
  }

  lemma TakeKeepsInv(s: State, h: HandlerId)
    requires Inv(s)
    ensures Inv(TakeStep(s, h))
  {
    if h < |s.hosts| && s.hosts[h].pc.AdFound? {
      var o := s.hosts[h].pc.owner;
      if o != h && o < |s.hosts| {
        assert HandlerOk(Read(s.db, PluginQueue(h)), Read(s.db, Cleaning(h)), s.hosts[h]);
        RemovingPaused(Read(s.db, PluginQueue(o)), s.hosts[h].pc.entry, Read(s.db, Cleaning(o)), s.hosts[o]);
        hide LRem;
      }
    }
  }

  predicate OfReceiver(step: Step) {
    step.Receive? || step.Proceed? || step.Abandon? || step.RestartReceiver? || step.Forget?
  }

  predicate PushesJob(s: State, step: Step) {
    step.Proceed? && step.d < |s.deliveries| && s.deliveries[step.d].PushingQueued?
  }

  lemma ReceiverFrame(s: State, step: Step)
    requires OfReceiver(step)
    ensures var t := Next(s, step);
      && t.hosts == s.hosts
      && (forall h: HandlerId :: Read(t.db, PluginQueue(h)) == Read(s.db, PluginQueue(h)))
      && (forall h: HandlerId :: Read(t.db, Cleaning(h)) == Read(s.db, Cleaning(h)))
      && (!PushesJob(s, step) ==> t.book == s.book && Read(t.db, Main) == Read(s.db, Main))
  {
  }

  lemma ReceiverKeepsInv(s: State, step: Step)
    requires Inv(s) && (OfReceiver(step))
    ensures Inv(Next(s, step))
  {
    hide HandlerOk, HasId, AtSomeHandlersHead, InSomeQueue;
    ReceiverFrame(s, step);
  }

  lemma StepKeepsInv(s: State, step: Step)
    requires Inv(s)
    ensures Inv(Next(s, step))
  {
    match step
    case Host(h, a) => HostKeepsInv(s, h, a);
    case LookUp(h) => LookUpKeepsInv(s, h);
    case Take(h) => TakeKeepsInv(s, h);
    case _ => ReceiverKeepsInv(s, step);
  }

  /* ----- what every step conserves ----- */

  function HeldBy(m: Measure, s: State, h: HandlerId): nat
    requires h < |s.hosts|
  {
    Held(m, Read(s.db, PluginQueue(h)), Read(s.db, Cleaning(h)), s.hosts[h].pc)
  }

  function HeldUpTo(m: Measure, s: State, n: nat): nat
    requires n <= |s.hosts|
  {
    if n == 0 then 0 else HeldUpTo(m, s, n - 1) + HeldBy(m, s, n - 1)
  }

  /** The weight of a job in the whole system: main queue, every handler's lists, and entries in hand. */
  function Load(m: Measure, s: State): nat {
    Total(m, Read(s.db, Main)) + HeldUpTo(m, s, |s.hosts|)
  }

  function WorldBalance(m: Measure, s: State): int {
    Load(m, s) + Owed(m, s.book)
  }

  lemma {:induction false} HeldChange(m: Measure, s: State, t: State, j: HandlerId, k: HandlerId, n: nat)
    requires n <= |s.hosts| == |t.hosts|
    requires forall h :: 0 <= h < n && h != j && h != k ==> HeldBy(m, t, h) == HeldBy(m, s, h)
    ensures HeldUpTo(m, t, n) - HeldUpTo(m, s, n)
         == (if j < n then HeldBy(m, t, j) - HeldBy(m, s, j) else 0)
          + (if k < n && k != j then HeldBy(m, t, k) - HeldBy(m, s, k) else 0)
  {
    if n > 0 {
      HeldChange(m, s, t, j, k, n - 1);
    }
  }

  lemma HostKeepsBalance(m: Measure, s: State, h: HandlerId, a: HostAction)
    requires Inv(s)
    ensures WorldBalance(m, Next(s, Host(h, a))) == WorldBalance(m, s)
  {
    hide HostStep, HandlerOk, Total, Owed;
    if h < |s.hosts| {
      var v := ViewOf(s, h);
      assert ViewOk(v);
      HostConserves(m, h, v, a);
      PutThenView(s, h, HostStep(h, v, a));
      HeldChange(m, s, Next(s, Host(h, a)), h, h, |s.hosts|);
    }
  }

  lemma LookUpKeepsBalance(m: Measure, s: State, h: HandlerId)
    ensures WorldBalance(m, LookUpStep(s, h)) == WorldBalance(m, s)
  {
    hide Total, Retried;
    HeldChange(m, s, LookUpStep(s, h), h, h, |s.hosts|);
  }

  // The handler finds the entry it looked up no longer in the owner's queue.
  predicate TakesStale(s: State, h: HandlerId) {
    && h < |s.hosts| && s.hosts[h].pc.AdFound? && s.hosts[h].pc.owner != h && s.hosts[h].pc.owner < |s.hosts|
    && s.hosts[h].pc.entry !in Read(s.db, PluginQueue(s.hosts[h].pc.owner))
  }

  // A take moves the job's weight from the owner's queue into the taker's hand, or, stale, only adds it there.
  lemma TakeMovesWeight(m: Measure, s: State, h: HandlerId, o: HandlerId)
    requires Inv(s) && h < |s.hosts| && o < |s.hosts| && o != h
    requires s.hosts[h].pc.AdFound? && s.hosts[h].pc.owner == o
    ensures var t := TakeStep(s, h);
      && HeldBy(m, t, h) + HeldBy(m, t, o)
         == HeldBy(m, s, h) + HeldBy(m, s, o) + (if TakesStale(s, h) then Weigh(m, s.hosts[h].pc.entry) else 0)
      && Read(t.db, Main) == Read(s.db, Main)
  {
    hide Total;
    var queue, entry := Read(s.db, PluginQueue(o)), s.hosts[h].pc.entry;
    assert HandlerOk(Read(s.db, PluginQueue(h)), Read(s.db, Cleaning(h)), s.hosts[h]);
    RemovingPaused(queue, entry, Read(s.db, Cleaning(o)), s.hosts[o]);
    TotalOne(m, entry);
    TotalNil(m);
  }

  // Nobody else's entries change, and the ledger records a stale take.
  lemma TakeFrame(m: Measure, s: State, h: HandlerId, o: HandlerId)
    requires h < |s.hosts| && o < |s.hosts| && o != h
    requires s.hosts[h].pc.AdFound? && s.hosts[h].pc.owner == o
    ensures var t := TakeStep(s, h);
      && |t.hosts| == |s.hosts|
      && (forall k :: 0 <= k < |s.hosts| && k != h && k != o ==> HeldBy(m, t, k) == HeldBy(m, s, k))
      && Owed(m, t.book) == Owed(m, s.book) - (if TakesStale(s, h) then Weigh(m, s.hosts[h].pc.entry) else 0)
  {
    hide Total, Retried, LRem, Held, Weigh;
    TotalConcat(m, s.book.doubled, [s.hosts[h].pc.entry]);
    TotalOne(m, s.hosts[h].pc.entry);
  }

  lemma TakeKeepsBalance(m: Measure, s: State, h: HandlerId)
    requires Inv(s)
    ensures WorldBalance(m, TakeStep(s, h)) == WorldBalance(m, s)
  {
    if h < |s.hosts| && s.hosts[h].pc.AdFound? {
      var o := s.hosts[h].pc.owner;
      if o != h && o < |s.hosts| {
        TakeFrame(m, s, h, o);
        TakeMovesWeight(m, s, h, o);
        hide Total, Owed, Inv, TakeStep, TakesStale, HeldBy, Weigh;
        HeldChange(m, s, TakeStep(s, h), h, o, |s.hosts|);
      }
    }
  }

  lemma ReceiverKeepsBalance(m: Measure, s: State, step: Step)
    requires OfReceiver(step)
    ensures WorldBalance(m, Next(s, step)) == WorldBalance(m, s)
  {
    var t := Next(s, step);
    ReceiverFrame(s, step);
    HeldChange(m, s, t, |s.hosts|, |s.hosts|, |s.hosts|);
    if PushesJob(s, step) {
      var job := s.deliveries[step.d].job;
      TotalConcat(m, Read(s.db, Main), [job]);
      TotalConcat(m, s.book.enqueued, [job]);
    }
  }

  lemma StepKeepsBalance(m: Measure, s: State, step: Step)
    requires Inv(s)
    ensures WorldBalance(m, Next(s, step)) == WorldBalance(m, s)
  {
    match step
    case Host(h, a) => HostKeepsBalance(m, s, h, a);
    case LookUp(h) => LookUpKeepsBalance(m, s, h);
    case Take(h) => TakeKeepsBalance(m, s, h);
    case _ => ReceiverKeepsBalance(m, s, step);
  }
}
