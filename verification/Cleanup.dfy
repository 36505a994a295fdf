/** plugins/handlers/github/github.go, cleanup: empties a handler's plugin queue from its tail, deleting
    each VM, and then decides what becomes of the job itself. */
module Cleanup {
  import opened QueueJobs
  import opened JobQueue

  /** The Anka CLI, seen only through the VM deletions asked of it. A deletion that fails is logged and
      otherwise ignored, so success and failure do not differ here. */
  class Anka {
    var deletions: seq<string>

    constructor ()
      ensures deletions == []
    {
      deletions := [];
    }

    method Delete(vm: string)
      modifies this
      ensures deletions == old(deletions) + [vm]
    {
      deletions := deletions + [vm];
    }
  }

  /** What the rest of the plugin has signalled: whether this is the cleanup at the start of a run, whether
      the worker is returning all jobs, whether another host took the job (as seen by the first and by the
      second look at that channel), and the pending reason to return the job to the main queue. And what others
      do meanwhile: the completed events they remove between cleanup's lookup of one and its own removal. */
  datatype Signals = Signals(
    onStartRun: bool, shutdown: bool, abandoned: bool, abandonedLate: bool, reason: Option<Reason>,
    taken: seq<QueueJob>)

  datatype Drained = Drained(db: Store, vms: seq<string>, entry: Option<QueueJob>)

  // The cleaning list is filled from the tail of the plugin queue when it is empty.
  function Refilled(db: Store, h: HandlerId): Store
    requires Read(db, Cleaning(h)) != [] || Read(db, PluginQueue(h)) != []
  {
    if Read(db, Cleaning(h)) != [] then db
    else
      var queue := Read(db, PluginQueue(h));
      var mid := Write(db, PluginQueue(h), queue[..|queue| - 1]);
      Write(mid, Cleaning(h), [queue[|queue| - 1]] + Read(mid, Cleaning(h)))
  }

  /** The loop up to the first entry that is not a VM. */
  function Drain(db: Store, h: HandlerId, onStartRun: bool): Drained
    decreases 2 * |Read(db, PluginQueue(h))| + |Read(db, Cleaning(h))|
  {
    var queue, cleaning := Read(db, PluginQueue(h)), Read(db, Cleaning(h));
    if cleaning == [] && (onStartRun || queue == []) then Drained(db, [], None)
    else
      var moved := Refilled(db, h);
      var entry := Read(moved, Cleaning(h))[0];
      if entry.kind.AnkaVM? then
        var rest := Drain(Write(moved, Cleaning(h), []), h, onStartRun);
        rest.(vms := [entry.vm] + rest.vms)
      else Drained(moved, [], Some(entry))
  }

  predicate Exempt(r: Reason) {
    r == NotEnoughHostResources || r == PullAlreadyRunning
  }

  function AsReturned(job: QueueJob, r: Reason): QueueJob {
    job.(action := Action.Queued, attempts := if Exempt(r) then job.attempts else job.attempts + 1)
  }

  function RemoveEach(xs: seq<QueueJob>, ys: seq<QueueJob>): seq<QueueJob> {
    if ys == [] then xs else RemoveEach(LRem(xs, ys[0]), ys[1..])
  }

  // The last of a completed job: the handler's completed list and the cleaning list are deleted.
  function Purged(db: Store, h: HandlerId): Store {
    Write(Write(db, PluginCompleted(h), []), Cleaning(h), [])
  }

  // Others remove events between the lookup and the LREM. When that removes nothing, the rest is not reached.
  function PurgeOrGiveUp(db: Store, h: HandlerId, id: JobId, taken: seq<QueueJob>): Store {
    var completed := Read(db, MainCompleted);
    var i := FirstWithId(completed, id);
    if i == |completed| then Purged(db, h)
    else
      var later := Write(db, MainCompleted, RemoveEach(completed, taken));
      if completed[i] in Read(later, MainCompleted) then
        Purged(Write(later, MainCompleted, LRem(Read(later, MainCompleted), completed[i])), h)
      else later
  }

  /** What happens to the entry `e` at the head of the cleaning list once no VM is left. */
  function Settle(db: Store, h: HandlerId, e: QueueJob, s: Signals): Store
    requires Read(db, Cleaning(h)) != []
  {
    if !e.kind.WorkflowJobPayload? then db
    else
      var db := Forget(db, e.id, MainInProgress);
      if e.status.Completed? then PurgeOrGiveUp(db, h, e.id, s.taken)
      else if s.abandonedLate then Write(db, Cleaning(h), [])
      else if s.reason.Some? then
        var cleaning := Read(db, Cleaning(h));
        var job := AsReturned(cleaning[|cleaning| - 1], s.reason.value);
        var db := Write(db, Cleaning(h), cleaning[..|cleaning| - 1]);
        var db := Write(db, Main, [job] + Read(db, Main));
        Write(Forget(db, job.id, PausedJobs), Cleaning(h), [])
      else if e.status.Failed? || e.status.TimedOut? then Write(db, Cleaning(h), [])
      else
        var cleaning := Read(db, Cleaning(h));
        var db := Write(db, Cleaning(h), cleaning[..|cleaning| - 1]);
        var db := Write(db, PluginQueue(h), [cleaning[|cleaning| - 1]] + Read(db, PluginQueue(h)));
        Write(db, Cleaning(h), [])
  }

  predicate StillRunning(head: QueueJob, shutdown: bool) {
    head.status.InProgress? || (shutdown && head.action.InProgress? && !head.status.NoStatus?)
  }

  function Result(db: Store, h: HandlerId, s: Signals): (Store, seq<string>) {
    var queue := Read(db, PluginQueue(h));
    if queue == [] then (db, [])
    else if s.abandoned then (Forget(db, queue[0].id, PausedJobs), [])
    else if StillRunning(queue[0], s.shutdown) then (db, [])
    else (DrainAndSettle(db, h, s), Drain(db, h, s.onStartRun).vms)
  }

  function DrainAndSettle(db: Store, h: HandlerId, s: Signals): Store {
    var d := Drain(db, h, s.onStartRun);
    if d.entry.Some? && Read(d.db, Cleaning(h)) != [] then Settle(d.db, h, d.entry.value, s) else d.db
  }

  // One turn of the loop: with nothing to take it is over; a VM entry is deleted and the rest of the drain
  // is as from the shorter lists; anything else is settled.
  lemma DrainUnrolls(db: Store, h: HandlerId, s: Signals)
    ensures if Read(db, Cleaning(h)) == [] && (s.onStartRun || Read(db, PluginQueue(h)) == [])
      then DrainAndSettle(db, h, s) == db && Drain(db, h, s.onStartRun).vms == []
      else
        var moved := Refilled(db, h); var entry := Read(moved, Cleaning(h))[0];
        if entry.kind.AnkaVM? then
          var rest := Write(moved, Cleaning(h), []);
          && DrainAndSettle(db, h, s) == DrainAndSettle(rest, h, s)
          && Drain(db, h, s.onStartRun).vms == [entry.vm] + Drain(rest, h, s.onStartRun).vms
          && 2 * |Read(rest, PluginQueue(h))| + |Read(rest, Cleaning(h))|
             < 2 * |Read(db, PluginQueue(h))| + |Read(db, Cleaning(h))|
        else
          && DrainAndSettle(db, h, s) == Settle(moved, h, entry, s)
          && Drain(db, h, s.onStartRun).vms == []
          && (entry.kind.UnknownType? ==> Settle(moved, h, entry, s) == moved)
  {
  }

  // Other clients remove completed events.
  method OthersTake(db: Redis, taken: seq<QueueJob>)
    requires MainCompleted in db.lists
    modifies db
    ensures db.lists == Write(old(db.lists), MainCompleted, RemoveEach(Read(old(db.lists), MainCompleted), taken))
    decreases |taken|
  {
    if taken != [] {
      var _ := db.LRemOne(MainCompleted, taken[0]);
      OthersTake(db, taken[1..]);
    }
  }

  lemma RemovingNothing(xs: seq<QueueJob>, x: QueueJob)
    requires x !in xs
    ensures LRem(xs, x) == xs
  {
  }

  // A completed job: its event is looked up and removed by value; if that removes nothing, cleanup gives up.
  method PurgeCompleted(db: Redis, h: HandlerId, e: QueueJob, taken: seq<QueueJob>)
    modifies db
    ensures db.lists == PurgeOrGiveUp(old(db.lists), h, e.id, taken)
  {
    var found := GetJobFromQueueByID(db, e.id, MainCompleted);
    if found.Some? {
      OthersTake(db, taken);
      if found.value !in Read(db.lists, MainCompleted) {
        RemovingNothing(Read(db.lists, MainCompleted), found.value);
      }
      var removed := db.LRemOne(MainCompleted, found.value);
      if removed != 1 {
        return;
      }
    }
    db.Del(PluginCompleted(h));
    db.Del(Cleaning(h));
  }

  method SettlePayload(db: Redis, h: HandlerId, e: QueueJob, s: Signals)
    requires e.kind.WorkflowJobPayload?
    requires Read(db.lists, Cleaning(h)) != []
    modifies db
    ensures db.lists == Settle(old(db.lists), h, e, s)
  {
    DeleteFromQueue(db, e.id, MainInProgress);
    if e.status.Completed? {
      PurgeCompleted(db, h, e, s.taken);
      return;
    }
    if s.abandonedLate {
      db.Del(Cleaning(h));
    } else if s.reason.Some? {
      var popped := db.RPop(Cleaning(h));
      var job := popped.value.(action := Action.Queued);
      if s.reason.value != NotEnoughHostResources && s.reason.value != PullAlreadyRunning {
        job := job.(attempts := job.attempts + 1);
      }
      db.LPush(Main, job);
      DeleteFromQueue(db, job.id, PausedJobs);
      db.Del(Cleaning(h));
    } else if e.status.Completed? || e.status.Failed? || e.status.TimedOut? {
      db.Del(Cleaning(h));
    } else {
      var _ := db.RPopLPush(Cleaning(h), PluginQueue(h));
      db.Del(Cleaning(h));
    }
  }

  method NextEntry(db: Redis, h: HandlerId, onStartRun: bool) returns (entry: Option<QueueJob>)
    modifies db
    ensures entry.None? <==>
            Read(old(db.lists), Cleaning(h)) == [] && (onStartRun || Read(old(db.lists), PluginQueue(h)) == [])
    ensures entry.None? ==> db.lists == old(db.lists)
    ensures entry.Some? ==> db.lists == Refilled(old(db.lists), h)
    ensures entry.Some? ==> Read(db.lists, Cleaning(h)) != [] && entry.value == Read(db.lists, Cleaning(h))[0]
  {
    entry := db.LIndex(Cleaning(h), 0);
    if entry.None? && !onStartRun {
      // nothing in the cleaning list yet
      entry := db.RPopLPush(PluginQueue(h), Cleaning(h));
    }
  }

  method CleanEntries(db: Redis, anka: Anka, h: HandlerId, s: Signals)
    modifies db, anka
    ensures db.lists == DrainAndSettle(old(db.lists), h, s)
    ensures anka.deletions == old(anka.deletions) + Drain(old(db.lists), h, s.onStartRun).vms
  {
    hide *;
    while true
      invariant DrainAndSettle(db.lists, h, s) == DrainAndSettle(old(db.lists), h, s)
      invariant anka.deletions + Drain(db.lists, h, s.onStartRun).vms
             == old(anka.deletions) + Drain(old(db.lists), h, s.onStartRun).vms
      decreases 2 * |Read(db.lists, PluginQueue(h))| + |Read(db.lists, Cleaning(h))|
    {
      ghost var before := db.lists;
      DrainUnrolls(before, h, s);
      var next := NextEntry(db, h, s.onStartRun);
      if next.None? {
        return;
      }
      match next.value.kind {
        case AnkaVM =>
          anka.Delete(next.value.vm);
          db.Del(Cleaning(h));
        case WorkflowJobPayload =>
          SettlePayload(db, h, next.value, s);
          return;
        case UnknownType =>
          return;
      }
    }
  }

  method Cleanup(db: Redis, anka: Anka, h: HandlerId, s: Signals)
    modifies db, anka
    ensures db.lists == Result(old(db.lists), h, s).0
    ensures anka.deletions == old(anka.deletions) + Result(old(db.lists), h, s).1
  {
    var head := db.LIndex(PluginQueue(h), 0);
    if head.None? {
      return;
    }
    if s.abandoned {
      DeleteFromQueue(db, head.value.id, PausedJobs);
      return;
    }
    if head.value.status.InProgress? ||
       (!head.value.status.NoStatus? && s.shutdown && head.value.action.InProgress?) {
      return;
    }
    CleanEntries(db, anka, h, s);
  }

  /* ----- what the loop amounts to on a queue of one job and its VMs ----- */

  predicate JobAndVMs(queue: seq<QueueJob>) {
    && queue != [] && queue[0].kind.WorkflowJobPayload?
    && forall i :: 1 <= i < |queue| ==> queue[i].kind.AnkaVM?
  }

  function NewestFirst(vms: seq<QueueJob>): (names: seq<string>)
    ensures |names| == |vms|
    ensures forall i :: 0 <= i < |vms| ==> names[i] == vms[|vms| - 1 - i].vm
  {
    if vms == [] then [] else [vms[|vms| - 1].vm] + NewestFirst(vms[..|vms| - 1])
  }

  lemma {:induction false} DrainVMs(db: Store, h: HandlerId)
    requires JobAndVMs(Read(db, PluginQueue(h))) && Read(db, Cleaning(h)) == []
    ensures var queue := Read(db, PluginQueue(h)); var d := Drain(db, h, false);
      && d.entry == Some(queue[0])
      && d.vms == NewestFirst(queue[1..])
      && Read(d.db, PluginQueue(h)) == [] && Read(d.db, Cleaning(h)) == [queue[0]]
      && forall k :: k != PluginQueue(h) && k != Cleaning(h) ==> Read(d.db, k) == Read(db, k)
    decreases |Read(db, PluginQueue(h))|
  {
    var queue := Read(db, PluginQueue(h));
    if |queue| > 1 {
      var last := queue[|queue| - 1];
      var mid := Write(db, PluginQueue(h), queue[..|queue| - 1]);
      var next := Write(Write(mid, Cleaning(h), [last] + Read(mid, Cleaning(h))), Cleaning(h), []);
      DrainVMs(next, h);
      assert queue[1..][..|queue| - 2] == queue[..|queue| - 1][1..];
    }
  }

  /** Cleanup finds the job's completed event, and another client removes it first. */
  predicate EventTaken(events: seq<QueueJob>, id: JobId, s: Signals) {
    HasId(events, id) && events[FirstWithId(events, id)] !in RemoveEach(events, s.taken)
  }

  function EventsAfter(events: seq<QueueJob>, id: JobId, s: Signals): seq<QueueJob> {
    if HasId(events, id) then LRem(RemoveEach(events, s.taken), events[FirstWithId(events, id)]) else events
  }

  /** What has become of a job that is no longer running, with `rest` in the plugin queue meanwhile: it is purged,
      or left in the cleaning list when its event was taken; given up to another host; put at the head of the main
      queue, with one attempt more but for the two reasons that are no fault of the job; dropped as failed or timed
      out; or put back to the head of the plugin queue. */
  ghost predicate Settled(db: Store, after: Store, h: HandlerId, rest: seq<QueueJob>, job: QueueJob, s: Signals) {
    var events, completed := Read(db, MainCompleted), job.status.Completed?;
    var leftThere := completed && EventTaken(events, job.id, s);
    var returned := !completed && !s.abandonedLate && s.reason.Some?;
    var kept := !completed && !s.abandonedLate && s.reason.None? && !job.status.Failed? && !job.status.TimedOut?;
    && Read(after, Cleaning(h)) == (if leftThere then [job] else [])
    && Read(after, PluginQueue(h)) == (if kept then [job] else []) + rest
    && Read(after, Main) == (if returned then [Requeued(job, s.reason.value)] else []) + Read(db, Main)
    && Read(after, MainInProgress) == RemoveFirstWithId(Read(db, MainInProgress), job.id)
    && Read(after, MainCompleted) == (if completed then EventsAfter(events, job.id, s) else events)
    && Read(after, PluginCompleted(h)) == (if completed && !leftThere then [] else Read(db, PluginCompleted(h)))
    && Read(after, PausedJobs)
       == (if returned then RemoveFirstWithId(Read(db, PausedJobs), job.id) else Read(db, PausedJobs))
    && (forall k: Key :: (k.PluginQueue? || k.Cleaning? || k.PluginCompleted?) && k.h != h ==>
          Read(after, k) == Read(db, k))
  }

  // The entry in the main queue: as it was but for its action and, unless exempt, its attempts.
  ghost function Requeued(job: QueueJob, reason: Reason): QueueJob {
    var exempt := reason.NotEnoughHostResources? || reason.PullAlreadyRunning?;
    QueueJob(job.kind, job.id, job.runId, job.status, job.conclusion, Action.Queued, job.pausedOn,
             job.attempts + (if exempt then 0 else 1), job.vm, job.owner, job.details)
  }

  // A completed entry, whatever is in the plugin queue: list by list.
  lemma CompletedSettles(db: Store, h: HandlerId, job: QueueJob, s: Signals)
    requires job.kind.WorkflowJobPayload? && job.status.Completed? && Read(db, Cleaning(h)) == [job]
    ensures var after, events := Settle(db, h, job, s), Read(db, MainCompleted);
      && Read(after, MainInProgress) == RemoveFirstWithId(Read(db, MainInProgress), job.id)
      && Read(after, MainCompleted) == EventsAfter(events, job.id, s)
      && Read(after, Cleaning(h)) == (if EventTaken(events, job.id, s) then [job] else [])
      && Read(after, PluginCompleted(h))
         == (if EventTaken(events, job.id, s) then Read(db, PluginCompleted(h)) else [])
      && forall k :: k != MainInProgress && k != MainCompleted && k != Cleaning(h) && k != PluginCompleted(h) ==>
           Read(after, k) == Read(db, k)
  {
    var events := Read(db, MainCompleted);
    ForgetReads(db, job.id, MainInProgress);
    if EventTaken(events, job.id, s) {
      RemovingNothing(RemoveEach(events, s.taken), events[FirstWithId(events, job.id)]);
    }
    hide Forget, RemoveFirstWithId, RemoveEach, LRem;
  }

  lemma SettleCompleted(db: Store, h: HandlerId, job: QueueJob, s: Signals)
    requires job.kind.WorkflowJobPayload? && Read(db, Cleaning(h)) == [job]
    requires job.status.Completed?
    ensures Settled(db, Settle(db, h, job, s), h, Read(db, PluginQueue(h)), job, s)
  {
    hide RemoveFirstWithId, RemoveEach, LRem, Settle, EventsAfter;
    CompletedSettles(db, h, job, s);
  }

  lemma SettleReturned(db: Store, h: HandlerId, job: QueueJob, s: Signals)
    requires job.kind.WorkflowJobPayload? && Read(db, Cleaning(h)) == [job]
    requires !job.status.Completed? && !s.abandonedLate && s.reason.Some?
    ensures Settled(db, Settle(db, h, job, s), h, Read(db, PluginQueue(h)), job, s)
  {
    hide Settle, RemoveFirstWithId, HasId, PurgeOrGiveUp, RemoveEach, EventTaken, EventsAfter, Forget;
    var db1 := Forget(db, job.id, MainInProgress);
    ForgetReads(db, job.id, MainInProgress);
    var db2 := Write(db1, Cleaning(h), []);
    var db3 := Write(db2, Main, [AsReturned(job, s.reason.value)] + Read(db2, Main));
    ForgetReads(db3, job.id, PausedJobs);
    ReturnedStore(db, h, job, s);
    var after, db4 := Settle(db, h, job, s), Forget(db3, job.id, PausedJobs);
    assert forall k :: k != Cleaning(h) ==> Read(after, k) == Read(db4, k);
    assert forall k :: k != Cleaning(h) && k != Main ==> Read(db3, k) == Read(db1, k);
  }

  lemma ReturnedStore(db: Store, h: HandlerId, job: QueueJob, s: Signals)
    requires job.kind.WorkflowJobPayload? && Read(db, Cleaning(h)) == [job]
    requires !job.status.Completed? && !s.abandonedLate && s.reason.Some?
    ensures var db2 := Write(Forget(db, job.id, MainInProgress), Cleaning(h), []);
      var db3 := Write(db2, Main, [AsReturned(job, s.reason.value)] + Read(db2, Main));
      Settle(db, h, job, s) == Write(Forget(db3, job.id, PausedJobs), Cleaning(h), [])
  {
    hide Forget, RemoveFirstWithId, AsReturned, PurgeOrGiveUp;
    ForgetReads(db, job.id, MainInProgress);
    assert [job][..0] == [];
    ReturnedKeepsId(job, s.reason.value);
  }

  lemma ReturnedKeepsId(job: QueueJob, r: Reason)
    ensures AsReturned(job, r).id == job.id
  {
  }

  lemma SettleOther(db: Store, h: HandlerId, job: QueueJob, s: Signals)
    requires job.kind.WorkflowJobPayload? && Read(db, Cleaning(h)) == [job]
    requires !job.status.Completed? && (s.abandonedLate || s.reason.None?)
    ensures Settled(db, Settle(db, h, job, s), h, Read(db, PluginQueue(h)), job, s)
  {
    hide Forget, RemoveFirstWithId, PurgeOrGiveUp, RemoveEach, EventTaken, EventsAfter, AsReturned, Requeued;
    ForgetReads(db, job.id, MainInProgress);
    assert [job][..0] == [];
  }

  lemma PayloadSettles(db: Store, h: HandlerId, job: QueueJob, s: Signals)
    requires job.kind.WorkflowJobPayload? && Read(db, Cleaning(h)) == [job]
    ensures Settled(db, Settle(db, h, job, s), h, Read(db, PluginQueue(h)), job, s)
  {
    hide Settle, Settled;
    if job.status.Completed? {
      SettleCompleted(db, h, job, s);
    } else if !s.abandonedLate && s.reason.Some? {
      SettleReturned(db, h, job, s);
    } else {
      SettleOther(db, h, job, s);
    }
  }

  /** Total effect of the final cleanup of a run on a job that neither runs nor, in a shutdown, is about to, and on
      its VMs: every VM is deleted, the newest first, and the job is settled with nothing left in the plugin queue. */
  lemma CleanupSettlesJob(db: Store, h: HandlerId, s: Signals)
    requires JobAndVMs(Read(db, PluginQueue(h))) && Read(db, Cleaning(h)) == []
    requires !s.onStartRun && !s.abandoned
    requires var job := Read(db, PluginQueue(h))[0];
      !job.status.InProgress? && (s.shutdown && job.action.InProgress? ==> job.status.NoStatus?)
    ensures var queue := Read(db, PluginQueue(h)); var (after, vms) := Result(db, h, s);
      vms == NewestFirst(queue[1..]) && Settled(db, after, h, [], queue[0], s)
  {
    DrainVMs(db, h);
    var job := Read(db, PluginQueue(h))[0];
    var drained := Drain(db, h, false).db;
    PayloadSettles(drained, h, job, s);
    hide Drain, Settle, Settled, EventTaken;
    SettledSince(db, drained, Settle(drained, h, job, s), h, [], job, s);
  }

  // Emptying the plugin queue changes nothing that a job's settling is measured against.
  lemma SettledSince(
    db: Store, drained: Store, after: Store, h: HandlerId, rest: seq<QueueJob>, job: QueueJob, s: Signals)
    requires Settled(drained, after, h, rest, job, s)
    requires forall k :: k != PluginQueue(h) && k != Cleaning(h) ==> Read(drained, k) == Read(db, k)
    ensures Settled(db, after, h, rest, job, s)
  {
    hide RemoveFirstWithId, EventTaken, EventsAfter, Requeued;
  }

  /** When cleanup leaves the handler's lists alone: with nothing in the plugin queue, for a job another host has
      taken (only its advertisement goes), and for one that runs or, in a shutdown, is about to. */
  lemma CleanupLeavesAlone(db: Store, h: HandlerId, s: Signals)
    ensures var queue := Read(db, PluginQueue(h)); var (after, vms) := Result(db, h, s);
      && (queue == [] ==> after == db && vms == [])
      && (queue != [] && s.abandoned ==>
            && vms == [] && Read(after, PausedJobs) == RemoveFirstWithId(Read(db, PausedJobs), queue[0].id)
            && forall k :: k != PausedJobs ==> Read(after, k) == Read(db, k))
      && (queue != [] && !s.abandoned ==>
            queue[0].status.InProgress? || (s.shutdown && queue[0].action.InProgress? && !queue[0].status.NoStatus?) ==>
            after == db && vms == [])
  {
    if Read(db, PluginQueue(h)) != [] {
      ForgetReads(db, Read(db, PluginQueue(h))[0].id, PausedJobs);
    }
  }

  /** The cleanup at the start of a run finishes what an earlier one left in the cleaning list and touches nothing
      else of the handler's: it takes nothing from the plugin queue. A VM left there is deleted and is the only one;
      a job left there is settled in front of what the plugin queue holds. */
  lemma OnStartTakesNothing(db: Store, h: HandlerId, s: Signals)
    requires s.onStartRun && !s.abandoned
    ensures var queue, cleaning := Read(db, PluginQueue(h)), Read(db, Cleaning(h));
      var (after, vms) := Result(db, h, s);
      && (cleaning == [] ==> after == db && vms == [])
      && (cleaning != [] && queue != [] && !StillRunning(queue[0], s.shutdown) ==>
            match cleaning[0].kind
            case AnkaVM => after == Write(db, Cleaning(h), []) && vms == [cleaning[0].vm]
            case WorkflowJobPayload =>
              vms == [] && (|cleaning| == 1 ==> Settled(db, after, h, queue, cleaning[0], s))
            case UnknownType => after == db && vms == [])
  {
    var cleaning := Read(db, Cleaning(h));
    DrainUnrolls(db, h, s);
    if cleaning != [] && cleaning[0].kind.AnkaVM? {
      DrainUnrolls(Write(db, Cleaning(h), []), h, s);
    } else if |cleaning| == 1 && cleaning[0].kind.WorkflowJobPayload? {
      PayloadSettles(db, h, cleaning[0], s);
    }
    hide Settle, Settled;
  }

  /** An entry of an unknown type stops the cleanup where it is, in the cleaning list. */
  lemma UnknownEntryStops(db: Store, h: HandlerId, s: Signals)
    requires var queue := Read(db, PluginQueue(h));
      && queue != [] && queue[|queue| - 1].kind.UnknownType? && !StillRunning(queue[0], s.shutdown)
    requires Read(db, Cleaning(h)) == [] && !s.onStartRun && !s.abandoned
    ensures var queue := Read(db, PluginQueue(h)); var (after, vms) := Result(db, h, s);
      && vms == [] && Read(after, Cleaning(h)) == [queue[|queue| - 1]]
      && Read(after, PluginQueue(h)) == queue[..|queue| - 1]
      && forall k :: k != Cleaning(h) && k != PluginQueue(h) ==> Read(after, k) == Read(db, k)
  {
    DrainUnrolls(db, h, s);
    hide Settle;
  }

  // Some entry in the lists cleanup and its handler answer for carries this job id.
  predicate Tracked(db: Store, h: HandlerId, id: JobId) {
    || HasId(Read(db, PluginQueue(h)), id) || HasId(Read(db, Cleaning(h)), id)
    || HasId(Read(db, MainInProgress), id) || HasId(Read(db, MainCompleted), id)
    || HasId(Read(db, PluginCompleted(h)), id)
  }

  lemma {:induction false} RemoveEachIff(xs: seq<QueueJob>, ys: seq<QueueJob>, x: QueueJob)
    requires DistinctIds(xs)
    ensures DistinctIds(RemoveEach(xs, ys))
    ensures x in RemoveEach(xs, ys) <==> x in xs && x !in ys
    decreases |ys|
  {
    if ys != [] {
      var i := First(xs, ys[0]);
      RemoveKeepsDistinct(xs, i);
      LRemOfDistinct(xs, ys[0], x);
      RemoveEachIff(LRem(xs, ys[0]), ys[1..], x);
    }
  }

  lemma LRemOfDistinct(xs: seq<QueueJob>, y: QueueJob, x: QueueJob)
    requires DistinctIds(xs)
    ensures x in LRem(xs, y) <==> x in xs && x != y
  {
    var i := First(xs, y);
    if i < |xs| {
      assert xs == xs[..i] + [y] + xs[i + 1..];
    }
  }

  lemma EventIsGone(events: seq<QueueJob>, id: JobId, s: Signals)
    requires DistinctIds(events)
    ensures !HasId(EventsAfter(events, id, s), id)
    ensures HasId(events, id) ==>
              (EventTaken(events, id, s) <==> events[FirstWithId(events, id)] in s.taken)
  {
    if HasId(events, id) {
      var event, later := events[FirstWithId(events, id)], RemoveEach(events, s.taken);
      RemoveEachIff(events, s.taken, event);
      hide RemoveEach, RemoveAt, DistinctIds;
      if HasId(LRem(later, event), id) {
        var x := LRem(later, event)[FirstWithId(LRem(later, event), id)];
        LRemOfDistinct(later, event, x);
        RemoveEachIff(events, s.taken, x);
        OnlyOneWithId(events, event, x);
      }
    }
  }

  lemma OnlyOneWithId(xs: seq<QueueJob>, x: QueueJob, y: QueueJob)
    requires DistinctIds(xs) && x in xs && y in xs && x.id == y.id
    ensures x == y
  {
  }

  /** A completed job never goes back to the main queue, whatever return reason is pending. And it is purged:
      with at most one in_progress and one completed entry per job, one cleanup leaves no trace of it in any
      list it could be found by, except exactly when a shutdown finds its action still in progress, or another
      client removes its completed event between cleanup's lookup and its own removal. */
  lemma CompletedIsPurgedIff(db: Store, h: HandlerId, s: Signals)
    requires JobAndVMs(Read(db, PluginQueue(h))) && Read(db, Cleaning(h)) == []
    requires Read(db, PluginQueue(h))[0].status.Completed?
    requires !s.onStartRun && !s.abandoned
    requires DistinctIds(Read(db, MainInProgress)) && DistinctIds(Read(db, MainCompleted))
    ensures var job, events := Read(db, PluginQueue(h))[0], Read(db, MainCompleted);
      var after := Result(db, h, s).0;
      && Read(after, Main) == Read(db, Main)
      && (!Tracked(after, h, job.id) <==>
            && !(s.shutdown && job.action.InProgress?)
            && !(HasId(events, job.id) && events[FirstWithId(events, job.id)] in s.taken))
  {
    var job := Read(db, PluginQueue(h))[0];
    if StillRunning(job, s.shutdown) {
      assert HasId(Read(db, PluginQueue(h)), job.id);
    } else {
      CleanupSettlesJob(db, h, s);
      EventIsGone(Read(db, MainCompleted), job.id, s);
      var inProgress := Read(db, MainInProgress);
      RemoveKeepsDistinct(inProgress, FirstWithId(inProgress, job.id));
      hide RemoveEach, LRem, RemoveFirstWithId, EventsAfter, EventTaken;
    }
  }

  /** What an entry left in the cleaning list does to the next job: that job's cleanup takes the old entry first,
      drops it and stops there, deleting none of the VMs and leaving the plugin queue as it is. */
  lemma LeftEntryShieldsTheNextJob(db: Store, h: HandlerId, s: Signals)
    requires JobAndVMs(Read(db, PluginQueue(h))) && !s.abandoned
    requires !StillRunning(Read(db, PluginQueue(h))[0], s.shutdown)
    requires var cleaning := Read(db, Cleaning(h));
      && |cleaning| == 1 && cleaning[0].kind.WorkflowJobPayload? && cleaning[0].status.Completed?
      && !HasId(Read(db, MainCompleted), cleaning[0].id)
    ensures var (after, vms) := Result(db, h, s);
      && vms == [] && Read(after, Cleaning(h)) == []
      && Read(after, PluginQueue(h)) == Read(db, PluginQueue(h)) && Read(after, Main) == Read(db, Main)
  {
    var left := Read(db, Cleaning(h))[0];
    assert Read(db, Cleaning(h)) == [left];
    DrainUnrolls(db, h, s);
    CompletedSettles(db, h, left, s);
  }

  /** A second cleanup with no new signal does nothing: the first one has reached its final state. */
  lemma CleanupIsIdempotent(db: Store, h: HandlerId, s: Signals)
    requires JobAndVMs(Read(db, PluginQueue(h))) && Read(db, Cleaning(h)) == []
    requires !s.onStartRun && !s.abandoned && s.reason.None? && !s.abandonedLate
    ensures var (once, _) := Result(db, h, s); var (twice, vms) := Result(once, h, s);
      && (StillRunning(Read(db, PluginQueue(h))[0], s.shutdown) || vms == [])
      && forall k :: k != MainInProgress ==> Read(twice, k) == Read(once, k)
  {
    var job := Read(db, PluginQueue(h))[0];
    if !StillRunning(job, s.shutdown) {
      CleanupSettlesJob(db, h, s);
      var once := Result(db, h, s).0;
      if !job.status.Completed? && !job.status.Failed? && !job.status.TimedOut? {
        assert Read(once, PluginQueue(h)) == [job];
        CleanupSettlesJob(once, h, s);
        forall k | k != MainInProgress ensures Read(Result(once, h, s).0, k) == Read(once, k) {
          assert k.PluginQueue? || k.Cleaning? || k.PluginCompleted? || k.Main? || k.MainCompleted? || k.PausedJobs?;
        }
      }
    }
  }
}
