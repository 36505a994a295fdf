/** internal/github/queue.go and internal/github/database.go: the list operations that handlers and
    the receiver share. Each method is proved against a function of the list contents. */
module JobQueue {
  import opened QueueJobs

  /* ----- commands of other clients, for what can happen between two commands of one operation ----- */

  datatype Command =
    | PushRight(k: Key, x: QueueJob)
    | PushLeft(k: Key, x: QueueJob)
    | Remove(k: Key, x: QueueJob)
    | Set(k: Key, at: nat, x: QueueJob)
    | MoveTail(k: Key, to: Key)
    | Delete(k: Key)

  function Execute(db: Store, c: Command): Store {
    match c
    case PushRight(k, x) => Write(db, k, Read(db, k) + [x])
    case PushLeft(k, x) => Write(db, k, [x] + Read(db, k))
    case Remove(k, x) => Write(db, k, LRem(Read(db, k), x))
    case Set(k, at, x) => if at < |Read(db, k)| then Write(db, k, Read(db, k)[at := x]) else db
    case MoveTail(k, to) =>
      var xs := Read(db, k);
      if xs == [] then db
      else
        var mid := Write(db, k, xs[..|xs| - 1]);
        Write(mid, to, [xs[|xs| - 1]] + Read(mid, to))
    case Delete(k) => Write(db, k, [])
  }

  function ExecuteAll(db: Store, cs: seq<Command>): Store
    decreases |cs|
  {
    if cs == [] then db else ExecuteAll(Execute(db, cs[0]), cs[1..])
  }

  method OtherClients(db: Redis, cs: seq<Command>)
    modifies db
    ensures db.lists == ExecuteAll(old(db.lists), cs)
  {
    var i := 0;
    while i < |cs|
      invariant 0 <= i <= |cs|
      invariant ExecuteAll(db.lists, cs[i..]) == ExecuteAll(old(db.lists), cs)
    {
      assert cs[i..][1..] == cs[i + 1..];
      match cs[i] {
        case PushRight(k, x) => db.RPush(k, x);
        case PushLeft(k, x) => db.LPush(k, x);
        case Remove(k, x) => var _ := db.LRemOne(k, x);
        case Set(k, at, x) => var _ := db.LSet(k, at, x);
        case MoveTail(k, to) => var _ := db.RPopLPush(k, to);
        case Delete(k) => db.Del(k);
      }
      i := i + 1;
    }
  }

  /* ----- PopJobOffQueue ----- */

  // Where the context is canceled, if it is: a canceled LREM may have been applied all the same.
  datatype Cancellation = NeverCanceled | BeforeRemoval | AfterRemoval

  /** Takes the entry at `target` by LRANGE and then LREM of its text; `between` is whatever other
      clients do in the gap. The popper gets exactly what it saw, or nothing if every equal entry is gone. When the
      removal is reported as canceled although it was applied, the entry is lost: on no list, and with no one. */
  method PopJobOffQueue(db: Redis, queue: Key, target: int, between: seq<Command>, cancel: Cancellation)
    returns (job: Option<QueueJob>, canceled: bool, ghost lost: Option<QueueJob>)
    modifies db
    ensures var seen := LRangeFrom(Read(old(db.lists), queue), target);
      var later := ExecuteAll(old(db.lists), between);
      && (seen == [] ==> job == None && lost == None && !canceled && db.lists == old(db.lists))
      && (seen != [] ==>
            && canceled == !cancel.NeverCanceled?
            && job == (if cancel.NeverCanceled? && seen[0] in Read(later, queue) then Some(seen[0]) else None)
            && lost == (if cancel.AfterRemoval? && seen[0] in Read(later, queue) then Some(seen[0]) else None)
            && db.lists == (if cancel.BeforeRemoval? then later
                            else Write(later, queue, LRem(Read(later, queue), seen[0])))
            && multiset(Read(db.lists, queue)) + AsMultiset(job) + AsMultiset(lost) == multiset(Read(later, queue)))
  {
    hide ExecuteAll, First, LRangeFrom;
    lost := None;
    var seen := db.LRange(queue, target);
    if |seen| == 0 {
      return None, false, None;
    }
    OtherClients(db, between);
    if cancel.BeforeRemoval? {
      return None, true, None;
    }
    PopConserves(Read(db.lists, queue), seen[0]);
    hide LRem;
    var success := db.LRemOne(queue, seen[0]);
    if cancel.AfterRemoval? {
      lost := if success == 1 then Some(seen[0]) else None;
      return None, true, lost;
    }
    job := if success == 1 then Some(seen[0]) else None;
    canceled := false;
  }

  lemma PopConserves(xs: seq<QueueJob>, x: QueueJob)
    ensures multiset(LRem(xs, x)) + (if x in xs then multiset{x} else multiset{}) == multiset(xs)
  {
    LRemMultiset(xs, x);
    assert x in xs ==> x in multiset(xs);
  }

  function AsMultiset(x: Option<QueueJob>): multiset<QueueJob> {
    if x.Some? then multiset{x.value} else multiset{}
  }

  /* ----- lookup and deletion by job id ----- */

  method GetJobFromQueueByID(db: Redis, id: JobId, queue: Key) returns (job: Option<QueueJob>)
    ensures job.Some? <==> exists i :: 0 <= i < |Read(db.lists, queue)| && Read(db.lists, queue)[i].id == id
    ensures job.Some? ==> job.value == Read(db.lists, queue)[FirstWithId(Read(db.lists, queue), id)]
  {
    var queued := db.LRange(queue, 0);
    var i := 0;
    while i < |queued|
      invariant 0 <= i <= |queued|
      invariant forall j :: 0 <= j < i ==> queued[j].id != id
    {
      if queued[i].id == id {
        return Some(queued[i]);
      }
      i := i + 1;
    }
    job := None;
  }

  lemma FirstWithIdIsFirst(xs: seq<QueueJob>, id: JobId)
    ensures HasId(xs, id) ==> First(xs, xs[FirstWithId(xs, id)]) == FirstWithId(xs, id)
    ensures HasId(xs, id) ==> LRem(xs, xs[FirstWithId(xs, id)]) == RemoveFirstWithId(xs, id)
  {
    var i := FirstWithId(xs, id);
    if i < |xs| {
      assert First(xs, xs[i]) < |xs|;
    }
  }

  function Forget(db: Store, id: JobId, queue: Key): Store {
    if HasId(Read(db, queue), id) then Write(db, queue, RemoveFirstWithId(Read(db, queue), id)) else db
  }

  lemma ForgetReads(db: Store, id: JobId, queue: Key)
    ensures Read(Forget(db, id, queue), queue) == RemoveFirstWithId(Read(db, queue), id)
    ensures forall k :: k != queue ==> Read(Forget(db, id, queue), k) == Read(db, k)
  {
  }

  /** Looks the entry up and removes its text; `between` is what other clients do in the gap. */
  method DeleteFromQueueAmid(db: Redis, id: JobId, queue: Key, between: seq<Command>)
    modifies db
    ensures var seen := Read(old(db.lists), queue); var later := ExecuteAll(old(db.lists), between);
      db.lists == if HasId(seen, id) then Write(later, queue, LRem(Read(later, queue), seen[FirstWithId(seen, id)]))
                  else old(db.lists)
  {
    hide ExecuteAll, LRem;
    var queued := db.LRange(queue, 0);
    var i := 0;
    while i < |queued|
      invariant 0 <= i <= |queued|
      invariant forall j :: 0 <= j < i ==> queued[j].id != id
      invariant db.lists == old(db.lists)
    {
      if queued[i].id == id {
        assert FirstWithId(queued, id) == i;
        OtherClients(db, between);
        var _ := db.LRemOne(queue, queued[i]);
        return;
      }
      i := i + 1;
    }
  }

  /** Alone, it removes the first entry with the id. */
  method DeleteFromQueue(db: Redis, id: JobId, queue: Key)
    modifies db
    ensures db.lists == Forget(old(db.lists), id, queue)
  {
    FirstWithIdIsFirst(Read(db.lists, queue), id);
    assert ExecuteAll(db.lists, []) == db.lists;
    DeleteFromQueueAmid(db, id, queue, []);
  }

  /* ----- UpdateJobInDB ----- */

  datatype UpdateOutcome = Updated | AlreadyCompleted | NotUpdated

  predicate SameJob(a: QueueJob, b: QueueJob) {
    a.kind == b.kind && a.id == b.id && a.runId == b.runId
  }

  function FirstSame(xs: seq<QueueJob>, job: QueueJob): (i: nat)
    ensures i <= |xs|
    ensures i < |xs| ==> SameJob(xs[i], job)
    ensures forall j :: 0 <= j < i ==> !SameJob(xs[j], job)
  {
    if xs == [] then 0 else if SameJob(xs[0], job) then 0 else 1 + FirstSame(xs[1..], job)
  }

  function UpdateList(xs: seq<QueueJob>, job: QueueJob): (seq<QueueJob>, UpdateOutcome) {
    if xs == [] then (xs, NotUpdated)
    else if xs[0].status.Completed? then (xs, AlreadyCompleted)
    else
      var i := FirstSame(xs, job);
      if i < |xs| then (xs[i := job], Updated) else (xs, NotUpdated)
  }

  method CheckIfJobIsCompleted(db: Redis, queue: Key) returns (found: bool, completed: bool)
    ensures found <==> Read(db.lists, queue) != []
    ensures completed <==> found && Read(db.lists, queue)[0].status.Completed?
  {
    var head := db.LIndex(queue, 0);
    found := head.Some?;
    completed := head.Some? && head.value.status.Completed?;
  }

  // The update with other clients acting after it has read the head, and again after it has read the list.
  function UpdateAmid(db: Store, queue: Key, job: QueueJob, afterHead: seq<Command>, afterList: seq<Command>)
    : (Store, UpdateOutcome)
  {
    var head := Read(db, queue);
    if head == [] then (db, NotUpdated)
    else if head[0].status.Completed? then (db, AlreadyCompleted)
    else
      var mid := ExecuteAll(db, afterHead);
      var at := FirstSame(Read(mid, queue), job);
      if at == |Read(mid, queue)| then (mid, NotUpdated)
      else
        var late := ExecuteAll(mid, afterList);
        var now := Read(late, queue);
        if at < |now| then (Write(late, queue, now[at := job]), Updated) else (late, NotUpdated)
  }

  /** The guard is the head alone, read first; the entry to overwrite is found in a second reading, by its
      index. Alone, the update is UpdateList. */
  method UpdateJobInDB(db: Redis, queue: Key, job: QueueJob, afterHead: seq<Command>, afterList: seq<Command>)
    returns (outcome: UpdateOutcome)
    modifies db
    ensures (db.lists, outcome) == UpdateAmid(old(db.lists), queue, job, afterHead, afterList)
    ensures afterHead == [] && afterList == [] ==>
              var (after, o) := UpdateList(Read(old(db.lists), queue), job);
              && outcome == o
              && db.lists == if o.Updated? then Write(old(db.lists), queue, after) else old(db.lists)
  {
    var found, completed := CheckIfJobIsCompleted(db, queue);
    if !found {
      return NotUpdated;
    }
    if completed {
      return AlreadyCompleted;
    }
    OtherClients(db, afterHead);
    ghost var mid := db.lists;
    var jobs := db.LRange(queue, 0);
    var i := 0;
    while i < |jobs|
      invariant 0 <= i <= |jobs|
      invariant forall j :: 0 <= j < i ==> !SameJob(jobs[j], job)
      invariant db.lists == mid
    {
      if SameJob(jobs[i], job) {
        OtherClients(db, afterList);
        var ok := db.LSet(queue, i, job);
        return if ok then Updated else NotUpdated;
      }
      i := i + 1;
    }
    outcome := NotUpdated;
  }

  /** What an update may touch: at most one entry, and that one keeps its type, job id and run id. So a
      VM entry that shares the payload's job id is never overwritten by the payload, nor the reverse. */
  lemma UpdateKeepsIdentities(xs: seq<QueueJob>, job: QueueJob)
    ensures var (ys, o) := UpdateList(xs, job);
      && |ys| == |xs|
      && (forall i :: 0 <= i < |xs| ==>
            ys[i].kind == xs[i].kind && ys[i].id == xs[i].id && ys[i].runId == xs[i].runId)
      && (forall i :: 0 <= i < |xs| && ys[i] != xs[i] ==> o.Updated? && i == FirstSame(xs, job) && ys[i] == job)
      && (forall i :: 0 <= i < |xs| && xs[i].kind != job.kind ==> ys[i] == xs[i])
  {
  }

  /** When an update takes effect: the head is not completed and the job is in the list. */
  lemma UpdateTakesEffectIff(xs: seq<QueueJob>, job: QueueJob)
    ensures UpdateList(xs, job).1.Updated? <==>
            && |xs| > 0 && !xs[0].status.Completed?
            && exists i :: 0 <= i < |xs| && xs[i].kind == job.kind && xs[i].id == job.id && xs[i].runId == job.runId
    ensures UpdateList(xs, job).1.AlreadyCompleted? <==> |xs| > 0 && xs[0].status.Completed?
    ensures UpdateList(xs, job).1.Updated? ==> job in UpdateList(xs, job).0
  {
    var i := FirstSame(xs, job);
    if |xs| > 0 && !xs[0].status.Completed? && i < |xs| {
      assert UpdateList(xs, job).0[i] == job;
    }
  }

  function UpdateAll(xs: seq<QueueJob>, jobs: seq<QueueJob>): seq<QueueJob>
    decreases |jobs|
  {
    if jobs == [] then xs else UpdateAll(UpdateList(xs, jobs[0]).0, jobs[1..])
  }

  /** Completed is absorbing: once some update in a series left the head completed, the rest of the
      series changes nothing, whatever the jobs written and however many writers there are. */
  lemma {:induction false} CompletedIsAbsorbing(xs: seq<QueueJob>, before: seq<QueueJob>, after: seq<QueueJob>)
    requires var mid := UpdateAll(xs, before); mid != [] && mid[0].status.Completed?
    ensures UpdateAll(xs, before + after) == UpdateAll(xs, before)
    decreases |before| + |after|
  {
    if before == [] {
      if after != [] {
        CompletedIsAbsorbing(xs, [], after[1..]);
        assert [] + after == after;
        assert [] + after[1..] == after[1..];
      }
    } else {
      CompletedIsAbsorbing(UpdateList(xs, before[0]).0, before[1..], after);
      assert (before + after)[1..] == before[1..] + after;
    }
  }
}
