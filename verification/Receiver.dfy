/** plugins/receivers/github/github.go: what the receiver does with one webhook delivery, command by command,
    and that it is what the deliveries of Runs do stage by stage. The commands of other clients between its
    lookups and its push are given. */
module Receiver {
  import opened QueueJobs
  import opened JobQueue
  import opened Runs

  const ANKA_LABEL := "anka-template"

  // strings.Contains
  predicate Contains(s: string, part: string) {
    part <= s || (s != "" && Contains(s[1..], part))
  }

  lemma {:induction false} ContainsIff(s: string, part: string)
    ensures Contains(s, part) <==> exists before: string, after: string :: before + part + after == s
  {
    if part <= s {
      assert "" + part + s[|part|..] == s;
    } else {
      if Contains(s, part) {
        ContainsIff(s[1..], part);
        var before: string, after: string :| before + part + after == s[1..];
        assert (s[..1] + before) + part + after == s;
      }
      if before: string, after: string :| before + part + after == s {
        AtTheStart(before, part, after);
        assert before[1..] + part + after == s[1..];
        ContainsIff(s[1..], part);
      }
    }
  }

  lemma AtTheStart(before: string, part: string, after: string)
    ensures before == "" ==> part <= before + part + after
  {
  }

  predicate SomeContains(items: seq<string>, part: string) {
    exists j :: 0 <= j < |items| && Contains(items[j], part)
  }

  lemma ContainedSomewhereIff(items: seq<string>, desired: seq<string>)
    ensures forall d :: d in desired ==>
              (SomeContains(items, d) <==> exists before: string, after: string :: before + d + after in items)
  {
    hide Contains;
    forall d | d in desired
      ensures SomeContains(items, d) <==> exists before: string, after: string :: before + d + after in items
    {
      if j :| 0 <= j < |items| && Contains(items[j], d) {
        ContainsIff(items[j], d);
        var before: string, after: string :| before + d + after == items[j];
        assert before + d + after in items;
      }
      if before: string, after: string :| before + d + after in items {
        var j :| 0 <= j < |items| && items[j] == before + d + after;
        ContainsIff(items[j], d);
        assert Contains(items[j], d);
      }
    }
  }

  /** Whether every desired string is part of some item. */
  method ExistsInArrayPartial(items: seq<string>, desired: seq<string>) returns (all: bool)
    ensures all <==> forall d :: d in desired ==>
              exists before: string, after: string :: before + d + after in items
  {
    var i := 0;
    while i < |desired|
      invariant 0 <= i <= |desired|
      invariant forall d :: d in desired[..i] ==> SomeContains(items, d)
    {
      var found := false;
      var j := 0;
      while j < |items|
        invariant 0 <= j <= |items| && !found
        invariant forall k :: 0 <= k < j ==> !Contains(items[k], desired[i])
      {
        if Contains(items[j], desired[i]) {
          found := true;
          break;
        }
        j := j + 1;
      }
      assert found == SomeContains(items, desired[i]);
      if !found {
        assert desired[i] in desired;
        ContainedSomewhereIff(items, desired);
        return false;
      }
      i := i + 1;
    }
    ContainedSomewhereIff(items, desired);
    return true;
  }

  // A machine state with these lists, so many handlers, and a single delivery, at this stage.
  ghost predicate Shows(s: State, db: Store, hosts: nat, stage: Delivery) {
    s.db == db && |s.hosts| == hosts && s.deliveries == [stage]
  }

  /** CheckIfJobExistsInHandlerQueues: only the entry at each handler list's head counts. */
  method CheckIfJobExistsInHandlerQueues(db: Redis, hosts: nat, job: QueueJob) returns (found: bool)
    ensures forall s: State :: s.db == db.lists && |s.hosts| == hosts ==> found == AtSomeHandlersHead(s, job)
  {
    var h := 0;
    while h < hosts
      invariant 0 <= h <= hosts
      invariant forall k :: 0 <= k < h ==>
                  !HeadIs(Read(db.lists, PluginQueue(k)), job) && !HeadIs(Read(db.lists, Cleaning(k)), job)
    {
      var first := db.LIndex(PluginQueue(h), 0);
      if first.Some? && first.value.runId == job.runId && first.value.id == job.id {
        return true;
      }
      first := db.LIndex(Cleaning(h), 0);
      if first.Some? && first.value.runId == job.runId && first.value.id == job.id {
        return true;
      }
      h := h + 1;
    }
    return false;
  }

  // The lookups of the completed branch: main queue, and queue and cleaning list of every handler.
  method InAQueue(db: Redis, hosts: nat, id: JobId) returns (found: bool)
    ensures forall s: State :: s.db == db.lists && |s.hosts| == hosts ==> found == InSomeQueue(s, id)
  {
    var job := GetJobFromQueueByID(db, id, Main);
    if job.Some? {
      return true;
    }
    var h := 0;
    while h < hosts
      invariant 0 <= h <= hosts && !HasId(Read(db.lists, Main), id)
      invariant forall k :: 0 <= k < h ==>
                  !HasId(Read(db.lists, PluginQueue(k)), id) && !HasId(Read(db.lists, Cleaning(k)), id)
    {
      job := GetJobFromQueueByID(db, id, PluginQueue(h));
      if job.Some? {
        return true;
      }
      job := GetJobFromQueueByID(db, id, Cleaning(h));
      if job.Some? {
        return true;
      }
      h := h + 1;
    }
    return false;
  }

  function AfterOthers(s: State, cs: seq<Command>): State {
    s.(db := ExecuteAll(s.db, cs))
  }

  // A delivery run through its stages, other clients acting before each stage but the first.
  function Stages(s: State, event: Event, gaps: seq<seq<Command>>): State
    requires |gaps| == 2
  {
    var looked := Next(s, Receive(0, event));
    if Rests(looked) then looked
    else
      var next := Next(AfterOthers(looked, gaps[0]), Proceed(0));
      if Rests(next) then next else Next(AfterOthers(next, gaps[1]), Proceed(0))
  }

  predicate Rests(s: State) {
    |s.deliveries| == 1 ==> s.deliveries[0].Resting?
  }

  /** The webhook handler for a workflow job: does to the lists what the delivery's stages do, whatever other
      clients do in between, and nothing for a job without the Anka label. */
  method HandleWebhook(db: Redis, hosts: nat, labels: seq<string>, event: Event, gaps: seq<seq<Command>>)
    requires WellFormed(event.job) && |gaps| == 2
    modifies db
    ensures !(exists before: string, after: string :: before + "anka-template" + after in labels) ==>
              db.lists == old(db.lists)
    ensures (exists before: string, after: string :: before + "anka-template" + after in labels) ==>
              forall s: State :: Shows(s, old(db.lists), hosts, Resting) ==> db.lists == Stages(s, event, gaps).db
  {
    var forAnka := ExistsInArrayPartial(labels, [ANKA_LABEL]);
    assert ANKA_LABEL in [ANKA_LABEL];
    if !forAnka {
      return;
    }
    match event {
      case QueuedEvent(job) => HandleQueued(db, hosts, job, gaps);
      case InProgressEvent(job) => HandleInProgress(db, hosts, job, gaps);
      case CompletedEvent(job) => HandleCompleted(db, hosts, job, gaps);
    }
  }

  // Where the stages of each event end, for proofs that follow them.
  lemma StagesOf(db: Store, hosts: nat, event: Event, gaps: seq<seq<Command>>)
    requires WellFormed(event.job) && |gaps| == 2
    ensures forall s: State :: Shows(s, db, hosts, Resting) ==>
              Stages(s, event, gaps).db == StagesDb(s, event.job, event, gaps)
  {
    hide ExecuteAll, HasId, HeadIs;
  }

  function StagesDb(s: State, job: QueueJob, event: Event, gaps: seq<seq<Command>>): Store
    requires |gaps| == 2
  {
    var later := ExecuteAll(s.db, gaps[0]);
    match event
    case QueuedEvent(_) =>
      if HasId(Read(s.db, Main), job.id) then s.db
      else if AtSomeHandlersHead(s.(db := later), job) then later
      else Appended(ExecuteAll(later, gaps[1]), Main, job)
    case InProgressEvent(_) =>
      if job.conclusion == "cancelled" || HasId(Read(s.db, MainInProgress), job.id) then s.db
      else Appended(later, MainInProgress, job)
    case CompletedEvent(_) =>
      if !InSomeQueue(s, job.id) then s.db
      else if HasId(Read(later, MainCompleted), job.id) then later
      else Appended(ExecuteAll(later, gaps[1]), MainCompleted, job)
  }

  function Appended(db: Store, k: Key, job: QueueJob): Store {
    Write(db, k, Read(db, k) + [job])
  }

  method HandleQueued(db: Redis, hosts: nat, job: QueueJob, gaps: seq<seq<Command>>)
    requires WellFormed(job) && |gaps| == 2
    modifies db
    ensures forall s: State :: Shows(s, old(db.lists), hosts, Resting) ==>
              db.lists == Stages(s, QueuedEvent(job), gaps).db
  {
    StagesOf(db.lists, hosts, QueuedEvent(job), gaps);
    hide Stages, ExecuteAll;
    var inQueue := GetJobFromQueueByID(db, job.id, Main);
    if inQueue.Some? {
      return;
    }
    OtherClients(db, gaps[0]);
    var inHandlerQueue := CheckIfJobExistsInHandlerQueues(db, hosts, job);
    if inHandlerQueue {
      return;
    }
    OtherClients(db, gaps[1]);
    db.RPush(Main, job);
  }

  method HandleInProgress(db: Redis, hosts: nat, job: QueueJob, gaps: seq<seq<Command>>)
    requires WellFormed(job) && |gaps| == 2
    modifies db
    ensures forall s: State :: Shows(s, old(db.lists), hosts, Resting) ==>
              db.lists == Stages(s, InProgressEvent(job), gaps).db
  {
    StagesOf(db.lists, hosts, InProgressEvent(job), gaps);
    hide Stages, ExecuteAll;
    if job.conclusion == "cancelled" {
      return;
    }
    var inQueue := GetJobFromQueueByID(db, job.id, MainInProgress);
    if inQueue.None? {
      OtherClients(db, gaps[0]);
      db.RPush(MainInProgress, job);
    }
  }

  method HandleCompleted(db: Redis, hosts: nat, job: QueueJob, gaps: seq<seq<Command>>)
    requires WellFormed(job) && |gaps| == 2
    modifies db
    ensures forall s: State :: Shows(s, old(db.lists), hosts, Resting) ==>
              db.lists == Stages(s, CompletedEvent(job), gaps).db
  {
    StagesOf(db.lists, hosts, CompletedEvent(job), gaps);
    hide Stages, ExecuteAll;
    var inAQueue := InAQueue(db, hosts, job.id);
    if !inAQueue {
      return;
    }
    OtherClients(db, gaps[0]);
    var inCompletedQueue := GetJobFromQueueByID(db, job.id, MainCompleted);
    if inCompletedQueue.None? {
      OtherClients(db, gaps[1]);
      db.RPush(MainCompleted, job);
    }
  }
}
