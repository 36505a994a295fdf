/** The entries that the scheduler keeps in Redis, and the Redis list commands it uses on them.

    An entry is the decoded form of one JSON list element. Two entries are equal exactly when their
    JSON text is, so LREM's comparison of texts is equality here. */
module QueueJobs {

  datatype Option<+T> = None | Some(value: T)

  type JobId = int
  type HandlerId = nat

  datatype EntryType = WorkflowJobPayload | AnkaVM | UnknownType

  datatype Status = NoStatus | Queued | InProgress | Completed | Failed | TimedOut | OtherStatus(text: string)

  datatype Action =
    | NoAction | Queued | Preparing | Paused | Registered | InProgress | Finish
    | Cancel | Canceled | TimedOut | RemoveSelfHostedRunner

  /** `details` stands for the fields the protocol never looks at (labels, names, URLs, times). */
  datatype QueueJob = QueueJob(
    kind: EntryType, id: JobId, runId: int, status: Status, conclusion: string, action: Action,
    pausedOn: Option<HandlerId>, attempts: nat, vm: string, owner: Option<string>, details: string)

  /** Why a job goes back to the main queue. */
  datatype Reason = NotEnoughHostResources | PullAlreadyRunning | OtherReason(text: string)

  // The list keys under one queue owner; HandlerId names a handler plugin.
  datatype Key =
    | Main | MainInProgress | MainCompleted | PausedJobs
    | PluginQueue(h: HandlerId) | Cleaning(h: HandlerId) | PluginCompleted(h: HandlerId)

  // Redis itself. A key that is absent is an empty list.
  type Store = map<Key, seq<QueueJob>>

  function Read(db: Store, k: Key): seq<QueueJob> {
    if k in db then db[k] else []
  }

  function Write(db: Store, k: Key, xs: seq<QueueJob>): Store {
    db[k := xs]
  }

  /* ----- lists ----- */

  function First(xs: seq<QueueJob>, x: QueueJob): (i: nat)
    ensures i <= |xs|
    ensures i < |xs| ==> xs[i] == x
    ensures forall j :: 0 <= j < i ==> xs[j] != x
    ensures i == |xs| <==> x !in xs
  {
    if xs == [] then 0 else if xs[0] == x then 0 else 1 + First(xs[1..], x)
  }

  function FirstWithId(xs: seq<QueueJob>, id: JobId): (i: nat)
    ensures i <= |xs|
    ensures i < |xs| ==> xs[i].id == id
    ensures forall j :: 0 <= j < i ==> xs[j].id != id
  {
    if xs == [] then 0 else if xs[0].id == id then 0 else 1 + FirstWithId(xs[1..], id)
  }

  predicate HasId(xs: seq<QueueJob>, id: JobId) {
    FirstWithId(xs, id) < |xs|
  }

  function RemoveAt<T>(xs: seq<T>, i: nat): seq<T> {
    if i < |xs| then xs[..i] + xs[i + 1..] else xs
  }

  /** LREM key 1 x: drops the first occurrence. */
  function LRem(xs: seq<QueueJob>, x: QueueJob): seq<QueueJob> {
    RemoveAt(xs, First(xs, x))
  }

  function RemoveFirstWithId(xs: seq<QueueJob>, id: JobId): seq<QueueJob> {
    RemoveAt(xs, FirstWithId(xs, id))
  }

  /** LRANGE key start -1. */
  function LRangeFrom<T>(xs: seq<T>, start: int): seq<T> {
    var from := if start >= 0 then start else if |xs| + start >= 0 then |xs| + start else 0;
    if from <= |xs| then xs[from..] else []
  }

  lemma LRemMultiset(xs: seq<QueueJob>, x: QueueJob)
    ensures multiset(LRem(xs, x)) == multiset(xs) - multiset{x}
    ensures |LRem(xs, x)| == if x in xs then |xs| - 1 else |xs|
  {
    var i := First(xs, x);
    if i < |xs| {
      assert xs == xs[..i] + [x] + xs[i + 1..];
    } else {
      assert multiset(xs)[x] == 0;
    }
  }

  /** It removes the first one, and the rest keeps its order. */
  lemma LRemSplits(before: seq<QueueJob>, x: QueueJob, after: seq<QueueJob>)
    requires x !in before
    ensures LRem(before + [x] + after, x) == before + after
    ensures LRem(before, x) == before
  {
    var xs := before + [x] + after;
    assert xs[|before|] == x && forall j :: 0 <= j < |before| ==> xs[j] == before[j];
    assert First(xs, x) == |before|;
  }

  /** LRANGE counts a negative start from the end. */
  lemma LRangeIs<T>(xs: seq<T>, start: int)
    ensures 0 <= start <= |xs| ==> xs == xs[..start] + LRangeFrom(xs, start)
    ensures -|xs| <= start < 0 ==> |LRangeFrom(xs, start)| == -start && xs == xs[..|xs| + start] + LRangeFrom(xs, start)
    ensures start > |xs| ==> LRangeFrom(xs, start) == []
    ensures start < -|xs| ==> LRangeFrom(xs, start) == xs
  {
  }

  lemma HasIdIff(xs: seq<QueueJob>, id: JobId)
    ensures HasId(xs, id) <==> exists i :: 0 <= i < |xs| && xs[i].id == id
  {
  }

  // No two entries of the list share a job id.
  predicate DistinctIds(xs: seq<QueueJob>) {
    forall i, j :: 0 <= i < j < |xs| ==> xs[i].id != xs[j].id
  }

  lemma RemoveKeepsDistinct(xs: seq<QueueJob>, i: nat)
    requires DistinctIds(xs)
    ensures DistinctIds(RemoveAt(xs, i))
    ensures forall id :: HasId(RemoveAt(xs, i), id) ==> HasId(xs, id)
    ensures i < |xs| ==> !HasId(RemoveAt(xs, i), xs[i].id)
  {
    var ys := RemoveAt(xs, i);
    assert forall k :: 0 <= k < |ys| ==> ys[k] == if k < i then xs[k] else xs[k + 1];
    forall id | HasId(ys, id) ensures HasId(xs, id) {
      var k := FirstWithId(ys, id);
      assert xs[if k < i then k else k + 1].id == id;
    }
  }

  lemma AppendKeepsDistinct(xs: seq<QueueJob>, x: QueueJob)
    requires DistinctIds(xs) && !HasId(xs, x.id)
    ensures DistinctIds(xs + [x])
  {
  }

  /* ----- the server ----- */

  class Redis {
    var lists: Store

    constructor ()
      ensures forall k :: Read(lists, k) == []
    {
      lists := map[];
    }

    method LLen(k: Key) returns (n: nat)
      ensures n == |Read(lists, k)|
    {
      n := |Read(lists, k)|;
    }

    method LIndex(k: Key, at: int) returns (x: Option<QueueJob>)
      ensures var xs := Read(lists, k); var i := if at >= 0 then at else |xs| + at;
        x == if 0 <= i < |xs| then Some(xs[i]) else None
    {
      var xs := Read(lists, k);
      var i := if at >= 0 then at else |xs| + at;
      x := if 0 <= i < |xs| then Some(xs[i]) else None;
    }

    method LRange(k: Key, start: int) returns (xs: seq<QueueJob>)
      ensures xs == LRangeFrom(Read(lists, k), start)
    {
      xs := LRangeFrom(Read(lists, k), start);
    }

    method LRemOne(k: Key, x: QueueJob) returns (removed: nat)
      modifies this
      ensures lists == Write(old(lists), k, LRem(Read(old(lists), k), x))
      ensures removed == if x in Read(old(lists), k) then 1 else 0
    {
      removed := if x in Read(lists, k) then 1 else 0;
      lists := Write(lists, k, LRem(Read(lists, k), x));
    }

    method LPush(k: Key, x: QueueJob)
      modifies this
      ensures lists == Write(old(lists), k, [x] + Read(old(lists), k))
    {
      lists := Write(lists, k, [x] + Read(lists, k));
    }

    method RPush(k: Key, x: QueueJob)
      modifies this
      ensures lists == Write(old(lists), k, Read(old(lists), k) + [x])
    {
      lists := Write(lists, k, Read(lists, k) + [x]);
    }

    method RPop(k: Key) returns (x: Option<QueueJob>)
      modifies this
      ensures var xs := Read(old(lists), k);
        if xs == [] then x == None && lists == old(lists)
        else x == Some(xs[|xs| - 1]) && lists == Write(old(lists), k, xs[..|xs| - 1])
    {
      var xs := Read(lists, k);
      if xs == [] { return None; }
      x := Some(xs[|xs| - 1]);
      lists := Write(lists, k, xs[..|xs| - 1]);
    }

    method RPopLPush(from: Key, to: Key) returns (x: Option<QueueJob>)
      modifies this
      ensures var xs := Read(old(lists), from);
        if xs == [] then x == None && lists == old(lists)
        else
          var mid := Write(old(lists), from, xs[..|xs| - 1]);
          x == Some(xs[|xs| - 1]) && lists == Write(mid, to, [xs[|xs| - 1]] + Read(mid, to))
    {
      x := RPop(from);
      if x.Some? {
        LPush(to, x.value);
      }
    }

    method LSet(k: Key, at: nat, x: QueueJob) returns (ok: bool)
      modifies this
      ensures ok <==> at < |Read(old(lists), k)|
      ensures lists == if ok then Write(old(lists), k, Read(old(lists), k)[at := x]) else old(lists)
    {
      var xs := Read(lists, k);
      ok := at < |xs|;
      if ok {
        lists := Write(lists, k, xs[at := x]);
      }
    }

    method Del(k: Key)
      modifies this
      ensures lists == Write(old(lists), k, [])
    {
      lists := Write(lists, k, []);
    }
  }
}
