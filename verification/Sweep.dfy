/** How one handler works its way through the main queue by QueueTargetIndex: a job it cannot run goes back
    to the head of the queue and the index moves on, so the next claim finds the next job. */
module Sweep {
  import opened QueueJobs
  import opened JobQueue
  import opened Cleanup

  class Globals {
    var queueTargetIndex: nat

    constructor ()
      ensures queueTargetIndex == 0
    {
      queueTargetIndex := 0;
    }

    method IncrementQueueTargetIndex()
      modifies this
      ensures queueTargetIndex == old(queueTargetIndex) + 1
    {
      queueTargetIndex := queueTargetIndex + 1;
    }

    method DecrementQueueTargetIndex()
      modifies this
      ensures queueTargetIndex == if old(queueTargetIndex) > 0 then old(queueTargetIndex) - 1 else 0
    {
      if queueTargetIndex > 0 {
        queueTargetIndex := queueTargetIndex - 1;
      }
    }

    method ResetQueueTargetIndex()
      modifies this
      ensures queueTargetIndex == 0
    {
      queueTargetIndex := 0;
    }
  }

  /** Run's claim from the main queue: an index past the end starts over, and finding no job resets it. */
  method ClaimFromMain(db: Redis, g: Globals) returns (job: Option<QueueJob>)
    modifies db, g
    ensures var main := Read(old(db.lists), Main);
      var i := if old(g.queueTargetIndex) > |main| then 0 else old(g.queueTargetIndex);
      && (i < |main| ==>
            && job == Some(main[i]) && g.queueTargetIndex == i
            && db.lists == Write(old(db.lists), Main, LRem(main, main[i])))
      && (i == |main| ==> job == None && g.queueTargetIndex == 0 && db.lists == old(db.lists))
  {
    var length := db.LLen(Main);
    if g.queueTargetIndex > length {
      g.ResetQueueTargetIndex();
    }
    var popped, _, _ := PopJobOffQueue(db, Main, g.queueTargetIndex, [], NeverCanceled);
    job := popped;
    if job.None? {
      g.ResetQueueTargetIndex();
    }
  }

  // A rejected job as it comes back: Run has filled in the VM it would need, cleanup has requeued it.
  function Back(job: QueueJob, vm: string): QueueJob {
    AsReturned(job.(vm := vm), NotEnoughHostResources)
  }

  // As it was examined but for the VM noted and its action; no attempt is counted.
  ghost predicate CameBack(job: QueueJob, back: QueueJob) {
    back == job.(vm := back.vm, action := Action.Queued)
  }

  datatype Progress = Progress(main: seq<QueueJob>, index: nat, seen: seq<QueueJob>, back: seq<QueueJob>)

  datatype Event = Append(job: QueueJob) | Reject(vm: string)

  function Next(p: Progress, e: Event): Progress {
    match e
    case Append(job) => p.(main := p.main + [job])
    case Reject(vm) =>
      var i := if p.index > |p.main| then 0 else p.index;
      if i < |p.main| then
        var job := p.main[i];
        Progress([Back(job, vm)] + LRem(p.main, job), i + 1, p.seen + [job], p.back + [Back(job, vm)])
      else p.(index := 0)
  }

  /** One claim of a job this host cannot run: not_enough_host_resources, then the cleanup's LPUSH. */
  method RejectForHostLimits(db: Redis, g: Globals, vm: string) returns (job: Option<QueueJob>)
    modifies db, g
    ensures var p := Progress(Read(old(db.lists), Main), old(g.queueTargetIndex), [], []);
      var q := Next(p, Reject(vm));
      && Read(db.lists, Main) == q.main && g.queueTargetIndex == q.index
      && q.seen == if job.Some? then [job.value] else []
  {
    job := ClaimFromMain(db, g);
    if job.Some? {
      g.IncrementQueueTargetIndex();
      db.LPush(Main, Back(job.value, vm));
    }
  }

  function Run(p: Progress, es: seq<Event>): Progress
    decreases |es|
  {
    if es == [] then p else Run(Next(p, es[0]), es[1..])
  }

  function Appended(es: seq<Event>): seq<QueueJob> {
    if es == [] then [] else (if es[0].Append? then [es[0].job] else []) + Appended(es[1..])
  }

  // No claim in the run finds the index at the end of the queue: the sweep is still going.
  predicate WithinSweep(p: Progress, es: seq<Event>)
    decreases |es|
  {
    es == [] || ((es[0].Reject? ==> p.index < |p.main|) && WithinSweep(Next(p, es[0]), es[1..]))
  }

  function Reversed<T>(xs: seq<T>): seq<T> {
    if xs == [] then [] else Reversed(xs[1..]) + [xs[0]]
  }

  lemma {:induction false} ReversedAppend<T>(xs: seq<T>, x: T)
    ensures Reversed(xs + [x]) == [x] + Reversed(xs)
  {
    if xs == [] {
      assert [] + [x] == [x] && [x][1..] == [];
    } else {
      assert (xs + [x])[1..] == xs[1..] + [x];
      ReversedAppend(xs[1..], x);
    }
  }

  function Ids(xs: seq<QueueJob>): multiset<JobId> {
    if xs == [] then multiset{} else multiset{xs[0].id} + Ids(xs[1..])
  }

  lemma {:induction false} IdsConcat(a: seq<QueueJob>, b: seq<QueueJob>)
    ensures Ids(a + b) == Ids(a) + Ids(b)
  {
    if a == [] {
      assert a + b == b;
    } else {
      assert (a + b)[1..] == a[1..] + b;
      IdsConcat(a[1..], b);
    }
  }

  lemma IdsOne(x: QueueJob)
    ensures Ids([x]) == multiset{x.id}
  {
  }

  lemma IdsRemoveAt(xs: seq<QueueJob>, i: nat)
    requires i < |xs|
    ensures Ids(xs) == Ids(RemoveAt(xs, i)) + multiset{xs[i].id}
  {
    hide Ids;
    var front, x, rest := xs[..i], xs[i], xs[i + 1..];
    assert xs == front + [x] + rest;
    IdsConcat(front, rest);
    IdsConcat(front + [x], rest);
    IdsConcat(front, [x]);
    IdsOne(x);
    assert RemoveAt(xs, i) == front + rest;
    hide RemoveAt;
  }

  /** What the sweep keeps: behind the index the queue is untouched, what was examined is exactly the queue
      up to the index in order, and in front of the index are the rejected jobs. */
  ghost predicate Swept(p: Progress, all: seq<QueueJob>) {
    && |p.main| == |all| && p.index <= |all|
    && p.main[p.index..] == all[p.index..]
    && p.seen == all[..p.index]
    && |p.back| == p.index && (forall i :: 0 <= i < p.index ==> CameBack(all[i], p.back[i]))
    && Ids(p.main) == Ids(all)
    && (DistinctIds(all) ==> p.main[..p.index] == Reversed(p.back))
  }

  lemma AppendKeepsSwept(p: Progress, all: seq<QueueJob>, job: QueueJob)
    requires Swept(p, all)
    ensures Swept(Next(p, Append(job)), all + [job])
  {
    hide Ids, Reversed;
    IdsConcat(p.main, [job]);
    IdsConcat(all, [job]);
    if DistinctIds(all + [job]) {
      assert forall i :: 0 <= i < |all| ==> (all + [job])[i] == all[i];
      assert DistinctIds(all);
    }
  }

  // LREM by value may hit an equal entry in front of the index; what lies behind the index is the same.
  lemma RejectKeepsRest(p: Progress, all: seq<QueueJob>)
    requires Swept(p, all) && p.index < |all|
    ensures var job := p.main[p.index]; var rest := LRem(p.main, job);
      && job == all[p.index]
      && |rest| == |all| - 1 && rest[p.index..] == all[p.index + 1..]
      && Ids(rest) + multiset{job.id} == Ids(all)
      && (DistinctIds(all) ==> rest[..p.index] == p.main[..p.index])
  {
    assert p.main[p.index] == p.main[p.index..][0] == all[p.index..][0];
    if DistinctIds(all) {
      NothingLikeItInFront(p, all);
    }
    hide Ids, Reversed, DistinctIds, CameBack;
    var i := First(p.main, p.main[p.index]);
    assert i <= p.index;
    IdsRemoveAt(p.main, i);
    RemovedInFront(p.main, i, p.index);
    assert p.main[p.index..][1..] == p.main[p.index + 1..] && all[p.index..][1..] == all[p.index + 1..];
  }

  lemma RemovedInFront(main: seq<QueueJob>, i: nat, index: nat)
    requires i <= index < |main|
    ensures var rest := RemoveAt(main, i);
      && |rest| == |main| - 1 && rest[index..] == main[index + 1..]
      && (i == index ==> rest[..index] == main[..index])
  {
  }

  // Where no id repeats, no rejected job in front of the index equals the one at the index.
  lemma NothingLikeItInFront(p: Progress, all: seq<QueueJob>)
    requires Swept(p, all) && p.index < |all| && DistinctIds(all) && p.main[p.index] == all[p.index]
    ensures First(p.main, p.main[p.index]) == p.index
  {
    hide Ids, Reversed;
    forall i | 0 <= i < p.index ensures p.main[i].id == all[p.index - 1 - i].id {
      ReversedMember(p.back, i);
      assert p.main[..p.index][i] == p.back[p.index - 1 - i];
      assert CameBack(all[p.index - 1 - i], p.back[p.index - 1 - i]);
    }
  }

  lemma {:induction false} ReversedMember<T>(xs: seq<T>, i: nat)
    requires i < |xs|
    ensures |Reversed(xs)| == |xs| && Reversed(xs)[i] == xs[|xs| - 1 - i]
  {
    if |xs| > 1 {
      ReversedMember(xs[1..], if i < |xs| - 1 then i else 0);
    }
  }

  lemma RejectKeepsSwept(p: Progress, all: seq<QueueJob>, vm: string)
    requires Swept(p, all) && p.index < |p.main|
    ensures Swept(Next(p, Reject(vm)), all)
  {
    hide Ids, Reversed, LRem;
    var job := p.main[p.index];
    var q := Next(p, Reject(vm));
    RejectKeepsRest(p, all);
    var rest := LRem(p.main, job);
    IdsConcat([Back(job, vm)], rest);
    IdsOne(Back(job, vm));
    assert q.main[q.index..] == rest[p.index..];
    assert all[..q.index] == all[..p.index] + [all[p.index]];
    if DistinctIds(all) {
      ReversedAppend(p.back, Back(job, vm));
      assert q.main[..q.index] == [Back(job, vm)] + rest[..p.index];
    }
  }

  lemma {:induction false} RunKeepsSwept(p: Progress, all: seq<QueueJob>, es: seq<Event>)
    requires Swept(p, all) && WithinSweep(p, es)
    ensures Swept(Run(p, es), all + Appended(es))
    decreases |es|
  {
    hide Swept, Next;
    if es == [] {
      assert all + [] == all;
    } else if es[0].Append? {
      AppendKeepsSwept(p, all, es[0].job);
      RunKeepsSwept(Next(p, es[0]), all + [es[0].job], es[1..]);
      assert all + [es[0].job] + Appended(es[1..]) == all + Appended(es);
    } else {
      RejectKeepsSwept(p, all, es[0].vm);
      RunKeepsSwept(Next(p, es[0]), all, es[1..]);
      assert [] + Appended(es[1..]) == Appended(es[1..]);
    }
  }

  /** A sweep is fair: with the receiver appending at any point, after k rejections the handler has examined
      exactly the first k jobs of the queue, each once and in order, whether or not entries repeat; the rest
      is untouched, and no job has been lost or added. If no job id repeats, the rejected jobs stand at the
      front in reverse order. */
  lemma SweepIsFair(q0: seq<QueueJob>, es: seq<Event>)
    requires WithinSweep(Progress(q0, 0, [], []), es)
    ensures var all := q0 + Appended(es); var p := Run(Progress(q0, 0, [], []), es);
      && p.index <= |all| && p.seen == all[..p.index]
      && |p.back| == p.index && (forall i :: 0 <= i < p.index ==> CameBack(all[i], p.back[i]))
      && |p.main| == |all| && p.main[p.index..] == all[p.index..] && Ids(p.main) == Ids(all)
      && (DistinctIds(all) ==> p.main == Reversed(p.back) + all[p.index..])
  {
    var p0 := Progress(q0, 0, [], []);
    assert q0[0..] == q0 && q0[..0] == [];
    RunKeepsSwept(p0, q0, es);
    var p := Run(p0, es);
    assert p.main == p.main[..p.index] + p.main[p.index..];
  }

  /** And it ends: the claim that finds no more jobs starts the next sweep at index 0, and by then every job,
      also those appended meanwhile, has been examined. */
  lemma SweepEnds(q0: seq<QueueJob>, es: seq<Event>, vm: string)
    requires WithinSweep(Progress(q0, 0, [], []), es)
    requires var p := Run(Progress(q0, 0, [], []), es); p.index >= |p.main|
    ensures var p := Run(Progress(q0, 0, [], []), es);
      p.seen == q0 + Appended(es) && Next(p, Reject(vm)) == p.(index := 0)
  {
    SweepIsFair(q0, es);
    var all := q0 + Appended(es);
    assert all[..|all|] == all;
  }
}
