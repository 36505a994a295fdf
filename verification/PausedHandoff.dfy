/** A paused job between the host that paused it and the hosts that may take it over, with every lookup and
    every write a step of its own. The code takes a job over by a lookup, a check of its action and an LREM
    whose count it ignores; the pausing host resumes by a lookup and a later update whose failure it only
    logs. So two owners are possible, and this module says exactly when. */
module PausedHandoff {
  import opened QueueJobs
  import opened JobQueue

  /** Seen: the job was in the queue at the last look. Stopped: found completed instead of resumed. */
  datatype Owner = Waiting | Seen | Running | Abandoned | Stopped

  datatype Taker = Looking | Found(entry: QueueJob) | Has(entry: QueueJob) | Refused

  /** `queue` is the pausing host's plugin queue and `job` the local variable it was paused with. */
  datatype State = State(queue: seq<QueueJob>, job: QueueJob, host: Owner, takers: seq<Taker>)

  datatype Step =
    | Look                                                     // pausing host: is it still in my queue?
    | StillBusy                                                // pausing host: not enough resources yet
    | Resume                                                   // pausing host: UpdateJobInDB and run
    | Mark(status: Status)                                     // its checker rewrites the head's status
    | Lookup(t: nat)                                           // a taker: find it and check its action
    | Unlist(t: nat)                                           // the taker: LREM and run

  function Next(s: State, a: Step): State {
    match a
    case Look =>
      if s.host.Waiting? then s.(host := if HasId(s.queue, s.job.id) then Seen else Abandoned) else s
    case StillBusy =>
      if s.host.Seen? then s.(host := Waiting) else s
    case Resume =>
      if !s.host.Seen? then s
      else
        var (queue, outcome) := UpdateList(s.queue, s.job.(action := Action.InProgress));
        s.(queue := queue, host := if outcome.AlreadyCompleted? then Stopped else Running)
    case Mark(status) =>
      if s.queue == [] then s else s.(queue := UpdateList(s.queue, s.queue[0].(status := status)).0)
    case Lookup(t) =>
      if t >= |s.takers| || !s.takers[t].Looking? then s
      else
        var i := FirstWithId(s.queue, s.job.id);
        s.(takers := s.takers[t :=
             if i < |s.queue| && s.queue[i].action.Paused? then Found(s.queue[i]) else Refused])
    case Unlist(t) =>
      if t >= |s.takers| || !s.takers[t].Found? then s
      else
        s.(takers := s.takers[t := Has(s.takers[t].entry)], queue := LRem(s.queue, s.takers[t].entry))
  }

  function Run(s: State, steps: seq<Step>): State
    decreases |steps|
  {
    if steps == [] then s else Run(Next(s, steps[0]), steps[1..])
  }

  // The host has just paused the job and put the advertisement up.
  predicate Start(s: State) {
    && s.job.kind.WorkflowJobPayload? && s.job.action.Paused? && s.queue == [s.job] && s.host.Waiting?
    && forall t :: 0 <= t < |s.takers| ==> s.takers[t].Looking?
  }

  /* ----- counting owners ----- */

  function Holders(takers: seq<Taker>): nat {
    if takers == [] then 0 else (if takers[0].Has? then 1 else 0) + Holders(takers[1..])
  }

  /** The pausing host owns the job while it runs it or still has it in its queue. */
  function Owners(s: State): nat {
    Holders(s.takers) + if s.host.Running? || s.queue != [] then 1 else 0
  }

  /** The step finds that what it looked up is no longer in the queue: for a taker the very entry, for the
      pausing host its job. */
  predicate Stale(s: State, a: Step) {
    || (a.Unlist? && a.t < |s.takers| && s.takers[a.t].Found? && s.takers[a.t].entry !in s.queue)
    || (a.Resume? && s.host.Seen? && !HasId(s.queue, s.job.id))
  }

  function StaleSteps(s: State, steps: seq<Step>): nat
    decreases |steps|
  {
    if steps == [] then 0 else (if Stale(s, steps[0]) then 1 else 0) + StaleSteps(Next(s, steps[0]), steps[1..])
  }

  predicate Inv(s: State) {
    && s.job.kind.WorkflowJobPayload? && s.job.action.Paused?
    && |s.queue| <= 1 && (s.queue != [] ==> SameJob(s.queue[0], s.job))
    && (s.host.Running? && s.queue != [] ==> s.queue[0].action.InProgress?)
    && (s.host.Abandoned? ==> s.queue == [])
    && (forall t :: 0 <= t < |s.takers| && s.takers[t].Found? ==> s.takers[t].entry.action.Paused?)
  }

  lemma {:induction false} HoldersSet(takers: seq<Taker>, t: nat, x: Taker)
    requires t < |takers|
    ensures Holders(takers[t := x]) + (if takers[t].Has? then 1 else 0) == Holders(takers) + if x.Has? then 1 else 0
  {
    if t > 0 {
      HoldersSet(takers[1..], t - 1, x);
      assert takers[t := x][1..] == takers[1..][t - 1 := x];
    } else {
      assert takers[t := x][1..] == takers[1..];
    }
  }

  lemma StepKeepsInv(s: State, a: Step)
    requires Inv(s)
    ensures Inv(Next(s, a))
  {
    if a.Unlist? && a.t < |s.takers| && s.takers[a.t].Found? {
      assert s.queue == [] || s.queue == [s.queue[0]];
    }
  }

  lemma StepOwners(s: State, a: Step)
    requires Inv(s)
    ensures Owners(Next(s, a)) == Owners(s) + if Stale(s, a) then 1 else 0
  {
    match a
    case Lookup(t) =>
      if t < |s.takers| && s.takers[t].Looking? { HoldersSet(s.takers, t, Next(s, a).takers[t]); }
    case Unlist(t) =>
      if t < |s.takers| && s.takers[t].Found? {
        HoldersSet(s.takers, t, Has(s.takers[t].entry));
        assert s.queue == [] || s.queue == [s.queue[0]];
      }
    case _ =>
  }

  lemma {:induction false} RunOwners(s: State, steps: seq<Step>)
    requires Inv(s)
    ensures Inv(Run(s, steps))
    ensures Owners(Run(s, steps)) == Owners(s) + StaleSteps(s, steps)
    decreases |steps|
  {
    if steps != [] {
      StepKeepsInv(s, steps[0]);
      StepOwners(s, steps[0]);
      RunOwners(Next(s, steps[0]), steps[1..]);
    }
  }

  lemma {:induction false} NoHolders(takers: seq<Taker>)
    requires forall t :: 0 <= t < |takers| ==> !takers[t].Has?
    ensures Holders(takers) == 0
  {
    if takers != [] {
      NoHolders(takers[1..]);
    }
  }

  /** Under every interleaving a paused job keeps one owner, plus one more for each write made on a lookup
      that had gone stale: so it has exactly one owner if and only if there was no such write. */
  lemma OwnersOfPausedJob(s0: State, steps: seq<Step>)
    requires Start(s0)
    ensures Owners(Run(s0, steps)) == 1 + StaleSteps(s0, steps)
    ensures Owners(Run(s0, steps)) == 1 <==> StaleSteps(s0, steps) == 0
  {
    NoHolders(s0.takers);
    RunOwners(s0, steps);
  }

  /* ----- schedules that lose exclusivity ----- */

  lemma RunFour(s: State, a: Step, b: Step, c: Step, d: Step)
    ensures Run(s, [a, b, c, d]) == Next(Next(Next(Next(s, a), b), c), d)
  {
    assert [a, b, c, d][1..] == [b, c, d] && [b, c, d][1..] == [c, d] && [c, d][1..] == [d] && [d][1..] == [];
    var s1 := Next(s, a);
    var s2 := Next(s1, b);
    assert Run(s1, [b, c, d]) == Run(s2, [c, d]);
    assert Run(s2, [c, d]) == Run(Next(s2, c), [d]);
    assert Run(Next(s2, c), [d]) == Run(Next(Next(s2, c), d), []);
  }

  // Every step of these schedules sees the paused job first in its queue, if at all.
  lemma JobIsFirst(job: QueueJob)
    ensures FirstWithId([job], job.id) == 0 && First([job], job) == 0 && LRem([job], job) == []
    ensures Holders([Has(job)]) == 1 && Holders([Has(job), Has(job)]) == 2
  {
    assert [Has(job)][1..] == [] && [Has(job), Has(job)][1..] == [Has(job)];
  }

  lemma NothingToRemove(xs: seq<QueueJob>, x: QueueJob)
    requires x !in xs
    ensures LRem(xs, x) == xs
  {
  }

  /** The host resumes between a taker's lookup and its LREM, which then removes nothing. */
  lemma ResumeInsideTake(s: State)
    requires Start(s) && |s.takers| == 1 && !s.job.status.Completed?
    ensures var t := Run(s, [Lookup(0), Look, Resume, Unlist(0)]);
      t.host.Running? && t.takers[0].Has? && t.queue != [] && Owners(t) == 2
  {
    hide Holders, LRem;
    JobIsFirst(s.job);
    RunFour(s, Lookup(0), Look, Resume, Unlist(0));
    var resumed := s.job.(action := Action.InProgress);
    var s2 := s.(takers := [Found(s.job)], host := Seen);
    assert Next(Next(s, Lookup(0)), Look) == s2;
    var s3 := s2.(queue := [resumed], host := Running);
    assert Next(s2, Resume) == s3;
    NothingToRemove([resumed], s.job);
    assert Next(s3, Unlist(0)) == s3.(takers := [Has(s.job)]);
  }

  /** A taker takes the job between the host's lookup and its update, which then updates nothing. */
  lemma TakeInsideResume(s: State)
    requires Start(s) && |s.takers| == 1
    ensures var t := Run(s, [Look, Lookup(0), Unlist(0), Resume]);
      t.host.Running? && t.takers[0].Has? && t.queue == [] && Owners(t) == 2
  {
    hide Holders, LRem;
    JobIsFirst(s.job);
    RunFour(s, Look, Lookup(0), Unlist(0), Resume);
    var s2 := s.(takers := [Found(s.job)], host := Seen);
    assert Next(Next(s, Look), Lookup(0)) == s2;
    assert Next(s2, Unlist(0)) == s2.(takers := [Has(s.job)], queue := []);
  }

  /** Two takers look the job up before either removes it. */
  lemma TwoTakers(s: State)
    requires Start(s) && |s.takers| == 2
    ensures var t := Run(s, [Lookup(0), Lookup(1), Unlist(0), Unlist(1)]);
      t.takers[0].Has? && t.takers[1].Has? && Owners(t) == 2
  {
    hide Holders, LRem;
    JobIsFirst(s.job);
    RunFour(s, Lookup(0), Lookup(1), Unlist(0), Unlist(1));
    var s1 := s.(takers := [Found(s.job), s.takers[1]]);
    assert Next(s, Lookup(0)) == s1;
    var s2 := s.(takers := [Found(s.job), Found(s.job)]);
    assert Next(s1, Lookup(1)) == s2;
    var s3 := s.(takers := [Has(s.job), Found(s.job)], queue := []);
    assert Next(s2, Unlist(0)) == s3;
    NothingToRemove([], s.job);
    assert Next(s3, Unlist(1)) == s.(takers := [Has(s.job), Has(s.job)], queue := []);
  }

  /* ----- with each lookup and its write in one piece ----- */

  datatype Block = TakeWhole(t: nat) | ResumeWhole | Wait | MarkOnly(status: Status)

  function Expand(b: Block): seq<Step> {
    match b
    case TakeWhole(t) => [Lookup(t), Unlist(t)]
    case ResumeWhole => [Look, Resume]
    case Wait => [Look, StillBusy]
    case MarkOnly(status) => [Mark(status)]
  }

  function ExpandAll(bs: seq<Block>): seq<Step> {
    if bs == [] then [] else Expand(bs[0]) + ExpandAll(bs[1..])
  }

  predicate Settled(s: State) {
    && !s.host.Seen?
    && forall t :: 0 <= t < |s.takers| ==> !s.takers[t].Found?
  }

  lemma {:induction false} RunConcat(s: State, a: seq<Step>, b: seq<Step>)
    ensures Run(s, a + b) == Run(Run(s, a), b)
    ensures StaleSteps(s, a + b) == StaleSteps(s, a) + StaleSteps(Run(s, a), b)
    decreases |a|
  {
    if a == [] {
      assert a + b == b;
    } else {
      assert (a + b)[1..] == a[1..] + b;
      RunConcat(Next(s, a[0]), a[1..], b);
    }
  }

  lemma RunTwo(s: State, a: Step, b: Step)
    ensures Run(s, [a, b]) == Next(Next(s, a), b)
    ensures StaleSteps(s, [a, b]) == (if Stale(s, a) then 1 else 0) + if Stale(Next(s, a), b) then 1 else 0
  {
    assert [a, b][1..] == [b] && [b][1..] == [];
    assert Run(Next(s, a), [b]) == Run(Next(Next(s, a), b), []);
    assert StaleSteps(Next(s, a), [b])
        == (if Stale(Next(s, a), b) then 1 else 0) + StaleSteps(Next(Next(s, a), b), []);
  }

  lemma BlockIsFresh(s: State, b: Block)
    requires Inv(s) && Settled(s)
    ensures StaleSteps(s, Expand(b)) == 0 && Settled(Run(s, Expand(b)))
  {
    match b
    case TakeWhole(t) =>
      RunTwo(s, Lookup(t), Unlist(t));
      if t < |s.takers| && s.takers[t].Looking? && s.queue != [] && s.queue[0].action.Paused? {
        assert Next(s, Lookup(t)).takers[t] == Found(s.queue[0]);
      }
    case ResumeWhole => RunTwo(s, Look, Resume);
    case Wait => RunTwo(s, Look, StillBusy);
    case MarkOnly(status) =>
      assert [Mark(status)][1..] == [];
      assert Run(s, [Mark(status)]) == Run(Next(s, Mark(status)), []);
  }

  lemma {:induction false} BlocksAreFresh(s: State, bs: seq<Block>)
    requires Inv(s) && Settled(s)
    ensures StaleSteps(s, ExpandAll(bs)) == 0 && Settled(Run(s, ExpandAll(bs))) && Inv(Run(s, ExpandAll(bs)))
    decreases |bs|
  {
    if bs != [] {
      BlockIsFresh(s, bs[0]);
      RunOwners(s, Expand(bs[0]));
      RunConcat(s, Expand(bs[0]), ExpandAll(bs[1..]));
      BlocksAreFresh(Run(s, Expand(bs[0])), bs[1..]);
    }
  }

  /** With takes and resumes in one piece, whatever their order and number: the pausing host has the job and
      no taker does, or exactly one taker has it, the queue is empty and the host does not run it. Once the
      host runs it no taker gets it any more, and a host that looks after a taker took it abandons it. */
  lemma WholeHandoffsKeepOneOwner(s0: State, bs: seq<Block>)
    requires Start(s0)
    ensures var s := Run(s0, ExpandAll(bs));
      && Owners(s) == 1
      && (if Holders(s.takers) == 0
          then s.queue != [] || s.host.Running?
          else Holders(s.takers) == 1 && s.queue == [] && !s.host.Running?)
      && (s.host.Running? ==> forall t: nat :: t < |s.takers| ==>
            Next(s, Lookup(t)).takers == if s.takers[t].Looking? then s.takers[t := Refused] else s.takers)
      && (Holders(s.takers) == 1 && s.host.Waiting? ==> Next(s, Look).host.Abandoned?)
  {
    BlocksAreFresh(s0, bs);
    OwnersOfPausedJob(s0, ExpandAll(bs));
  }
}
