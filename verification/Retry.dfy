/** internal/database/database.go, retryOperation: repeated attempts at a Redis command, and attempts around
    attempts. The server's replies are given as a function of the number of the call; cancellations and the
    time left before a deadline may be anything at any time. Durations are in nanoseconds. */
module Retry {

  datatype Reply = Succeeded | Failed(retriable: bool)

  // Errors wrap the text of the last one, so they are retriable when it was; those of a canceled context are not.
  datatype Result = Success | Failure(retriable: bool) | Canceled

  /** What is attempted: a command, or itself a retried operation. */
  datatype Operation = Command | Retried(op: Operation)

  datatype Database = Database(maxRetries: nat, retryDelay: int, backoffFactor: real)

  const SECOND := 1_000_000_000

  class Server {
    const reply: nat -> Reply
    var calls: nat
    var slept: nat

    constructor (reply: nat -> Reply)
      ensures this.reply == reply && calls == 0 && slept == 0
    {
      this.reply := reply;
      calls, slept := 0, 0;
    }

    method Execute() returns (r: Result)
      modifies `calls
      ensures calls == old(calls) + 1
      ensures r == Outcome(reply(old(calls)))
    {
      r := Outcome(reply(calls));
      calls := calls + 1;
    }

    method Sleep(delay: nat)
      modifies `slept
      ensures slept == old(slept) + delay
    {
      slept := slept + delay;
    }
  }

  function Outcome(reply: Reply): Result {
    match reply
    case Succeeded => Success
    case Failed(retriable) => Failure(retriable)
  }

  /** The retries allowed, given the time left before the deadline if there is one. */
  function EffectiveRetries(maxRetries: nat, hasDeadline: bool, remaining: int): nat {
    if !hasDeadline then maxRetries
    else if remaining < 10 * SECOND then 0
    else if remaining < 30 * SECOND then 1
    else maxRetries
  }

  /** What a deadline does to the retries: less than ten seconds leave none, less than thirty one, more change
      nothing. */
  lemma RetriesByDeadline(maxRetries: nat, hasDeadline: bool, remaining: int)
    ensures var retries := EffectiveRetries(maxRetries, hasDeadline, remaining);
      && (hasDeadline && remaining < 10_000_000_000 ==> retries == 0)
      && (hasDeadline && 10_000_000_000 <= remaining < 30_000_000_000 ==> retries == 1)
      && (!hasDeadline || 30_000_000_000 <= remaining ==> retries == maxRetries)
  {
  }

  /** A deadline is there to fail faster, yet it adds a retry exactly when none was configured and between ten
      and thirty seconds are left. */
  lemma DeadlineAddsRetriesIff(maxRetries: nat, remaining: int)
    ensures EffectiveRetries(maxRetries, true, remaining) > EffectiveRetries(maxRetries, false, remaining) <==>
            maxRetries == 0 && 10 * SECOND <= remaining < 30 * SECOND
  {
  }

  // The wait before an attempt: the product in floating point, truncated; a negative one does not wait.
  function Delay(db: Database, attempt: nat): (d: nat)
    ensures var product := db.retryDelay as real * attempt as real * db.backoffFactor;
      if product > 0.0 then d as real <= product < d as real + 1.0 else d == 0
  {
    var product := db.retryDelay as real * attempt as real * db.backoffFactor;
    if product <= 0.0 then 0 else product.Floor
  }

  lemma DelayIsLinear(db: Database, attempt: nat)
    ensures var linear := Unit(db) * attempt as real;
      Delay(db, attempt) as real <= linear && (linear < Delay(db, attempt) as real + 1.0)
  {
    assert db.retryDelay as real * attempt as real * db.backoffFactor
        == (db.retryDelay as real * db.backoffFactor) * attempt as real;
  }

  function Positive(x: real): real {
    if x > 0.0 then x else 0.0
  }

  // The attempts of one level at most: a deadline may add one to none.
  function Attempts(db: Database, hasDeadline: bool): (n: nat)
    ensures n >= 1
  {
    if hasDeadline && db.maxRetries == 0 then 2 else db.maxRetries + 1
  }

  function Depth(op: Operation): nat {
    match op
    case Command => 0
    case Retried(inner) => 1 + Depth(inner)
  }

  function Pow(b: nat, e: nat): (p: nat)
    ensures b >= 1 ==> p >= 1
  {
    if e == 0 then 1 else b * Pow(b, e - 1)
  }

  /* ----- the reference: one loop of attempts ----- */

  /** A plain retry of the command: how it ends, and the number of the next call. */
  function FlatRetry(reply: nat -> Reply, from: nat, limit: nat): (Result, nat)
    requires limit >= 1
    decreases limit
  {
    if reply(from) == Failed(true) && limit > 1 then FlatRetry(reply, from + 1, limit - 1)
    else (Outcome(reply(from)), from + 1)
  }

  // All calls but the last failed retriably, and the last is what is reported. An operation that reports a
  // retriable failure has, if it may, made all calls it was allowed.
  ghost predicate Ended(reply: nat -> Reply, from: nat, to: nat, limit: nat, r: Result, exhaustive: bool) {
    && from <= to <= from + limit
    && AllRetriable(reply, from, to - 1)
    && (r != Canceled ==> from < to && match reply(to - 1)
                                       case Succeeded => r == Success
                                       case Failed(retriable) => r == Failure(retriable))
    && (r == Failure(true) && exhaustive ==> to == from + limit)
  }

  ghost predicate AllRetriable(reply: nat -> Reply, from: nat, to: int) {
    forall i: nat :: from <= i < to ==> reply(i) == Failed(true)
  }

  lemma {:induction false} EndedIsFlat(reply: nat -> Reply, from: nat, to: nat, limit: nat, r: Result)
    requires limit >= 1 && Ended(reply, from, to, limit, r, true)
    ensures if r == Canceled then to <= FlatRetry(reply, from, limit).1 else FlatRetry(reply, from, limit) == (r, to)
    decreases limit
  {
    if reply(from) == Failed(true) && limit > 1 && to > from + 1 {
      EndedIsFlat(reply, from + 1, to, limit - 1, r);
    } else if to <= from + 1 {
      FlatIsAfter(reply, from, limit);
    }
  }

  lemma {:induction false} FlatIsAfter(reply: nat -> Reply, from: nat, limit: nat)
    requires limit >= 1
    ensures from < FlatRetry(reply, from, limit).1 <= from + limit
    decreases limit
  {
    if reply(from) == Failed(true) && limit > 1 {
      FlatIsAfter(reply, from + 1, limit - 1);
    }
  }

  /* ----- the waits ----- */

  function DelaySum(db: Database, retries: nat): nat {
    if retries == 0 then 0 else DelaySum(db, retries - 1) + Delay(db, retries)
  }

  // The waits of all levels together.
  function SleepBound(db: Database, attempts: nat, depth: nat): nat
    requires attempts >= 1
  {
    if depth == 0 then 0 else attempts * SleepBound(db, attempts, depth - 1) + DelaySum(db, attempts - 1)
  }

  /** The waits of all levels, in closed form: those of one level for each of the nested loops begun. */
  lemma {:induction false} SleepBoundIs(db: Database, attempts: nat, depth: nat)
    requires attempts >= 1
    ensures (attempts - 1) * SleepBound(db, attempts, depth) == DelaySum(db, attempts - 1) * (Pow(attempts, depth) - 1)
  {
    if depth > 0 {
      SleepBoundIs(db, attempts, depth - 1);
      var (inner, calls) := (SleepBound(db, attempts, depth - 1), Pow(attempts, depth - 1));
      SumOfLevels(attempts, inner, DelaySum(db, attempts - 1), calls);
    }
  }

  lemma SumOfLevels(attempts: int, inner: int, waits: int, calls: int)
    requires (attempts - 1) * inner == waits * (calls - 1)
    ensures (attempts - 1) * (attempts * inner + waits) == waits * (attempts * calls - 1)
  {
    calc {
      (attempts - 1) * (attempts * inner + waits);
      attempts * ((attempts - 1) * inner) + (attempts - 1) * waits;
      attempts * (waits * (calls - 1)) + (attempts - 1) * waits;
      waits * (attempts * calls - 1);
    }
  }

  function Triangle(n: nat): nat {
    if n == 0 then 0 else Triangle(n - 1) + n
  }

  lemma {:induction false} TriangleIs(n: nat)
    ensures Triangle(n) == n * (n + 1) / 2
  {
    if n > 0 {
      TriangleIs(n - 1);
    }
  }

  function Times(unit: real, n: nat): real {
    unit * n as real
  }

  function Unit(db: Database): real {
    Positive(db.retryDelay as real * db.backoffFactor)
  }

  lemma TimesAdds(unit: real, a: nat, b: nat)
    ensures Times(unit, a) + Times(unit, b) == Times(unit, a + b)
  {
  }

  lemma DelayIsAbout(db: Database, attempt: nat)
    ensures Delay(db, attempt) as real <= Times(Unit(db), attempt) <= Delay(db, attempt) as real + 1.0
    ensures Times(Unit(db), 0) == 0.0
  {
    DelayIsLinear(db, attempt);
  }

  lemma {:induction false} DelaysWithinTriangle(db: Database, retries: nat)
    ensures DelaySum(db, retries) as real <= Times(Unit(db), Triangle(retries))
            <= DelaySum(db, retries) as real + retries as real
  {
    hide Delay, Unit, Times;
    DelayIsAbout(db, retries);
    if retries > 0 {
      DelaysWithinTriangle(db, retries - 1);
      TimesAdds(Unit(db), Triangle(retries - 1), retries);
    }
  }

  /** One level with all its m retries waits delay * factor * m (m + 1) / 2, up to the truncation of each wait. */
  lemma DelaysGrow(db: Database, retries: nat)
    ensures var unit := db.retryDelay as real * db.backoffFactor;
      var whole := (if unit > 0.0 then unit else 0.0) * (retries * (retries + 1) / 2) as real;
      DelaySum(db, retries) as real <= whole <= DelaySum(db, retries) as real + retries as real
  {
    DelaysWithinTriangle(db, retries);
    TriangleIs(retries);
    hide Delay, DelaySum, Triangle;
  }

  /* ----- the loop ----- */

  method ContextDone() returns (done: bool) {
    done := *;
  }

  method TimeRemaining() returns (remaining: int) {
    remaining := *;
  }

  // What all levels may have slept after so many attempts of the outermost.
  function SleptAfter(db: Database, most: nat, depth: nat, attempts: nat): nat
    requires most >= 1
  {
    attempts * SleepBound(db, most, depth) + DelaySum(db, if attempts > 0 then attempts - 1 else 0)
  }

  lemma SleptStep(db: Database, most: nat, depth: nat, attempts: nat)
    requires most >= 1
    ensures SleptAfter(db, most, depth, attempts + 1) ==
            SleptAfter(db, most, depth, attempts) + SleepBound(db, most, depth)
            + if attempts > 0 then Delay(db, attempts) else 0
  {
    hide SleepBound;
  }

  lemma {:induction false} SleptAtMost(db: Database, most: nat, depth: nat, attempts: nat)
    requires 1 <= most && attempts <= most
    ensures SleptAfter(db, most, depth, attempts) <= SleepBound(db, most, depth + 1)
    decreases most - attempts
  {
    if attempts < most {
      SleptStep(db, most, depth, attempts);
      SleptAtMost(db, most, depth, attempts + 1);
    }
  }

  // The calls of so many attempts in full.
  function Made(attempts: nat, limit: nat): nat {
    attempts * limit
  }

  lemma CallsStep(limit: nat, attempts: nat, most: nat)
    requires attempts < most
    ensures Made(attempts, limit) + limit == Made(attempts + 1, limit) <= Made(most, limit)
  {
    var rest: nat := most - attempts - 1;
    assert most * limit == (attempts + 1) * limit + rest * limit;
  }

  lemma RetriesWithinAttempts(db: Database, hasDeadline: bool, remaining: int)
    ensures EffectiveRetries(db.maxRetries, hasDeadline, remaining) < Attempts(db, hasDeadline)
    ensures !hasDeadline ==> EffectiveRetries(db.maxRetries, false, remaining) + 1 == Attempts(db, false)
  {
  }

  // Around a command, only the waits of this level count.
  lemma CommandSleeps(db: Database, most: nat, op: Operation)
    requires most >= 1
    ensures op.Command? ==> Pow(most, Depth(op)) == 1 && SleepBound(db, most, Depth(op)) == 0
    ensures op.Command? ==> forall attempts: nat | attempts >= 1 ::
              SleptAfter(db, most, Depth(op), attempts) == DelaySum(db, attempts - 1)
  {
  }

  lemma NoneMade(db: Database, most: nat, depth: nat, reply: nat -> Reply, from: nat)
    requires most >= 1
    ensures Made(0, Pow(most, depth)) == 0 && SleptAfter(db, most, depth, 0) == 0 && AllRetriable(reply, from, from)
    ensures Made(most, Pow(most, depth)) == Pow(most, depth + 1)
  {
    hide SleepBound;
  }

  // An attempt that ended, after others that failed retriably.
  lemma EndedAfter(reply: nat -> Reply, from: nat, mid: nat, to: nat, made: nat, limit: nat, total: nat, r: Result,
                   exhaustive: bool)
    requires from <= mid <= from + made && (exhaustive ==> mid == from + made) && made + limit <= total
    requires AllRetriable(reply, from, mid) && Ended(reply, mid, to, limit, r, exhaustive)
    ensures r != Failure(true) ==> Ended(reply, from, to, total, r, exhaustive)
    ensures Ended(reply, from, to, total, Canceled, exhaustive)
    ensures r == Failure(true) ==>
              AllRetriable(reply, from, to) && (exhaustive ==> to == from + made + limit)
  {
  }

  // The wait before another attempt. Success means: go on.
  method AwaitRetry(db: Database, hasDeadline: bool, server: Server, attempt: nat) returns (r: Result)
    modifies server`slept
    ensures old(server.slept) <= server.slept <= old(server.slept) + Delay(db, attempt)
    ensures r == Success || r == Canceled || (r == Failure(true) && hasDeadline)
    ensures r != Canceled ==> server.slept == old(server.slept) + if r == Success then Delay(db, attempt) else 0
  {
    hide Delay;
    var delay := Delay(db, attempt);
    if hasDeadline {
      var remaining := TimeRemaining();
      if delay > remaining {
        return Failure(true);
      }
    }
    var interrupted := ContextDone();
    if interrupted {
      var part: nat :| part <= delay;
      server.Sleep(part);
      return Canceled;
    }
    server.Sleep(delay);
    var done := ContextDone();
    r := if done then Canceled else Success;
  }

  /** An operation retried at any depth ends as one loop of (retries + 1) ^ depth attempts at the command would,
      unless it is canceled or runs out of time, and never makes more calls than that. */
  method Perform(db: Database, hasDeadline: bool, server: Server, op: Operation) returns (r: Result)
    modifies server
    ensures Ended(server.reply, old(server.calls), server.calls,
                  Pow(Attempts(db, hasDeadline), Depth(op)), r, !hasDeadline)
    ensures old(server.slept) <= server.slept
            <= old(server.slept) + SleepBound(db, Attempts(db, hasDeadline), Depth(op))
    decreases op, 0
  {
    match op {
      case Command => r := server.Execute();
      case Retried(inner) => r := RetryOperation(db, hasDeadline, server, inner);
    }
  }

  method RetryOperation(db: Database, hasDeadline: bool, server: Server, op: Operation) returns (r: Result)
    modifies server
    ensures Ended(server.reply, old(server.calls), server.calls,
                  Pow(Attempts(db, hasDeadline), Depth(op) + 1), r, !hasDeadline)
    ensures old(server.slept) <= server.slept
            <= old(server.slept) + SleepBound(db, Attempts(db, hasDeadline), Depth(op) + 1)
    ensures op.Command? && r != Canceled ==>
              server.slept == old(server.slept) + DelaySum(db, server.calls - old(server.calls) - 1)
    decreases op, 1
  {
    hide *;
    var remaining := TimeRemaining();
    var maxRetries := EffectiveRetries(db.maxRetries, hasDeadline, remaining);
    ghost var most, depth := Attempts(db, hasDeadline), Depth(op);
    ghost var limit, total := Pow(most, depth), Pow(most, depth + 1);
    ghost var from, awake := server.calls, server.slept;
    RetriesWithinAttempts(db, hasDeadline, remaining);
    NoneMade(db, most, depth, server.reply, from);
    CommandSleeps(db, most, op);
    var attempt := 0;
    while attempt <= maxRetries
      invariant 0 <= attempt <= maxRetries + 1
      invariant from <= server.calls <= from + Made(attempt, limit) <= from + total
      invariant !hasDeadline ==> server.calls == from + Made(attempt, limit)
      invariant AllRetriable(server.reply, from, server.calls)
      invariant attempt > 0 ==> from < server.calls
      invariant awake <= server.slept <= awake + SleptAfter(db, most, depth, attempt)
      invariant op.Command? ==> server.calls == from + attempt
      invariant op.Command? ==> server.slept == awake + SleptAfter(db, most, depth, attempt)
    {
      ghost var mid := server.calls;
      CallsStep(limit, attempt, most);
      SleptStep(db, most, depth, attempt);
      SleptAtMost(db, most, depth, attempt + 1);
      NothingMore(server.reply, from, mid, total, !hasDeadline);
      var done := ContextDone();
      if done {
        return Canceled;
      }
      if attempt > 0 {
        r := AwaitRetry(db, hasDeadline, server, attempt);
        if r != Success {
          return;
        }
      }
      r := Perform(db, hasDeadline, server, op);
      EndedAfter(server.reply, from, mid, server.calls, Made(attempt, limit), limit, total, r, !hasDeadline);
      done := ContextDone();
      if done {
        return Canceled;
      }
      if r != Failure(true) {
        return;
      }
      attempt := attempt + 1;
    }
    r := Failure(true);
    SleptAtMost(db, most, depth, attempt);
    NothingMore(server.reply, from, server.calls, total, !hasDeadline);
  }

  // Ending without another call.
  lemma NothingMore(reply: nat -> Reply, from: nat, to: nat, total: nat, exhaustive: bool)
    ensures from <= to <= from + total && AllRetriable(reply, from, to) ==>
              Ended(reply, from, to, total, Canceled, exhaustive)
    ensures from < to <= from + total && AllRetriable(reply, from, to) && (exhaustive ==> to == from + total) ==>
               Ended(reply, from, to, total, Failure(true), exhaustive)
  {
  }
  lemma TwoLevels(most: nat)
    ensures Pow(most, 2) == most * most
    ensures Depth(Retried(Command)) == 1
  {
    assert Pow(most, 1) == most * Pow(most, 0);
    assert Pow(most, 2) == most * Pow(most, 1);
  }

  /** The existence check retries a command that is itself retried: without a deadline it ends as one loop of
      (retries + 1) squared attempts would, unless canceled, and never makes more calls than that. */
  method CheckIfKeyExists(db: Database, hasDeadline: bool, server: Server) returns (r: Result)
    modifies server
    ensures old(server.calls) <= server.calls
            <= old(server.calls) + (if hasDeadline && db.maxRetries == 0 then 4
                                    else (db.maxRetries + 1) * (db.maxRetries + 1))
    ensures !hasDeadline && r != Canceled ==>
              (r, server.calls) == FlatRetry(server.reply, old(server.calls), (db.maxRetries + 1) * (db.maxRetries + 1))
  {
    hide FlatRetry, Pow, SleepBound;
    var done := ContextDone();
    if done {
      return Canceled;
    }
    r := RetryOperation(db, hasDeadline, server, Retried(Command));
    TwoLevels(Attempts(db, hasDeadline));
    if !hasDeadline {
      hide *;
      EndedIsFlat(server.reply, old(server.calls), server.calls, Pow(Attempts(db, false), 2), r);
    }
  }
}
