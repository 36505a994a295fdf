/** internal/github/ratelimit_budget.go: the receiver spends at most half of what is left of GitHub's hourly
    quota, and waits for the next window when the next unit of work would not fit. Times are instants. */
module RateBudget {

  datatype Option<T> = None | Some(value: T)

  // An answer to a rate limit request.
  datatype Reply = Failure | Rate(remaining: int, resetAt: Option<int>)

  // A window the receiver learned of: the quota GitHub reported, and the counted calls made since.
  datatype Window = Window(remaining: int, calls: nat)

  datatype Reserved = Granted | Canceled | RefreshFailed

  /** Half of what remains, and at least one call if any remain. */
  function RedeliveryBudgetFromRemaining(remaining: int): (share: nat)
    ensures remaining > 0 ==> 1 <= share <= remaining
    ensures remaining <= 0 ==> share == 0
    ensures remaining > 1 ==> 2 * share <= remaining < 2 * share + 2
  {
    if remaining <= 0 then 0 else if remaining / 2 < 1 then 1 else remaining / 2
  }

  // An answer that settles a reservation of n calls: a failure, or a window large enough.
  predicate Settles(reply: Reply, n: int) {
    reply.Failure? || RedeliveryBudgetFromRemaining(reply.remaining) >= n
  }

  function FirstSettling(replies: seq<Reply>, n: int): (d: nat)
    ensures d <= |replies|
    ensures forall i :: 0 <= i < d ==> !Settles(replies[i], n)
    ensures d < |replies| ==> Settles(replies[d], n)
  {
    if replies == [] || Settles(replies[0], n) then 0 else 1 + FirstSettling(replies[1..], n)
  }

  // So many more calls in the last window.
  function Called(windows: seq<Window>, n: nat): (r: seq<Window>)
    requires windows != []
    ensures |r| == |windows|
  {
    var i := |windows| - 1;
    windows[i := windows[i].(calls := windows[i].calls + n)]
  }

  /** GitHub as the receiver sees it: the answers to come to rate limit requests (none left: the request
      fails), and what was called in each window. */
  class GitHub {
    var replies: seq<Reply>
    var windows: seq<Window>

    constructor (replies: seq<Reply>)
      ensures this.replies == replies && windows == []
    {
      this.replies := replies;
      windows := [];
    }

    // So many answers were taken of those there were.
    ghost predicate AnsweredSince(all: seq<Reply>, used: nat)
      reads this
    {
      used <= |all| && replies == all[used..]
    }

    method RateLimit() returns (reply: Reply)
      modifies this
      ensures reply == if old(replies) == [] then Failure else old(replies)[0]
      ensures replies == if old(replies) == [] then [] else old(replies)[1..]
      ensures windows == if reply.Rate? then old(windows) + [Window(reply.remaining, 0)] else old(windows)
    {
      reply := Failure;
      if replies != [] {
        reply := replies[0];
        replies := replies[1..];
      }
      if reply.Rate? {
        windows := windows + [Window(reply.remaining, 0)];
      }
    }

    /** One REST call as the walk counts it; the wrapper it is made through may repeat it unrecorded. */
    method Call()
      requires windows != []
      modifies `windows
      ensures windows == Called(old(windows), 1)
    {
      var i := |windows| - 1;
      windows := windows[i := windows[i].(calls := windows[i].calls + 1)];
    }
  }

  method Now() returns (now: int) {
    now := *;
  }

  method Done() returns (done: bool) {
    done := *;
  }

  class RedeliveryBudget {
    var budget: nat
    var spent: nat
    var resetAt: Option<int>

    constructor ()
      ensures budget == 0 && spent == 0 && resetAt == None
    {
      budget, spent, resetAt := 0, 0, None;
    }

    method StartWindow(remaining: int, resetAt: Option<int>)
      modifies this
      ensures budget == RedeliveryBudgetFromRemaining(remaining) && spent == 0 && this.resetAt == resetAt
    {
      this.budget := RedeliveryBudgetFromRemaining(remaining);
      this.spent := 0;
      this.resetAt := resetAt;
    }

    predicate CanSpend(n: int)
      reads this
    {
      n <= 0 || spent + n <= budget
    }

    method Record(n: int)
      modifies `spent
      ensures spent == old(spent) + if n > 0 then n else 0
    {
      if n <= 0 {
        return;
      }
      spent := spent + n;
    }

    method ApplyRate(reset: Option<int>)
      modifies `resetAt
      ensures resetAt == if reset.Some? then reset else old(resetAt)
    {
      if reset.Some? {
        resetAt := reset;
      }
    }

    method RefreshFromAPI(client: GitHub) returns (reply: Reply)
      modifies this, client
      ensures reply == if old(client.replies) == [] then Failure else old(client.replies)[0]
      ensures client.replies == if old(client.replies) == [] then [] else old(client.replies)[1..]
      ensures reply.Failure? ==>
                && client.windows == old(client.windows)
                && budget == old(budget) && spent == old(spent) && resetAt == old(resetAt)
      ensures reply.Rate? ==>
                && client.windows == old(client.windows) + [Window(reply.remaining, 0)]
                && budget == RedeliveryBudgetFromRemaining(reply.remaining) && spent == 0 && resetAt == reply.resetAt
    {
      reply := client.RateLimit();
      if reply.Rate? {
        StartWindow(reply.remaining, reply.resetAt);
      }
    }

    /** Calls made in the current window are within what was recorded, and that within the budget; calls made
        in any window are within its share. */
    predicate Accounted(client: GitHub)
      reads this, client
    {
      && spent <= budget
      && AllWithinShare(client.windows)
      && (budget > 0 ==> client.windows != [])
      && (client.windows != [] ==>
            var last := client.windows[|client.windows| - 1];
            budget == RedeliveryBudgetFromRemaining(last.remaining) && last.calls <= spent)
    }

    /** Waits until there is room for n calls, taking a new window at each refresh. It is granted only with that
        room. Without the room it takes answers up to the first that settles the reservation and none beyond:
        it is granted exactly by a window large enough, after which it does not wait again, and fails exactly
        by a failed refresh, unless canceled before. */
    method Reserve(client: GitHub, n: int) returns (r: Reserved, ghost used: nat)
      requires Accounted(client)
      modifies this, client
      ensures Accounted(client)
      ensures r == Granted ==> CanSpend(n)
      ensures client.AnsweredSince(old(client.replies), used)
      ensures used == 0 ==>
                && budget == old(budget) && spent == old(spent) && resetAt == old(resetAt)
                && client.windows == old(client.windows)
      ensures old(CanSpend(n)) ==> used == 0 && r != RefreshFailed
      ensures !old(CanSpend(n)) ==> AsAnswered(old(client.replies), n, r, used)
    {
      hide FirstSettling, Accounted, AsAnswered, AllWithinShare;
      used := 0;
      if n <= 0 {
        return Granted, 0;
      }
      ghost var all := client.replies;
      ghost var room := CanSpend(n);
      assert !room ==> Waiting(all, n, used);
      assert client.AnsweredSince(all, used);
      hide Waiting, GitHub.AnsweredSince;
      var renewed := true;
      if budget == 0 && spent == 0 && resetAt == None {
        renewed, used := Renew(client, n, all, used);
        if !renewed {
          return RefreshFailed, used;
        }
      }
      while true
        invariant Accounted(client)
        invariant used <= |all| && client.AnsweredSince(all, used)
        invariant used == 0 ==>
                    && budget == old(budget) && spent == old(spent) && resetAt == old(resetAt)
                    && client.windows == old(client.windows)
        invariant if room then used == 0 && CanSpend(n) else Waiting(all, n, used)
        decreases |all| - used
      {
        var done := Done();
        if done {
          WaitingIsCanceled(all, n, used);
          return Canceled, used;
        }
        if budget == 0 {
          var now := Now();
          if resetAt == None || now >= resetAt.value {
            renewed, used := Renew(client, n, all, used);
            if !renewed {
              return RefreshFailed, used;
            }
            if budget > 0 && CanSpend(n) {
              WaitingIsGranted(all, n, used);
              return Granted, used;
            }
          }
          r, used := AwaitReset(client, n, all, used);
          if r != Granted {
            return;
          }
          continue;
        }
        if CanSpend(n) {
          WaitingIsGranted(all, n, used);
          return Granted, used;
        }
        var now := Now();
        if resetAt == None || now >= resetAt.value {
          renewed, used := Renew(client, n, all, used);
          if !renewed {
            return RefreshFailed, used;
          }
          if CanSpend(n) {
            WaitingIsGranted(all, n, used);
            return Granted, used;
          }
        }
        r, used := AwaitReset(client, n, all, used);
        if r != Granted {
          return;
        }
      }
    }

    // Without room, the reservation has seen no settling answer; with room, it has seen the first, a window.
    ghost predicate Waiting(all: seq<Reply>, n: int, used: nat)
      reads this
    {
      var d := FirstSettling(all, n);
      if CanSpend(n) then used == d + 1 && d < |all| && all[d].Rate? else used <= d
    }

    lemma WaitingIsGranted(all: seq<Reply>, n: int, used: nat)
      requires CanSpend(n)
      ensures Waiting(all, n, used) ==> AsAnswered(all, n, Granted, used)
    {
    }

    lemma WaitingIsCanceled(all: seq<Reply>, n: int, used: nat)
      ensures Waiting(all, n, used) ==> AsAnswered(all, n, Canceled, used)
    {
    }

    // RefreshFromAPI as Reserve uses it, while there is no room.
    method Renew(client: GitHub, n: int, ghost all: seq<Reply>, ghost used: nat) returns (ok: bool, ghost now: nat)
      requires n >= 1 && Accounted(client) && !CanSpend(n)
      requires client.AnsweredSince(all, used) && Waiting(all, n, used)
      modifies this, client
      ensures Accounted(client)
      ensures ok ==> now == used + 1 && Waiting(all, n, now)
      ensures !ok ==> AsAnswered(all, n, RefreshFailed, now)
      ensures used <= now <= |all| && client.AnsweredSince(all, now)
      ensures !ok ==>
                && budget == old(budget) && spent == old(spent) && resetAt == old(resetAt)
                && client.windows == old(client.windows)
    {
      hide RedeliveryBudgetFromRemaining;
      assert used < |all| ==> all[used..][0] == all[used] && all[used..][1..] == all[used + 1..];
      ghost var before := client.windows;
      var reply := RefreshFromAPI(client);
      ok := reply.Rate?;
      now := if used < |all| then used + 1 else used;
      FirstSettlingIs(all, n, used);
      assert ok ==> client.windows[..|before|] == before;
    }

    // The wait for the reset, cut short by a cancellation, and the refresh after it.
    method AwaitReset(client: GitHub, n: int, ghost all: seq<Reply>, ghost used: nat)
      returns (r: Reserved, ghost now: nat)
      requires n >= 1 && Accounted(client) && !CanSpend(n)
      requires client.AnsweredSince(all, used) && Waiting(all, n, used)
      modifies this, client
      ensures Accounted(client)
      ensures used <= now <= |all| && client.AnsweredSince(all, now)
      ensures if r == Granted then now == used + 1 && Waiting(all, n, now) else AsAnswered(all, n, r, now)
      ensures r != Granted ==>
                && budget == old(budget) && spent == old(spent) && resetAt == old(resetAt)
                && client.windows == old(client.windows)
    {
      assert used <= |all|;
      hide *;
      var done := Done();
      if done {
        WaitingIsCanceled(all, n, used);
        return Canceled, used;
      }
      var renewed;
      renewed, now := Renew(client, n, all, used);
      r := if renewed then Granted else RefreshFailed;
    }
  }

  lemma FirstSettlingIs(replies: seq<Reply>, n: int, used: nat)
    requires used <= FirstSettling(replies, n)
    ensures used < |replies| ==> (Settles(replies[used], n) <==> used == FirstSettling(replies, n))
  {
  }

  // How a reservation without room ended, after so many of the answers.
  ghost predicate AsAnswered(replies: seq<Reply>, n: int, r: Reserved, used: nat) {
    var d := FirstSettling(replies, n);
    match r
    case Granted => used == d + 1 && d < |replies| && replies[d].Rate?
    case RefreshFailed => if d == |replies| then used == d else used == d + 1 && replies[d].Failure?
    case Canceled => used <= d || (used == d + 1 && d < |replies| && replies[d].Rate?)
  }

  lemma ShareCoversIff(remaining: int, n: int)
    requires n >= 1
    ensures RedeliveryBudgetFromRemaining(remaining) >= n <==> remaining >= if n == 1 then 1 else 2 * n
  {
  }

  /** A reservation is never settled, however many windows open, exactly when every window opens with fewer than
      twice the calls needed (one, when one is needed): a queued delivery, three calls, needs a quota of six. */
  lemma {:induction false} NeverSettledIff(replies: seq<Reply>, n: int)
    requires n >= 1
    ensures FirstSettling(replies, n) == |replies| <==>
            forall i :: 0 <= i < |replies| ==> replies[i].Rate? && replies[i].remaining < if n == 1 then 1 else 2 * n
  {
    if replies != [] {
      NeverSettledIff(replies[1..], n);
      if replies[0].Rate? {
        ShareCoversIff(replies[0].remaining, n);
      }
      assert forall i :: 0 <= i < |replies[1..]| ==> replies[1..][i] == replies[i + 1];
      assert forall i :: 0 < i < |replies| ==> replies[i] == replies[1..][i - 1];
    }
  }

  predicate AllWithinShare(windows: seq<Window>) {
    forall i :: 0 <= i < |windows| ==> windows[i].calls <= RedeliveryBudgetFromRemaining(windows[i].remaining)
  }
}
