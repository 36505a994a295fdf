/** plugins/receivers/github/redeliver.go: the walk over failed webhook deliveries that asks GitHub to deliver
    again those whose jobs look orphaned. What GitHub answers is given beforehand; cancellations and the
    reported resets may come at any time. */
module RedeliveryWalk {
  import opened RateBudget

  /** One entry of GitHub's delivery list, newest first. A nil entry counts as one without an action. */
  datatype HookDelivery = HookDelivery(
    id: int, action: Option<string>, statusCode: Option<int>, redelivery: Option<bool>, deliveredAt: Option<int>)

  datatype Page = ListError | Page(deliveries: seq<HookDelivery>, more: bool)

  datatype Detail = GetError | NoPayload | BadPayload | NoJobID | Payload(jobID: int, ankaLabel: bool)

  // NotAsked: the request for the job's status failed before a call was made.
  datatype JobStatus = NotAsked | AskError | JobStatus(status: string, conclusion: string)

  /** What the walk is given: the pages to list, the details of each delivery and the status of each job at
      GitHub, and the jobs in the queued and in the completed lists when they were loaded. */
  datatype Given = Given(
    pages: seq<Page>, limit: int, detail: int -> Detail, status: int -> JobStatus,
    queued: set<int>, completed: set<int>)

  datatype Verdict = Skip | Purge | Redeliver

  datatype Outcome = Finished | ReserveEnded | ListFailed | NilDereference

  /** What the walk does: the deliveries it asks for again and the jobs it removes from the completed list. */
  datatype Effects = Effects(requested: seq<HookDelivery>, purged: seq<int>)

  /* ----- deciding on one delivery ----- */

  function HookAction(d: HookDelivery): string {
    if d.action.Some? then d.action.value else ""
  }

  function RedeliveryCallEstimate(action: string): (n: nat)
    ensures 2 <= n <= 3 && (n == 3 <==> action == "queued")
  {
    if action == "queued" then 3 else 2
  }

  predicate ShouldSkipQueuedRedelivery(status: string, conclusion: string) {
    conclusion == "cancelled" || conclusion == "canceled" || status == "completed" || status == "in_progress"
  }

  predicate Progressed(g: Given, d: HookDelivery, jobID: int) {
    && HookAction(d) == "queued" && g.status(jobID).JobStatus?
    && ShouldSkipQueuedRedelivery(g.status(jobID).status, g.status(jobID).conclusion)
  }

  predicate InCompleted(g: Given, d: HookDelivery, jobID: int) {
    HookAction(d) == "completed" && jobID in g.completed
  }

  function VerdictOn(g: Given, d: HookDelivery): (v: Verdict)
    ensures v == Purge ==> g.detail(d.id).Payload?
  {
    match g.detail(d.id)
    case Payload(jobID, ankaLabel) =>
      if !ankaLabel || Progressed(g, d, jobID) then Skip
      else if InCompleted(g, d, jobID) then if jobID in g.queued then Skip else Purge
      else if d.statusCode == Some(200) then Skip
      else Redeliver
    case _ => Skip
  }

  /** One round of the walk, after a reservation for it: makes at most the calls reserved, and records them. They are
      one for the details, one for the status of a queued Anklet job, and one for asking again. */
  method WalkDelivery(b: RedeliveryBudget, client: GitHub, g: Given, d: HookDelivery) returns (v: Verdict)
    requires b.Accounted(client) && b.CanSpend(RedeliveryCallEstimate(HookAction(d)))
    modifies b, client`windows
    ensures b.Accounted(client)
    ensures v == VerdictOn(g, d)
    ensures var asks := match g.detail(d.id)
        case Payload(jobID, ankaLabel) => ankaLabel && d.action == Some("queued") && g.status(jobID) != NotAsked
        case _ => false;
      && old(client.windows) != []
      && client.windows
         == Called(old(client.windows), 1 + (if asks then 1 else 0) + (if v == Redeliver then 1 else 0))
    ensures b.spent <= old(b.spent) + RedeliveryCallEstimate(HookAction(d)) && b.budget == old(b.budget)
  {
    hide RedeliveryBudget.Accounted, Called;
    ghost var before := client.windows;
    SpendCall(b, client, true);
    CalledAgain(before);
    if !g.detail(d.id).Payload? {
      return Skip;
    }
    var jobID := g.detail(d.id).jobID;
    if !g.detail(d.id).ankaLabel {
      return Skip;
    }
    if HookAction(d) == "queued" {
      SpendCall(b, client, !g.status(jobID).NotAsked?);
      if g.status(jobID).JobStatus? && ShouldSkipQueuedRedelivery(g.status(jobID).status, g.status(jobID).conclusion) {
        return Skip;
      }
    }
    var inQueued := jobID in g.queued;
    var inCompleted := HookAction(d) == "completed" && jobID in g.completed;
    if inQueued && inCompleted {
      return Skip;
    }
    if inCompleted && !inQueued {
      return Purge;
    }
    if d.statusCode == Some(200) || inCompleted {
      return Skip;
    }
    SpendCall(b, client, true);
    return Redeliver;
  }

  lemma CalledAgain(windows: seq<Window>)
    requires windows != []
    ensures Called(Called(windows, 1), 1) == Called(windows, 2)
    ensures Called(Called(windows, 2), 1) == Called(windows, 3)
  {
  }

  // Makes a call (or fails before making it), records it, and applies the reset its response may carry.
  method SpendCall(b: RedeliveryBudget, client: GitHub, made: bool)
    requires b.Accounted(client) && b.CanSpend(1)
    modifies b, client`windows
    ensures b.Accounted(client)
    ensures b.spent == old(b.spent) + 1 && b.budget == old(b.budget)
    ensures old(client.windows) != []
            && client.windows == if made then Called(old(client.windows), 1) else old(client.windows)
  {
    if made {
      client.Call();
    }
    b.Record(1);
    var reset: Option<int> := *;
    b.ApplyRate(reset);
  }

  /* ----- listing ----- */

  // A delivery older than the limit, at which listing stops.
  predicate TooOld(d: HookDelivery, limit: int) {
    d.action.Some? && d.deliveredAt.Some? && d.deliveredAt.value < limit
  }

  function UntilTooOld(ds: seq<HookDelivery>, limit: int): (kept: seq<HookDelivery>) {
    if ds == [] || TooOld(ds[0], limit) then []
    else (if ds[0].action.Some? then [ds[0]] else []) + UntilTooOld(ds[1..], limit)
  }

  predicate ReachesLimit(ds: seq<HookDelivery>, limit: int) {
    ds != [] && (TooOld(ds[0], limit) || ReachesLimit(ds[1..], limit))
  }

  // All that listing collects, or nothing if a page cannot be listed.
  function Listed(pages: seq<Page>, limit: int): Option<seq<HookDelivery>> {
    if pages == [] then Some([])
    else if pages[0].ListError? then None
    else
      var kept := UntilTooOld(pages[0].deliveries, limit);
      if ReachesLimit(pages[0].deliveries, limit) || !pages[0].more then Some(kept)
      else match Listed(pages[1..], limit)
        case None => None
        case Some(rest) => Some(kept + rest)
  }

  lemma PageStep(ds: seq<HookDelivery>, i: nat, limit: int)
    requires i <= |ds|
    ensures UntilTooOld(ds[i..], limit) ==
            if i == |ds| || TooOld(ds[i], limit) then []
            else (if ds[i].action.Some? then [ds[i]] else []) + UntilTooOld(ds[i + 1..], limit)
    ensures ReachesLimit(ds[i..], limit) == (i < |ds| && (TooOld(ds[i], limit) || ReachesLimit(ds[i + 1..], limit)))
  {
    if i < |ds| {
      assert ds[i..][0] == ds[i] && ds[i..][1..] == ds[i + 1..];
    }
  }

  method CollectPage(ds: seq<HookDelivery>, limit: int) returns (kept: seq<HookDelivery>, reached: bool)
    ensures kept == UntilTooOld(ds, limit)
    ensures reached == ReachesLimit(ds, limit)
  {
    hide UntilTooOld, ReachesLimit;
    kept, reached := [], false;
    var i := 0;
    assert ds[0..] == ds;
    PageStep(ds, |ds|, limit);
    while i < |ds|
      invariant 0 <= i <= |ds| && !reached
      invariant kept + UntilTooOld(ds[i..], limit) == UntilTooOld(ds, limit)
      invariant ReachesLimit(ds, limit) == ReachesLimit(ds[i..], limit)
    {
      var d := ds[i];
      PageStep(ds, i, limit);
      if d.action.None? {
        i := i + 1;
        continue;
      }
      if d.deliveredAt.Some? && limit > d.deliveredAt.value {
        reached := true;
        break;
      }
      kept := kept + [d];
      i := i + 1;
    }
  }

  method ListDeliveries(b: RedeliveryBudget, client: GitHub, g: Given)
    returns (outcome: Outcome, all: seq<HookDelivery>)
    requires b.Accounted(client)
    modifies b, client
    ensures b.Accounted(client)
    ensures outcome == Finished ==> Listed(g.pages, g.limit) == Some(all)
    ensures outcome == ListFailed ==> Listed(g.pages, g.limit) == None
    ensures outcome != NilDereference
  {
    all := [];
    var i := 0;
    assert g.pages[0..] == g.pages;
    assert Listed(g.pages, g.limit).Some? ==> [] + Listed(g.pages, g.limit).value == Listed(g.pages, g.limit).value;
    hide Listed, Prepended, UntilTooOld, ReachesLimit, TooOld, RedeliveryBudget.Accounted;
    while true
      invariant 0 <= i <= |g.pages| && b.Accounted(client)
      invariant Listed(g.pages, g.limit) == Prepended(all, Listed(g.pages[i..], g.limit))
      decreases |g.pages| - i
    {
      var r, _ := b.Reserve(client, 1);
      if r != Granted {
        return ReserveEnded, all;
      }
      SpendCall(b, client, true);
      ListStep(g.pages, i, g.limit, all);
      if i == |g.pages| {
        return Finished, all;
      }
      var page := g.pages[i];
      if page.ListError? {
        return ListFailed, all;
      }
      var kept, reached := CollectPage(page.deliveries, g.limit);
      all := all + kept;
      if !page.more || reached {
        return Finished, all;
      }
      i := i + 1;
    }
  }

  function Prepended(all: seq<HookDelivery>, rest: Option<seq<HookDelivery>>): Option<seq<HookDelivery>> {
    match rest
    case None => None
    case Some(more) => Some(all + more)
  }

  lemma ListStep(pages: seq<Page>, i: nat, limit: int, all: seq<HookDelivery>)
    requires i <= |pages|
    ensures Prepended(all, Listed(pages[i..], limit)) ==
            if i == |pages| then Some(all)
            else if pages[i].ListError? then None
            else
              var kept := all + UntilTooOld(pages[i].deliveries, limit);
              if ReachesLimit(pages[i].deliveries, limit) || !pages[i].more then Some(kept)
              else Prepended(kept, Listed(pages[i + 1..], limit))
  {
    hide UntilTooOld, ReachesLimit;
    assert all + [] == all;
    if i < |pages| {
      assert pages[i..][0] == pages[i] && pages[i..][1..] == pages[i + 1..];
      if pages[i].Page? && Listed(pages[i + 1..], limit).Some? {
        var kept, rest := UntilTooOld(pages[i].deliveries, limit), Listed(pages[i + 1..], limit).value;
        assert all + (kept + rest) == (all + kept) + rest;
      }
    }
  }

  predicate Recent(d: HookDelivery, limit: int) {
    d.action.Some? && !TooOld(d, limit)
  }

  function AllRecent(ds: seq<HookDelivery>, limit: int): seq<HookDelivery> {
    if ds == [] then [] else (if Recent(ds[0], limit) then [ds[0]] else []) + AllRecent(ds[1..], limit)
  }

  // Everything on the pages GitHub has, up to the one that says there are no more.
  function Everything(pages: seq<Page>): seq<HookDelivery> {
    if pages == [] || pages[0].ListError? then []
    else pages[0].deliveries + if pages[0].more then Everything(pages[1..]) else []
  }

  // After a delivery too old there is no recent one.
  predicate NewestFirst(ds: seq<HookDelivery>, limit: int) {
    ds == [] || ((TooOld(ds[0], limit) ==> AllRecent(ds[1..], limit) == []) && NewestFirst(ds[1..], limit))
  }

  lemma {:induction false} NewestFirstAfter(ds: seq<HookDelivery>, rest: seq<HookDelivery>, limit: int)
    requires NewestFirst(ds + rest, limit)
    ensures NewestFirst(rest, limit)
  {
    if ds == [] {
      assert ds + rest == rest;
    } else {
      assert (ds + rest)[1..] == ds[1..] + rest;
      NewestFirstAfter(ds[1..], rest, limit);
    }
  }

  function Collected(ds: seq<HookDelivery>, rest: seq<HookDelivery>, limit: int): seq<HookDelivery> {
    UntilTooOld(ds, limit) + if ReachesLimit(ds, limit) then [] else AllRecent(rest, limit)
  }

  lemma CollectedStep(ds: seq<HookDelivery>, rest: seq<HookDelivery>, limit: int)
    requires ds != []
    ensures Collected(ds, rest, limit) ==
            if TooOld(ds[0], limit) then []
            else (if ds[0].action.Some? then [ds[0]] else []) + Collected(ds[1..], rest, limit)
  {
    hide AllRecent;
  }

  lemma {:induction false} StoppingLosesNothing(ds: seq<HookDelivery>, rest: seq<HookDelivery>, limit: int)
    requires NewestFirst(ds + rest, limit)
    ensures AllRecent(ds + rest, limit) == Collected(ds, rest, limit)
  {
    if ds == [] {
      assert ds + rest == rest;
    } else {
      var all := ds + rest;
      assert all[0] == ds[0] && all[1..] == ds[1..] + rest;
      CollectedStep(ds, rest, limit);
      StoppingLosesNothing(ds[1..], rest, limit);
      hide Collected;
    }
  }

  /** Stopping early is safe: when GitHub lists newest first and every page can be read, what is collected is all
      of the recent deliveries on all of the pages. */
  lemma {:induction false} ListedIsAllRecent(pages: seq<Page>, limit: int)
    requires forall i :: 0 <= i < |pages| ==> pages[i].Page?
    requires NewestFirst(Everything(pages), limit)
    ensures Listed(pages, limit) == Some(AllRecent(Everything(pages), limit))
  {
    if pages != [] {
      var ds, rest := pages[0].deliveries, if pages[0].more then Everything(pages[1..]) else [];
      assert Everything(pages) == ds + rest;
      NewestFirstAfter(ds, rest, limit);
      StoppingLosesNothing(ds, rest, limit);
      if pages[0].more {
        ListedIsAllRecent(pages[1..], limit);
      }
      assert UntilTooOld(ds, limit) + [] == UntilTooOld(ds, limit);
    }
  }

  /** So a delivery is collected exactly when it is listed, has an action and was not delivered before the limit. */
  lemma ListedIff(pages: seq<Page>, limit: int, d: HookDelivery)
    requires forall i :: 0 <= i < |pages| ==> pages[i].Page?
    requires NewestFirst(Everything(pages), limit)
    ensures Listed(pages, limit).Some?
    ensures d in Listed(pages, limit).value <==>
            && d in Everything(pages) && d.action.Some?
            && (d.deliveredAt.Some? ==> limit <= d.deliveredAt.value)
  {
    ListedIsAllRecent(pages, limit);
    AllRecentIff(Everything(pages), limit, d);
  }

  lemma {:induction false} AllRecentIff(ds: seq<HookDelivery>, limit: int, d: HookDelivery)
    ensures d in AllRecent(ds, limit) <==> d in ds && Recent(d, limit)
  {
    if ds != [] {
      AllRecentIff(ds[1..], limit, d);
      assert ds == [ds[0]] + ds[1..];
    }
  }

  // A failed first attempt whose action matters: in_progress deliveries are never asked for again.
  predicate FailedOriginal(d: HookDelivery) {
    && d.action.Some? && d.statusCode.Some? && d.statusCode.value != 200
    && d.redelivery != Some(true) && d.action.value != "in_progress"
  }

  function FailedOriginals(ds: seq<HookDelivery>): seq<HookDelivery> {
    if ds == [] then []
    else FailedOriginals(ds[..|ds| - 1]) + if FailedOriginal(ds[|ds| - 1]) then [ds[|ds| - 1]] else []
  }

  method FilterFailedOriginalDeliveries(ds: seq<HookDelivery>) returns (out: seq<HookDelivery>)
    ensures out == FailedOriginals(ds)
  {
    out := [];
    var i := 0;
    while i < |ds|
      invariant 0 <= i <= |ds|
      invariant out == FailedOriginals(ds[..i])
    {
      var d := ds[i];
      assert ds[..i + 1][..i] == ds[..i];
      i := i + 1;
      if d.action.None? {
        continue;
      }
      if d.statusCode.None? || d.statusCode.value == 200 {
        continue;
      }
      if d.redelivery.Some? && d.redelivery.value {
        continue;
      }
      if d.action.value == "in_progress" {
        continue;
      }
      out := out + [d];
    }
    assert ds[..i] == ds;
  }

  /* ----- the walk ----- */

  // What the walk does with the last k candidates, oldest (the last) first.
  function EffectsOf(g: Given, candidates: seq<HookDelivery>, k: nat): Effects
    requires k <= |candidates|
  {
    if k == 0 then Effects([], [])
    else
      var before, d := EffectsOf(g, candidates, k - 1), candidates[|candidates| - k];
      match VerdictOn(g, d)
      case Skip => before
      case Purge => before.(purged := before.purged + [g.detail(d.id).jobID])
      case Redeliver => before.(requested := before.requested + [d])
  }

  method RedeliverOldestFirst(b: RedeliveryBudget, client: GitHub, g: Given, toRedeliver: seq<HookDelivery>)
    returns (outcome: Outcome, effects: Effects, ghost treated: nat)
    requires b.Accounted(client)
    modifies b, client
    ensures b.Accounted(client)
    ensures treated <= |toRedeliver| && effects == EffectsOf(g, toRedeliver, treated)
    ensures outcome == Finished ==> treated == |toRedeliver|
    ensures outcome != ListFailed
    ensures outcome == NilDereference <==> LastFlagIsNil(effects)
  {
    hide RedeliveryBudget.Accounted, VerdictOn;
    effects, treated := Effects([], []), 0;
    var i := |toRedeliver|;
    while i > 0
      invariant 0 <= i <= |toRedeliver| && b.Accounted(client)
      invariant treated == |toRedeliver| - i && effects == EffectsOf(g, toRedeliver, treated)
      invariant !LastFlagIsNil(effects)
    {
      var d := toRedeliver[i - 1];
      var r, _ := b.Reserve(client, RedeliveryCallEstimate(HookAction(d)));
      if r != Granted {
        return ReserveEnded, effects, treated;
      }
      var v := WalkDelivery(b, client, g, d);
      i, treated := i - 1, treated + 1;
      match v {
        case Skip =>
        case Purge => effects := effects.(purged := effects.purged + [g.detail(d.id).jobID]);
        case Redeliver =>
          effects := effects.(requested := effects.requested + [d]);
          if d.redelivery.None? {
            return NilDereference, effects, treated;
          }
      }
    }
    return Finished, effects, treated;
  }

  // The delivery last asked for carries no redelivery flag.
  predicate LastFlagIsNil(effects: Effects) {
    effects.requested != [] && effects.requested[|effects.requested| - 1].redelivery == None
  }

  function Candidates(g: Given): seq<HookDelivery> {
    match Listed(g.pages, g.limit)
    case None => []
    case Some(all) => FailedOriginals(all)
  }

  /** The whole walk. In every window it learns of, it makes no more calls than that window's share. It finishes
      having treated every candidate, oldest first, unless the list cannot be read, a reservation ends, or it
      logs the missing redelivery flag of a delivery it has just asked for (a nil dereference in the code). */
  method RunRedeliveryWalk(client: GitHub, g: Given)
    returns (outcome: Outcome, effects: Effects, ghost treated: nat)
    requires client.windows == []
    modifies client
    ensures AllWithinShare(client.windows)
    ensures treated <= |Candidates(g)| && effects == EffectsOf(g, Candidates(g), treated)
    ensures outcome == Finished ==> treated == |Candidates(g)| && Listed(g.pages, g.limit).Some?
    ensures outcome == ListFailed ==> Listed(g.pages, g.limit) == None
    ensures outcome == NilDereference <==> LastFlagIsNil(effects)
  {
    effects, treated := Effects([], []), 0;
    hide Listed, FailedOriginals;
    var b := new RedeliveryBudget();
    var _ := b.RefreshFromAPI(client);
    var all;
    outcome, all := ListDeliveries(b, client, g);
    if outcome != Finished {
      return;
    }
    var toRedeliver := FilterFailedOriginalDeliveries(all);
    outcome, effects, treated := RedeliverOldestFirst(b, client, g, toRedeliver);
  }

  /* ----- what is asked for again ----- */

  lemma {:induction false} FailedOriginalsIff(ds: seq<HookDelivery>, d: HookDelivery)
    ensures d in FailedOriginals(ds) <==> d in ds && FailedOriginal(d)
  {
    if ds != [] {
      FailedOriginalsIff(ds[..|ds| - 1], d);
      assert ds == ds[..|ds| - 1] + [ds[|ds| - 1]];
    }
  }

  lemma {:induction false} RequestedAmongTreatedIff(g: Given, candidates: seq<HookDelivery>, k: nat, d: HookDelivery)
    requires k <= |candidates|
    ensures d in EffectsOf(g, candidates, k).requested <==>
            d in candidates[|candidates| - k..] && VerdictOn(g, d) == Redeliver
  {
    hide VerdictOn;
    if k > 0 {
      RequestedAmongTreatedIff(g, candidates, k - 1, d);
      assert candidates[|candidates| - k..] == [candidates[|candidates| - k]] + candidates[|candidates| - k + 1..];
    }
  }

  lemma {:induction false} PurgedAmongTreatedIff(g: Given, candidates: seq<HookDelivery>, k: nat, jobID: int)
    requires k <= |candidates|
    ensures jobID in EffectsOf(g, candidates, k).purged <==>
            exists d :: d in candidates[|candidates| - k..] && VerdictOn(g, d) == Purge && g.detail(d.id).jobID == jobID
  {
    hide VerdictOn;
    if k > 0 {
      PurgedAmongTreatedIff(g, candidates, k - 1, jobID);
      var d := candidates[|candidates| - k];
      assert candidates[|candidates| - k..] == [d] + candidates[|candidates| - k + 1..];
      assert d in candidates[|candidates| - k..];
    }
  }

  // A delivery that failed on the first attempt and is not an in_progress one, as listed.
  predicate ListedFailure(g: Given, d: HookDelivery) {
    && Listed(g.pages, g.limit).Some? && d in Listed(g.pages, g.limit).value
    && d.action.Some? && d.action.value != "in_progress"
    && d.statusCode.Some? && d.statusCode.value != 200 && d.redelivery != Some(true)
  }

  lemma CandidateIff(g: Given, d: HookDelivery)
    ensures d in Candidates(g) <==> ListedFailure(g, d)
  {
    hide Listed;
    if Listed(g.pages, g.limit).Some? {
      FailedOriginalsIff(Listed(g.pages, g.limit).value, d);
    }
  }

  /** A finished walk has asked again for exactly the listed failures of Anklet jobs, but for queued ones whose job
      GitHub says is cancelled, completed or in progress, and completed ones whose job is in the completed lists.
      Whether the job is still queued plays no part. */
  lemma RequestedIff(g: Given, d: HookDelivery)
    requires Listed(g.pages, g.limit).Some?
    ensures d in EffectsOf(g, Candidates(g), |Candidates(g)|).requested <==>
            && ListedFailure(g, d) && g.detail(d.id).Payload? && g.detail(d.id).ankaLabel
            && var jobID := g.detail(d.id).jobID;
            && !(d.action == Some("completed") && jobID in g.completed)
            && !(d.action == Some("queued") &&
                 match g.status(jobID)
                 case JobStatus(status, conclusion) =>
                   conclusion in ["cancelled", "canceled"] || status in ["completed", "in_progress"]
                 case _ => false)
  {
    CandidateIff(g, d);
    RequestedAmongTreatedIff(g, Candidates(g), |Candidates(g)|, d);
    hide Listed, FailedOriginals, EffectsOf;
  }

  /** And it has removed from the completed lists exactly the jobs in them, and not queued, of which some listed
      failure is a completed one with the Anka label. A handler still needs the event of a queued job: it stays. */
  lemma PurgedIff(g: Given, jobID: int)
    requires Listed(g.pages, g.limit).Some?
    ensures jobID in EffectsOf(g, Candidates(g), |Candidates(g)|).purged <==>
            && jobID in g.completed && jobID !in g.queued
            && exists d ::
                 ListedFailure(g, d) && d.action == Some("completed") && g.detail(d.id) == Payload(jobID, true)
  {
    PurgedAmongTreatedIff(g, Candidates(g), |Candidates(g)|, jobID);
    forall d ensures d in Candidates(g) <==> ListedFailure(g, d) {
      CandidateIff(g, d);
    }
    assert Candidates(g)[0..] == Candidates(g);
    hide Listed, FailedOriginals, EffectsOf, Candidates, ListedFailure;
    forall d ensures VerdictOn(g, d) == Purge && g.detail(d.id).jobID == jobID <==>
      && d.action == Some("completed") && g.detail(d.id) == Payload(jobID, true)
      && jobID in g.completed && jobID !in g.queued
    {
    }
  }

  /** Older candidates come first: what is done for the older ones does not depend on newer ones before them in the
      list, and their effects precede the others'. */
  lemma {:induction false} OldestFirst(g: Given, newer: seq<HookDelivery>, older: seq<HookDelivery>)
    ensures var (all, first, then_) := (EffectsOf(g, newer + older, |newer + older|),
                                        EffectsOf(g, older, |older|), EffectsOf(g, newer, |newer|));
      all.requested == first.requested + then_.requested && all.purged == first.purged + then_.purged
  {
    hide VerdictOn;
    if newer == [] {
      assert newer + older == older;
    } else {
      assert (newer + older)[1..] == newer[1..] + older;
      OldestFirst(g, newer[1..], older);
      NewestIsLast(g, newer + older);
      NewestIsLast(g, newer);
    }
  }

  lemma NewestIsLast(g: Given, candidates: seq<HookDelivery>)
    requires candidates != []
    ensures EffectsOf(g, candidates, |candidates|) ==
            var before, d := EffectsOf(g, candidates[1..], |candidates| - 1), candidates[0];
            match VerdictOn(g, d)
            case Skip => before
            case Purge => before.(purged := before.purged + [g.detail(d.id).jobID])
            case Redeliver => before.(requested := before.requested + [d])
  {
    hide VerdictOn;
    SameForOlder(g, candidates, |candidates| - 1);
  }

  lemma {:induction false} SameForOlder(g: Given, candidates: seq<HookDelivery>, k: nat)
    requires candidates != [] && k < |candidates|
    ensures EffectsOf(g, candidates, k) == EffectsOf(g, candidates[1..], k)
  {
    hide VerdictOn;
    if k > 0 {
      SameForOlder(g, candidates, k - 1);
    }
  }

  /** The filter keeps the order of the list. */
  lemma {:induction false} FilterKeepsOrder(a: seq<HookDelivery>, b: seq<HookDelivery>)
    ensures FailedOriginals(a + b) == FailedOriginals(a) + FailedOriginals(b)
  {
    if b == [] {
      assert a + b == a;
    } else {
      assert (a + b)[..|a + b| - 1] == a + b[..|b| - 1];
      FilterKeepsOrder(a, b[..|b| - 1]);
    }
  }

  /* ----- how many deliveries fit a window ----- */

  // The worst-case calls of the deliveries with these actions.
  function Cost(actions: seq<string>): nat {
    if actions == [] then 0 else RedeliveryCallEstimate(actions[0]) + Cost(actions[1..])
  }

  function Oldest(actions: seq<string>, k: nat): seq<string>
    requires k <= |actions|
  {
    actions[|actions| - k..]
  }

  // The oldest `count` fit the calls left, and one more would not.
  predicate Fits(actions: seq<string>, callsLeft: int, count: nat) {
    && count <= |actions|
    && (count > 0 ==> Cost(Oldest(actions, count)) <= callsLeft)
    && (count < |actions| ==> Cost(Oldest(actions, count + 1)) > callsLeft)
  }

  method CountCandidatesFittingBudget(actionsNewestFirst: seq<string>, budgetLeft: int) returns (count: nat)
    ensures Fits(actionsNewestFirst, budgetLeft, count)
  {
    count := 0;
    var remaining := budgetLeft;
    var i := |actionsNewestFirst| - 1;
    while i >= 0
      invariant -1 <= i < |actionsNewestFirst| && count == |actionsNewestFirst| - 1 - i
      invariant remaining == budgetLeft - Cost(Oldest(actionsNewestFirst, count))
      invariant count > 0 ==> remaining >= 0
    {
      OneOlder(actionsNewestFirst, count);
      var est := RedeliveryCallEstimate(actionsNewestFirst[i]);
      if est > remaining {
        break;
      }
      remaining := remaining - est;
      count := count + 1;
      i := i - 1;
    }
  }

  lemma OneOlder(actions: seq<string>, k: nat)
    requires k < |actions|
    ensures Cost(Oldest(actions, k + 1)) ==
            RedeliveryCallEstimate(actions[|actions| - 1 - k]) + Cost(Oldest(actions, k))
  {
    assert Oldest(actions, k + 1)[1..] == Oldest(actions, k);
  }

  lemma {:induction false} CostGrows(actions: seq<string>, j: nat, k: nat)
    requires j <= k <= |actions|
    ensures Cost(Oldest(actions, j)) <= Cost(Oldest(actions, k))
    decreases k - j
  {
    if j < k {
      OneOlder(actions, k - 1);
      CostGrows(actions, j, k - 1);
    }
  }

  /** The count is the largest: no longer oldest-first run fits. */
  lemma FitIsLargest(actions: seq<string>, callsLeft: int, count: nat, k: nat)
    requires Fits(actions, callsLeft, count)
    requires 0 < k <= |actions| && Cost(Oldest(actions, k)) <= callsLeft
    ensures k <= count
  {
    if k > count {
      CostGrows(actions, count + 1, k);
    }
  }

  // How many reservations, oldest first and each recorded in full, find room without waiting.
  function RoundsWithoutWaiting(actions: seq<string>, budget: nat, spent: nat): nat {
    if actions == [] then 0
    else
      var n := RedeliveryCallEstimate(actions[|actions| - 1]);
      if spent + n <= budget then 1 + RoundsWithoutWaiting(actions[..|actions| - 1], budget, spent + n) else 0
  }

  lemma {:induction false} CostOfLast(actions: seq<string>)
    requires actions != []
    ensures Cost(actions) ==
            Cost(actions[..|actions| - 1]) + RedeliveryCallEstimate(actions[|actions| - 1])
  {
    if |actions| > 1 {
      CostOfLast(actions[1..]);
      assert actions[1..][..|actions| - 2] == actions[..|actions| - 1][1..];
    }
  }

  lemma OldestWithOneMore(actions: seq<string>, k: nat)
    requires k < |actions|
    ensures Cost(Oldest(actions, k + 1)) ==
            Cost(Oldest(actions[..|actions| - 1], k)) + RedeliveryCallEstimate(actions[|actions| - 1])
  {
    CostOfLast(Oldest(actions, k + 1));
    assert Oldest(actions, k + 1)[..k] == Oldest(actions[..|actions| - 1], k);
  }

  lemma {:induction false} RoundsFit(actions: seq<string>, budget: nat, spent: nat)
    ensures Fits(actions, budget - spent, RoundsWithoutWaiting(actions, budget, spent))
  {
    hide Cost, Oldest;
    if actions != [] {
      var newer, n := actions[..|actions| - 1], RedeliveryCallEstimate(actions[|actions| - 1]);
      CostOfNone(newer);
      if spent + n <= budget {
        var rest := RoundsWithoutWaiting(newer, budget, spent + n);
        RoundsFit(newer, budget, spent + n);
        OldestWithOneMore(actions, rest);
        if rest < |newer| {
          OldestWithOneMore(actions, rest + 1);
        }
      } else {
        OldestWithOneMore(actions, 0);
      }
    }
  }

  lemma CostOfNone(actions: seq<string>)
    ensures Cost(Oldest(actions, 0)) == 0
  {
  }

  /** The count is also the number of deliveries a window can serve, each at full cost, before it waits. */
  lemma CountIsRoundsWithoutWaiting(actions: seq<string>, budget: nat, spent: nat, count: nat)
    requires Fits(actions, budget - spent, count)
    ensures count == RoundsWithoutWaiting(actions, budget, spent)
  {
    var rounds := RoundsWithoutWaiting(actions, budget, spent);
    RoundsFit(actions, budget, spent);
    if rounds < count {
      FitIsLargest(actions, budget - spent, rounds, count);
    } else if count < rounds {
      FitIsLargest(actions, budget - spent, count, rounds);
    }
  }
}
