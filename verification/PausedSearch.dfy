/** plugins/handlers/github/github.go, Run's search of the paused list for a job this host can take over. It pops the
    advertisements one after the other and keeps only the last one in a variable, to be put back. Each pop shortens
    the list, yet the index moves on, and the variable forgets the one before. */
module PausedSearch {
  import opened QueueJobs
  import opened JobQueue

  /** What becomes of an advertisement: it is skipped (paused on this host, or too big for it now), its job is no
      longer where it was paused, it has been resumed there, or it can be taken over. */
  datatype Look = Skipped | Orphaned | Running | Takeable

  /** What the handler finds out, given beforehand; `ended` says whether the paused job is completed or failed. */
  datatype Given = Given(look: QueueJob -> Look, ended: QueueJob -> bool)

  datatype Outcome = Outcome(paused: seq<QueueJob>, found: Option<QueueJob>, stopped: bool)

  function Copies(x: QueueJob, n: nat): seq<QueueJob> {
    if n == 0 then [] else [x] + Copies(x, n - 1)
  }

  function PutBack(xs: seq<QueueJob>, held: Option<QueueJob>, g: Given): seq<QueueJob> {
    if held.Some? && !g.ended(held.value) then [held.value] + xs else xs
  }

  // The search from index k on.
  function Search(xs: seq<QueueJob>, k: nat, held: Option<QueueJob>, g: Given): Outcome
    decreases |xs|
  {
    if xs == [] then Outcome(PutBack(xs, held, g), None, false)
    else if k >= |xs| then Outcome(xs, None, false)
    else
      var ad, rest := xs[k], LRem(xs, xs[k]);
      match g.look(ad)
      case Running => Outcome(Copies(ad, if g.ended(ad) then 0 else k + 1) + rest, None, true)
      case Takeable => Outcome(rest, Some(ad), false)
      case _ =>
        var rest := if g.look(ad).Orphaned? then LRem(rest, ad) else rest;
        if |xs| == 1 then Outcome(PutBack(rest, Some(ad), g), None, false) else Search(rest, k + 1, Some(ad), g)
  }

  // PopJobOffQueue on the paused list, undisturbed.
  method PopAd(db: Redis, index: nat) returns (ad: Option<QueueJob>)
    modifies db
    ensures var xs := Read(old(db.lists), PausedJobs);
      if index < |xs| then ad == Some(xs[index]) && Read(db.lists, PausedJobs) == LRem(xs, xs[index])
      else ad == None && Read(db.lists, PausedJobs) == xs
    ensures OthersAsBefore(old(db.lists), db.lists)
  {
    hide LRem, LRangeFrom;
    LRangeIs(Read(db.lists, PausedJobs), index);
    assert ExecuteAll(db.lists, []) == db.lists;
    var popped, _, _ := PopJobOffQueue(db, PausedJobs, index, [], NeverCanceled);
    ad := popped;
  }

  ghost predicate OthersAsBefore(before: Store, after: Store) {
    forall k :: k != PausedJobs ==> Read(after, k) == Read(before, k)
  }

  // An advertisement that is not taken, given up or put back is looked past.
  predicate Passes(g: Given, ad: QueueJob) {
    g.look(ad).Skipped? || g.look(ad).Orphaned?
  }

  function Without(g: Given, xs: seq<QueueJob>, k: nat): seq<QueueJob>
    requires k < |xs|
  {
    if g.look(xs[k]).Orphaned? then LRem(LRem(xs, xs[k]), xs[k]) else LRem(xs, xs[k])
  }

  lemma SearchUnrolls(xs: seq<QueueJob>, k: nat, held: Option<QueueJob>, g: Given)
    ensures k >= |xs| ==>
              Search(xs, k, held, g) == Outcome(if xs == [] then PutBack([], held, g) else xs, None, false)
    ensures k < |xs| ==>
              Search(xs, k, held, g) ==
              (if g.look(xs[k]).Running? then
                 Outcome(Copies(xs[k], if g.ended(xs[k]) then 0 else k + 1) + LRem(xs, xs[k]), None, true)
               else if g.look(xs[k]).Takeable? then Outcome(LRem(xs, xs[k]), Some(xs[k]), false)
               else if |xs| == 1 then Outcome(PutBack(Without(g, xs, k), Some(xs[k]), g), None, false)
               else Search(Without(g, xs, k), k + 1, Some(xs[k]), g))
    ensures PutBack(xs, None, g) == xs
    ensures k < |xs| ==> |Without(g, xs, k)| < |xs|
  {
    if k < |xs| {
      LRemShortens(xs, xs[k]);
      LRemShortens(LRem(xs, xs[k]), xs[k]);
      hide LRem, Copies, PutBack;
    }
  }

  /** The loop. Each turn defers a put-back of whatever the variable holds when Run returns. */
  method SearchPaused(db: Redis, g: Given) returns (found: Option<QueueJob>, stopped: bool)
    modifies db
    ensures Outcome(Read(db.lists, PausedJobs), found, stopped) == Search(Read(old(db.lists), PausedJobs), 0, None, g)
    ensures OthersAsBefore(old(db.lists), db.lists)
  {
    hide LRem, Search, Copies, PutBack, LRangeFrom;
    var index, deferred := 0, 0;
    var held: Option<QueueJob> := None;
    found, stopped := None, false;
    while true
      invariant deferred == index && found == None && !stopped
      invariant Search(Read(db.lists, PausedJobs), index, held, g)
             == Search(Read(old(db.lists), PausedJobs), 0, None, g)
      invariant OthersAsBefore(old(db.lists), db.lists)
      decreases |Read(db.lists, PausedJobs)|
    {
      SearchUnrolls(Read(db.lists, PausedJobs), index, held, g);
      var length := db.LLen(PausedJobs);
      if length == 0 {
        break;
      }
      held := PopAd(db, index);
      deferred := deferred + 1;
      if held.None? {
        break;
      }
      var ad := held.value;
      match g.look(ad) {
        case Running =>
          Deferred(db, g, ad, deferred);
          return None, true;
        case Takeable =>
          return held, false;
        case Orphaned =>
          var _ := db.LRemOne(PausedJobs, ad);
        case Skipped =>
      }
      index := index + 1;
      if length == 1 {
        break;
      }
    }
    PutBackLast(db, g, held);
  }

  // "don't hold on to paused jobs"
  method PutBackLast(db: Redis, g: Given, held: Option<QueueJob>)
    modifies db
    ensures Read(db.lists, PausedJobs) == PutBack(Read(old(db.lists), PausedJobs), held, g)
    ensures OthersAsBefore(old(db.lists), db.lists)
  {
    if held.Some? && !g.ended(held.value) {
      db.LPush(PausedJobs, held.value);
    }
  }

  lemma LRemShortens(xs: seq<QueueJob>, x: QueueJob)
    ensures |LRem(xs, x)| == if x in xs then |xs| - 1 else |xs|
  {
    LRemMultiset(xs, x);
  }

  // The deferred put-backs, once Run returns: all of the same advertisement.
  method Deferred(db: Redis, g: Given, ad: QueueJob, times: nat)
    modifies db
    ensures Read(db.lists, PausedJobs) == Copies(ad, if g.ended(ad) then 0 else times) + Read(old(db.lists), PausedJobs)
    ensures OthersAsBefore(old(db.lists), db.lists)
  {
    var i := 0;
    while i < times
      invariant 0 <= i <= times
      invariant Read(db.lists, PausedJobs) == Copies(ad, if g.ended(ad) then 0 else i) + Read(old(db.lists), PausedJobs)
      invariant OthersAsBefore(old(db.lists), db.lists)
    {
      if !g.ended(ad) {
        db.LPush(PausedJobs, ad);
      }
      i := i + 1;
    }
  }

  /* ----- what the search leaves ----- */

  predicate NoTwoEqual(xs: seq<QueueJob>) {
    forall i, j :: 0 <= i < j < |xs| ==> xs[i] != xs[j]
  }

  /** Where the search ends: at the first even position whose advertisement is not looked past. The ones at odd
      positions are never looked at. */
  function Chosen(ads: seq<QueueJob>, g: Given): (c: nat)
    ensures c <= |ads|
    ensures c < |ads| ==> c % 2 == 0 && !Passes(g, ads[c])
    ensures forall i :: 0 <= i < c && i % 2 == 0 ==> Passes(g, ads[i])
  {
    if ads == [] || !Passes(g, ads[0]) then 0 else if |ads| == 1 then 1 else 2 + Chosen(ads[2..], g)
  }

  // The advertisements at odd positions below n.
  function Overlooked(ads: seq<QueueJob>, n: nat): (r: seq<QueueJob>)
    requires n <= |ads|
    ensures |r| == n / 2
  {
    if n < 2 then [] else [ads[1]] + Overlooked(ads[2..], n - 2)
  }

  lemma {:induction false} OverlookedAt(ads: seq<QueueJob>, n: nat, i: nat)
    requires n <= |ads| && i < n / 2
    ensures Overlooked(ads, n)[i] == ads[2 * i + 1]
  {
    if i > 0 {
      OverlookedAt(ads[2..], n - 2, i - 1);
    }
  }

  lemma PassedOne(before: seq<QueueJob>, ads: seq<QueueJob>, g: Given)
    requires NoTwoEqual(before + ads) && ads != []
    ensures LRem(before + ads, ads[0]) == before + ads[1..]
    ensures Without(g, before + ads, |before|) == before + ads[1..]
    ensures NoTwoEqual(before + ads[1..])
  {
    var xs, rest := before + ads, before + ads[1..];
    forall i | 0 <= i < |rest| ensures rest[i] == xs[if i < |before| then i else i + 1] && rest[i] != ads[0] {
      assert xs[|before|] == ads[0];
    }
    assert xs == before + [ads[0]] + ads[1..];
    assert forall x :: x in before ==> x in rest;
    LRemSplits(before, ads[0], ads[1..]);
    LRemSplits(rest, ads[0], []);
  }

  // What the search makes of `ads`, the list being `before` and then these, and `before` overlooked.
  function Expected(before: seq<QueueJob>, ads: seq<QueueJob>, g: Given): Outcome {
    var c := Chosen(ads, g);
    if c < |ads| then
      var left := before + Overlooked(ads, c) + ads[c + 1..];
      if g.look(ads[c]).Takeable? then Outcome(left, Some(ads[c]), false)
      else Outcome(Copies(ads[c], if g.ended(ads[c]) then 0 else |before| + c / 2 + 1) + left, None, true)
    else if before == [] && |ads| == 1 then Outcome(if g.ended(ads[0]) then [] else ads, None, false)
    else Outcome(before + Overlooked(ads, |ads|), None, false)
  }

  lemma ExpectedAtOnce(before: seq<QueueJob>, ads: seq<QueueJob>, g: Given)
    ensures ads == [] ==> Expected(before, ads, g) == Outcome(before, None, false)
    ensures ads != [] && !Passes(g, ads[0]) ==>
              Expected(before, ads, g) ==
              (if g.look(ads[0]).Takeable? then Outcome(before + ads[1..], Some(ads[0]), false)
               else
                 var copies := Copies(ads[0], if g.ended(ads[0]) then 0 else |before| + 1);
                 Outcome(copies + (before + ads[1..]), None, true))
    ensures |ads| == 1 && Passes(g, ads[0]) ==>
              Expected(before, ads, g) ==
              Outcome(if before == [] then if g.ended(ads[0]) then [] else ads else before, None, false)
  {
    assert before + [] == before;
    if ads != [] {
      assert before + [] + ads[1..] == before + ads[1..];
    }
  }

  lemma ExpectedNext(before: seq<QueueJob>, ads: seq<QueueJob>, g: Given)
    requires |ads| > 1 && Passes(g, ads[0])
    ensures Expected(before, ads, g) == Expected(before + [ads[1]], ads[2..], g)
  {
    var c, rest := Chosen(ads, g), ads[2..];
    assert c == 2 + Chosen(rest, g);
    hide Chosen, Copies;
    OverlookedNext(before, ads, c);
    OverlookedNext(before, ads, |ads|);
    hide Overlooked;
    if c < |ads| {
      assert rest[c - 2] == ads[c] && rest[c - 1..] == ads[c + 1..];
    }
  }

  lemma OverlookedNext(before: seq<QueueJob>, ads: seq<QueueJob>, c: nat)
    requires 2 <= c <= |ads|
    ensures before + Overlooked(ads, c) == (before + [ads[1]]) + Overlooked(ads[2..], c - 2)
  {
    var rest := Overlooked(ads[2..], c - 2);
    assert before + ([ads[1]] + rest) == (before + [ads[1]]) + rest;
  }

  lemma {:induction false} SearchFrom(before: seq<QueueJob>, ads: seq<QueueJob>, held: Option<QueueJob>, g: Given)
    requires NoTwoEqual(before + ads) && before + ads != []
    ensures Search(before + ads, |before|, held, g) == Expected(before, ads, g)
    decreases |ads|
  {
    hide *;
    var xs := before + ads;
    SearchUnrolls(xs, |before|, held, g);
    if ads == [] || !Passes(g, ads[0]) || |ads| == 1 {
      SearchAtOnce(before, ads, held, g);
    } else {
      PassedOne(before, ads, g);
      PassingIs(g, ads[0]);
      assert xs[|before|] == ads[0];
      assert before + ads[1..] == (before + [ads[1]]) + ads[2..];
      SearchFrom(before + [ads[1]], ads[2..], Some(ads[0]), g);
      ExpectedNext(before, ads, g);
    }
  }

  lemma PassingIs(g: Given, ad: QueueJob)
    ensures Passes(g, ad) <==> !g.look(ad).Running? && !g.look(ad).Takeable?
  {
  }

  lemma SearchAtOnce(before: seq<QueueJob>, ads: seq<QueueJob>, held: Option<QueueJob>, g: Given)
    requires NoTwoEqual(before + ads) && before + ads != []
    requires ads == [] || !Passes(g, ads[0]) || |ads| == 1
    ensures Search(before + ads, |before|, held, g) == Expected(before, ads, g)
  {
    hide Search, Expected, LRem, Without, NoTwoEqual, Copies, Chosen, Overlooked;
    var xs := before + ads;
    SearchUnrolls(xs, |before|, held, g);
    ExpectedAtOnce(before, ads, g);
    if ads == [] {
      assert xs == before;
    } else {
      PassedOne(before, ads, g);
      assert xs[|before|] == ads[0];
      if |ads| == 1 {
        assert before + ads[1..] == before && (before == [] ==> xs == ads);
        SearchUnrolls(before, |before| + 1, Some(ads[0]), g);
      }
    }
  }

  /** The search of a paused list without equal entries: it looks at every other advertisement, takes over the first
      of these it can, and gives up at the first that has been resumed, which it puts back once for every turn of the
      loop. With more than one in the list, those it has passed on the way are in the list no more. */
  lemma SearchOutcome(ads: seq<QueueJob>, g: Given)
    requires NoTwoEqual(ads)
    ensures var c, o := Chosen(ads, g), Search(ads, 0, None, g);
      if c < |ads| then
        var left := Overlooked(ads, c) + ads[c + 1..];
        if g.look(ads[c]).Takeable? then o == Outcome(left, Some(ads[c]), false)
        else o == Outcome(Copies(ads[c], if g.ended(ads[c]) then 0 else c / 2 + 1) + left, None, true)
      else if |ads| == 1 then o == Outcome(if g.ended(ads[0]) then [] else ads, None, false)
      else o == Outcome(Overlooked(ads, |ads|), None, false)
  {
    hide *;
    ExpectedOfAll(ads, g);
    if ads == [] {
      SearchUnrolls([], 0, None, g);
    } else {
      assert [] + ads == ads;
      SearchFrom([], ads, None, g);
    }
  }

  lemma ExpectedOfAll(ads: seq<QueueJob>, g: Given)
    ensures var c, o := Chosen(ads, g), Expected([], ads, g);
      if c < |ads| then
        var left := Overlooked(ads, c) + ads[c + 1..];
        if g.look(ads[c]).Takeable? then o == Outcome(left, Some(ads[c]), false)
        else o == Outcome(Copies(ads[c], if g.ended(ads[c]) then 0 else c / 2 + 1) + left, None, true)
      else if |ads| == 1 then o == Outcome(if g.ended(ads[0]) then [] else ads, None, false)
      else o == Outcome(Overlooked(ads, |ads|), None, false)
    ensures Overlooked([], 0) == []
  {
    hide Chosen, Copies;
    NothingBefore(Overlooked(ads, Chosen(ads, g)));
    NothingBefore(Overlooked(ads, |ads|));
    hide Overlooked;
  }

  lemma NothingBefore(xs: seq<QueueJob>)
    ensures [] + xs == xs
  {
  }

  /** So an advertisement whose job has not ended is lost, not being taken over, if and only if there is another one
      and the search looks past it: it is at an even position before the one at which the search ends. */
  lemma AdvertisementIsLostIff(ads: seq<QueueJob>, g: Given, i: nat)
    requires NoTwoEqual(ads) && i < |ads| && !g.ended(ads[i])
    ensures var o := Search(ads, 0, None, g);
      ads[i] !in o.paused && o.found != Some(ads[i]) <==> |ads| > 1 && i % 2 == 0 && i < Chosen(ads, g)
  {
    hide *;
    var c := Chosen(ads, g);
    SearchOutcome(ads, g);
    InOverlookedIff(ads, c, i);
    if c < |ads| {
      InRestIff(ads, c, i);
      InCopies(ads[c], if g.ended(ads[c]) then 0 else c / 2 + 1, ads[i]);
    } else if |ads| == 1 {
      assert ads[i] in ads;
    }
  }

  lemma InOverlookedIff(ads: seq<QueueJob>, c: nat, i: nat)
    requires NoTwoEqual(ads) && i < |ads| && c <= |ads|
    ensures ads[i] in Overlooked(ads, c) <==> i < c && i % 2 == 1
  {
    hide Overlooked, NoTwoEqual;
    var passed := Overlooked(ads, c);
    if i < c && i % 2 == 1 {
      OverlookedAt(ads, c, i / 2);
      assert passed[i / 2] == ads[i];
    }
    if ads[i] in passed {
      var j :| 0 <= j < |passed| && passed[j] == ads[i];
      OverlookedAt(ads, c, j);
      OnlyThere(ads, i, 2 * j + 1);
    }
  }

  lemma OnlyThere(ads: seq<QueueJob>, i: nat, j: nat)
    requires NoTwoEqual(ads) && i < |ads| && j < |ads| && ads[i] == ads[j]
    ensures i == j
  {
  }

  lemma InRestIff(ads: seq<QueueJob>, c: nat, i: nat)
    requires NoTwoEqual(ads) && i < |ads| && c < |ads|
    ensures ads[i] in ads[c + 1..] <==> i > c
    ensures ads[i] == ads[c] <==> i == c
  {
    if i > c {
      assert ads[c + 1..][i - c - 1] == ads[i];
    }
  }

  lemma {:induction false} InCopies(x: QueueJob, n: nat, y: QueueJob)
    ensures |Copies(x, n)| == n && (y in Copies(x, n) <==> n > 0 && y == x)
  {
    if n > 0 {
      InCopies(x, n - 1, y);
    }
  }
}
