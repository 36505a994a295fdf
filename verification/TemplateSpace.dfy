/** internal/anka/lru_cleanup.go, EnsureSpaceForTemplate: makes room for a template by deleting the least
    recently used ones, over a host whose disk, deletions and size checks are described by a World. */
module TemplateSpace {
  import opened TemplateTracking

  // Sizes are 64-bit numbers.
  type Bytes = n: nat | n < U64

  /** What the host answers. `size` and `cached` are what the registry reports for the wanted template and are
      not affected by deletions; `frees` is what deleting a template really frees; deleting one in `stuck`
      fails; the size check fails at first, at the end, or after deleting one in `blind`. */
  datatype World = World(
    diskSize: Bytes, buffer: Bytes, size: Bytes, cached: Bytes, frees: map<Uuid, nat>, stuck: set<Uuid>,
    blind: set<Uuid>, firstCheckFails: bool, finalCheckFails: bool)

  datatype Outcome =
    | Enough | TooBig | BufferTooRestrictive | NothingToCleanUp | InsufficientEvenIfAll | InsufficientAfterAll
    | CheckFailed

  /** What is still to be downloaded; a cache larger than the template leaves nothing. */
  function TemplateDownloadSize(size: nat, cached: nat): (d: nat)
    ensures d + cached >= size && (cached < size ==> d + cached == size) && (cached >= size ==> d == 0)
  {
    if cached >= size then 0 else size - cached
  }

  function Usable(available: nat, buffer: nat): nat {
    if available > buffer then available - buffer else 0
  }

  function Frees(w: World, u: Uuid): nat {
    if u in w.frees then w.frees[u] else 0
  }

  /** The host: its free space and the deletions made on it. */
  class Anka {
    const world: World
    var available: nat
    var deleted: seq<Uuid>

    constructor (world: World, available: nat)
      ensures this.world == world && this.available == available && deleted == []
    {
      this.world := world;
      this.available := available;
      deleted := [];
    }

    method CheckSpace(fails: bool) returns (ok: bool, size: nat, downloadSize: nat, usable: nat, free: nat)
      ensures ok == !fails && size == world.size && free == available
      ensures downloadSize == TemplateDownloadSize(world.size, world.cached)
      ensures usable == Usable(available, world.buffer)
    {
      ok, size, free := !fails, world.size, available;
      downloadSize := TemplateDownloadSize(size, world.cached);
      usable := if free > world.buffer then free - world.buffer else 0;
    }

    /** AnkaDeleteTemplate: on success the template also leaves the tracker. */
    method DeleteTemplate(tracker: TemplateTracker, uuid: Uuid) returns (ok: bool)
      modifies this, tracker
      ensures ok == (uuid !in world.stuck)
      ensures available == old(available) + (if ok then Frees(world, uuid) else 0)
      ensures deleted == if ok then old(deleted) + [uuid] else old(deleted)
      ensures tracker.templates == if ok then old(tracker.templates) - {uuid} else old(tracker.templates)
    {
      ok := uuid !in world.stuck;
      if ok {
        available := available + Frees(world, uuid);
        deleted := deleted + [uuid];
        tracker.RemoveTemplate(uuid);
      }
    }
  }

  /* ----- the deletion loop ----- */

  datatype Evicted = Evicted(available: nat, deleted: seq<Uuid>)

  function Evict(w: World, lru: seq<TemplateUsage>, target: Uuid, available: nat): Evicted {
    if lru == [] then Evicted(available, [])
    else if lru[0].uuid == target || lru[0].uuid in w.stuck then Evict(w, lru[1..], target, available)
    else
      var uuid, after := lru[0].uuid, available + Frees(w, lru[0].uuid);
      if uuid !in w.blind && Usable(after, w.buffer) >= TemplateDownloadSize(w.size, w.cached) then
        Evicted(after, [uuid])
      else
        var rest := Evict(w, lru[1..], target, after);
        rest.(deleted := [uuid] + rest.deleted)
  }

  function Candidates(lru: seq<TemplateUsage>, target: Uuid): seq<TemplateUsage> {
    if lru == [] then []
    else (if lru[0].uuid == target then [] else [lru[0]]) + Candidates(lru[1..], target)
  }

  function Tracked(xs: seq<TemplateUsage>): nat {
    if xs == [] then 0 else xs[0].imageSize + Tracked(xs[1..])
  }

  // The sum as the code keeps it, in 64 bits.
  function Freeable(lru: seq<TemplateUsage>, target: Uuid): nat {
    Tracked(Candidates(lru, target)) % U64
  }

  predicate Admitted(w: World, lru: seq<TemplateUsage>, target: Uuid, available: nat) {
    (Usable(available, w.buffer) + Freeable(lru, target)) % U64 >= TemplateDownloadSize(w.size, w.cached)
  }

  function Decide(w: World, lru: seq<TemplateUsage>, tracked: bool, target: Uuid, available: nat): (Outcome, Evicted) {
    var download := TemplateDownloadSize(w.size, w.cached);
    var nothing := Evicted(available, []);
    if w.firstCheckFails then (CheckFailed, nothing)
    else if w.size == 0 then (Enough, nothing)
    else if w.size >= w.diskSize then (TooBig, nothing)
    else if Usable(available, w.buffer) >= download then (Enough, nothing)
    else if available < w.buffer then (BufferTooRestrictive, nothing)
    else if |lru| - (if tracked then 1 else 0) <= 0 then (NothingToCleanUp, nothing)
    else if !Admitted(w, lru, target, available) then (InsufficientEvenIfAll, nothing)
    else
      var e := Evict(w, lru, target, available);
      (if w.finalCheckFails then CheckFailed
       else if Usable(e.available, w.buffer) < download then InsufficientAfterAll
       else Enough, e)
  }

  lemma {:induction false} TrackedConcat(a: seq<TemplateUsage>, b: seq<TemplateUsage>)
    ensures Tracked(a + b) == Tracked(a) + Tracked(b)
  {
    if a == [] {
      assert a + b == b;
    } else {
      assert (a + b)[1..] == a[1..] + b;
      TrackedConcat(a[1..], b);
    }
  }

  lemma {:induction false} CandidatesConcat(a: seq<TemplateUsage>, b: seq<TemplateUsage>, target: Uuid)
    ensures Candidates(a + b, target) == Candidates(a, target) + Candidates(b, target)
  {
    if a == [] {
      assert a + b == b;
    } else {
      assert (a + b)[1..] == a[1..] + b;
      CandidatesConcat(a[1..], b, target);
    }
  }

  lemma NextFreeable(before: seq<TemplateUsage>, next: TemplateUsage, target: Uuid)
    ensures Freeable(before + [next], target)
            == if next.uuid == target then Freeable(before, target)
               else (Freeable(before, target) + next.imageSize) % U64
  {
    CandidatesConcat(before, [next], target);
    assert [next][1..] == [];
    TrackedConcat(Candidates(before, target), Candidates([next], target));
    TrackedNil();
    assert next.uuid != target ==> Candidates([next], target) == [next];
    assert Tracked([next]) == next.imageSize;
    hide Candidates, Tracked;
    WrapOnce(Tracked(Candidates(before, target)), next.imageSize);
  }

  lemma TrackedNil()
    ensures Tracked([]) == 0
  {
  }

  // totalFreeable: a loop over the candidates with 64-bit addition.
  method TotalFreeable(lru: array<TemplateUsage>, target: Uuid) returns (total: nat)
    ensures total == Freeable(lru[..], target)
  {
    total := 0;
    var i := 0;
    while i < lru.Length
      invariant 0 <= i <= lru.Length
      invariant total == Freeable(lru[..i], target)
    {
      assert lru[..i + 1] == lru[..i] + [lru[i]];
      NextFreeable(lru[..i], lru[i], target);
      if lru[i].uuid != target {
        total := (total + lru[i].imageSize) % U64;
      }
      i := i + 1;
    }
    assert lru[..] == lru[..lru.Length];
  }

  lemma WrapOnce(a: nat, b: nat)
    ensures (a % U64 + b) % U64 == (a + b) % U64
  {
  }

  lemma EvictStep(w: World, lru: seq<TemplateUsage>, i: nat, target: Uuid, available: nat)
    requires i <= |lru|
    ensures Evict(w, lru[i..], target, available) ==
            if i == |lru| then Evicted(available, [])
            else if lru[i].uuid == target || lru[i].uuid in w.stuck then Evict(w, lru[i + 1..], target, available)
            else
              var after := available + Frees(w, lru[i].uuid);
              var rest := Evict(w, lru[i + 1..], target, after);
              if lru[i].uuid !in w.blind && Usable(after, w.buffer) >= TemplateDownloadSize(w.size, w.cached) then
                Evicted(after, [lru[i].uuid])
              else rest.(deleted := [lru[i].uuid] + rest.deleted)
  {
    hide Usable, TemplateDownloadSize, Frees;
    if i < |lru| {
      assert lru[i..][0] == lru[i] && lru[i..][1..] == lru[i + 1..];
    }
  }

  function AsSet(uuids: seq<Uuid>): set<Uuid> {
    set u | u in uuids
  }

  lemma NoneDeleted(templates: map<Uuid, TemplateUsage>)
    ensures templates - AsSet([]) == templates
  {
  }

  lemma OneMoreDeleted(templates: map<Uuid, TemplateUsage>, done: seq<Uuid>, uuid: Uuid)
    ensures templates - AsSet(done) - {uuid} == templates - AsSet(done + [uuid])
  {
  }

  // The same, with what was deleted before.
  function After(done: seq<Uuid>, e: Evicted): Evicted {
    e.(deleted := done + e.deleted)
  }

  lemma EvictStepAfter(w: World, lru: seq<TemplateUsage>, i: nat, target: Uuid, available: nat, done: seq<Uuid>)
    requires i <= |lru|
    ensures After(done, Evict(w, lru[i..], target, available)) ==
            if i == |lru| then Evicted(available, done)
            else if lru[i].uuid == target || lru[i].uuid in w.stuck then
              After(done, Evict(w, lru[i + 1..], target, available))
            else
              var u, after := lru[i].uuid, available + Frees(w, lru[i].uuid);
              if u !in w.blind && Usable(after, w.buffer) >= TemplateDownloadSize(w.size, w.cached) then
                Evicted(after, done + [u])
              else After(done + [u], Evict(w, lru[i + 1..], target, after))
  {
    EvictStep(w, lru, i, target, available);
    hide Evict, Usable, TemplateDownloadSize, Frees;
    assert done + [] == done;
    if i < |lru| {
      var u := lru[i].uuid;
      var rest := Evict(w, lru[i + 1..], target, available + Frees(w, u)).deleted;
      assert done + ([u] + rest) == (done + [u]) + rest;
    }
  }

  // Deletes one template and, if that worked, checks whether there is room now.
  method EvictOne(anka: Anka, tracker: TemplateTracker, uuid: Uuid) returns (deleted: bool, enough: bool)
    modifies anka, tracker
    ensures deleted == (uuid !in anka.world.stuck)
    ensures enough == (deleted && uuid !in anka.world.blind
                       && Usable(anka.available, anka.world.buffer)
                          >= TemplateDownloadSize(anka.world.size, anka.world.cached))
    ensures anka.available == old(anka.available) + (if deleted then Frees(anka.world, uuid) else 0)
    ensures anka.deleted == if deleted then old(anka.deleted) + [uuid] else old(anka.deleted)
    ensures tracker.templates == if deleted then old(tracker.templates) - {uuid} else old(tracker.templates)
  {
    deleted := anka.DeleteTemplate(tracker, uuid);
    enough := false;
    if deleted {
      var ok, _, need, usable, _ := anka.CheckSpace(uuid in anka.world.blind);
      enough := ok && usable >= need;
    }
  }

  method DeleteUntilEnough(anka: Anka, tracker: TemplateTracker, lru: array<TemplateUsage>, target: Uuid)
    modifies anka, tracker
    ensures var e := Evict(anka.world, lru[..], target, old(anka.available));
      && anka.available == e.available && anka.deleted == old(anka.deleted) + e.deleted
      && tracker.templates == old(tracker.templates) - AsSet(e.deleted)
  {
    hide AsSet, Evict, After, Usable, TemplateDownloadSize, Frees;
    ghost var order, world, before := lru[..], anka.world, anka.deleted;
    ghost var done: seq<Uuid> := [];
    StartOfEvict(Evict(world, order, target, anka.available));
    assert order[0..] == order;
    NoneDeleted(tracker.templates);
    var i := 0;
    while i < lru.Length
      invariant 0 <= i <= lru.Length && lru[..] == order
      invariant anka.deleted == before + done
      invariant tracker.templates == old(tracker.templates) - AsSet(done)
      invariant After(done, Evict(world, order[i..], target, anka.available))
             == Evict(world, order, target, old(anka.available))
    {
      EvictStepAfter(world, order, i, target, anka.available, done);
      var uuid := lru[i].uuid;
      if uuid != target {
        var deleted, enough := EvictOne(anka, tracker, uuid);
        if deleted {
          OneMoreDeleted(old(tracker.templates), done, uuid);
          assert before + (done + [uuid]) == before + done + [uuid];
          done := done + [uuid];
        }
        if enough {
          return;
        }
      }
      i := i + 1;
    }
    EvictStepAfter(world, order, i, target, anka.available, done);
  }

  lemma StartOfEvict(e: Evicted)
    ensures After([], e) == e
  {
    assert [] + e.deleted == e.deleted;
  }

  /** The whole of EnsureSpaceForTemplate: its outcome, and what it deleted from host and tracker, for the
      eviction order `lru` it used (the order is not determined where usage and access time are equal). */
  method EnsureSpaceForTemplate(anka: Anka, tracker: TemplateTracker, target: Uuid)
    returns (outcome: Outcome, ghost lru: seq<TemplateUsage>)
    requires KeyedByUuid(tracker.templates)
    modifies anka, tracker
    ensures LeastRecentlyUsed(lru, old(tracker.templates))
    ensures var (o, e) := Decide(anka.world, lru, target in old(tracker.templates), target, old(anka.available));
      && outcome == o && anka.available == e.available && anka.deleted == old(anka.deleted) + e.deleted
      && tracker.templates == old(tracker.templates) - AsSet(e.deleted)
  {
    var templates := tracker.GetLeastRecentlyUsedTemplates();
    lru := templates[..];
    var ok, size, downloadSize, usable, free := anka.CheckSpace(anka.world.firstCheckFails);
    if !ok {
      return CheckFailed, lru;
    }
    if size > 0 {
      if size >= anka.world.diskSize {
        return TooBig, lru;
      }
      if usable < downloadSize {
        if free < anka.world.buffer {
          return BufferTooRestrictive, lru;
        }
        var count := templates.Length;
        var tracked := tracker.Contains(target);
        if tracked {
          count := count - 1;
        }
        if count <= 0 {
          return NothingToCleanUp, lru;
        }
        var total := TotalFreeable(templates, target);
        if (usable + total) % U64 < downloadSize {
          return InsufficientEvenIfAll, lru;
        }
        DeleteUntilEnough(anka, tracker, templates, target);
        var checked, _, finalNeed, finalUsable, _ := anka.CheckSpace(anka.world.finalCheckFails);
        if !checked {
          return CheckFailed, lru;
        }
        if finalUsable < finalNeed {
          return InsufficientAfterAll, lru;
        }
      }
    }
    return Enough, lru;
  }

  /* ----- which outcome when ----- */

  /** Every outcome and its condition, in the numbers the host reports. Nothing is refused that is local already (its
      size is 0) or fits, however little is free; the buffer is looked at only for what does not fit; and templates are
      deleted only when there are candidates and the test on their sum passes. */
  lemma OutcomesIff(w: World, lru: seq<TemplateUsage>, tracked: bool, target: Uuid, available: nat)
    ensures var (o, e) := Decide(w, lru, tracked, target, available);
      var need := if w.cached >= w.size then 0 else w.size - w.cached;
      var usable := if available > w.buffer then available - w.buffer else 0;
      var short := !w.firstCheckFails && 0 < w.size < w.diskSize && usable < need;
      var some := short && w.buffer <= available && |lru| > if tracked then 1 else 0;
      var tries := some && (usable + Tracked(Candidates(lru, target)) % U64) % U64 >= need;
      var after := Evict(w, lru, target, available).available;
      && (o == TooBig <==> !w.firstCheckFails && w.size > 0 && w.size >= w.diskSize)
      && (o == BufferTooRestrictive <==> short && available < w.buffer)
      && (o == NothingToCleanUp <==> short && w.buffer <= available && !some)
      && (o == InsufficientEvenIfAll <==> some && !tries)
      && (o == InsufficientAfterAll <==> tries && !w.finalCheckFails && after < w.buffer + need)
      && (o == CheckFailed <==> w.firstCheckFails || (tries && w.finalCheckFails))
      && (o == Enough <==>
            || (!w.firstCheckFails && (w.size == 0 || (w.size < w.diskSize && need <= usable)))
            || (tries && !w.finalCheckFails && after >= w.buffer + need))
      && e == if tries then Evict(w, lru, target, available) else Evicted(available, [])
  {
    hide Evict, Tracked, Candidates;
  }

  /* ----- what the loop deletes ----- */

  // Deleting a template frees the size the tracker has for it.
  predicate Accurate(w: World, lru: seq<TemplateUsage>) {
    forall i :: 0 <= i < |lru| ==> Frees(w, lru[i].uuid) == lru[i].imageSize
  }

  function Deletable(w: World, lru: seq<TemplateUsage>, target: Uuid): seq<TemplateUsage> {
    if lru == [] then []
    else
      (if lru[0].uuid == target || lru[0].uuid in w.stuck then [] else [lru[0]]) + Deletable(w, lru[1..], target)
  }

  function Uuids(xs: seq<TemplateUsage>): (u: seq<Uuid>)
    ensures |u| == |xs| && forall i :: 0 <= i < |xs| ==> u[i] == xs[i].uuid
  {
    if xs == [] then [] else [xs[0].uuid] + Uuids(xs[1..])
  }

  function Released(w: World, xs: seq<TemplateUsage>): nat {
    if xs == [] then 0 else Frees(w, xs[0].uuid) + Released(w, xs[1..])
  }

  // With the first k of them deleted, the size check after the last of these works and finds enough room.
  predicate FoundEnough(w: World, ds: seq<TemplateUsage>, k: nat, available: nat) {
    && 0 < k <= |ds| && ds[k - 1].uuid !in w.blind
    && Usable(available + Released(w, ds[..k]), w.buffer) >= TemplateDownloadSize(w.size, w.cached)
  }

  // The first n of the deletable templates are what the loop deleted, and at none before was it found enough.
  predicate ShortestPrefix(w: World, ds: seq<TemplateUsage>, n: nat, available: nat, e: Evicted) {
    && n <= |ds| && e.deleted == Uuids(ds[..n]) && e.available == available + Released(w, ds[..n])
    && (FoundEnough(w, ds, n, available) || n == |ds|)
    && forall k: nat :: k < n ==> !FoundEnough(w, ds, k, available)
  }

  /** Whatever deletions free and whichever size checks fail, the loop deletes a prefix of the deletable templates in
      eviction order: up to the first after which it is found that there is room, or all when it is never found. */
  lemma {:induction false} EvictsShortestPrefix(w: World, lru: seq<TemplateUsage>, target: Uuid, available: nat)
    returns (n: nat)
    ensures ShortestPrefix(w, Deletable(w, lru, target), n, available, Evict(w, lru, target, available))
    ensures n == 0 <==> Deletable(w, lru, target) == []
  {
    hide *;
    if lru == [] {
      NothingToEvict(w, target, available);
      n := 0;
    } else if lru[0].uuid == target || lru[0].uuid in w.stuck {
      DeletableHead(w, lru, target);
      KeptHead(w, lru, target, available);
      n := EvictsShortestPrefix(w, lru[1..], target, available);
    } else {
      var after := available + Frees(w, lru[0].uuid);
      var rest := Deletable(w, lru[1..], target);
      var e := Evict(w, lru[1..], target, after);
      DeletableHead(w, lru, target);
      EvictHead(w, lru, target, available);
      if FoundEnough(w, [lru[0]] + rest, 1, available) {
        n := 1;
        FirstIsEnough(w, lru[0], rest, available);
      } else {
        var m := EvictsShortestPrefix(w, lru[1..], target, after);
        n := m + 1;
        PrefixGrows(w, lru[0], rest, m, available, e);
      }
    }
  }

  lemma NothingToEvict(w: World, target: Uuid, available: nat)
    ensures Deletable(w, [], target) == []
    ensures ShortestPrefix(w, [], 0, available, Evict(w, [], target, available))
  {
  }

  lemma KeptHead(w: World, lru: seq<TemplateUsage>, target: Uuid, available: nat)
    requires lru != [] && (lru[0].uuid == target || lru[0].uuid in w.stuck)
    ensures Evict(w, lru, target, available) == Evict(w, lru[1..], target, available)
  {
  }

  lemma DeletableHead(w: World, lru: seq<TemplateUsage>, target: Uuid)
    requires lru != []
    ensures Deletable(w, lru, target) ==
            if lru[0].uuid == target || lru[0].uuid in w.stuck then Deletable(w, lru[1..], target)
            else [lru[0]] + Deletable(w, lru[1..], target)
  {
  }

  lemma EvictHead(w: World, lru: seq<TemplateUsage>, target: Uuid, available: nat)
    requires lru != [] && lru[0].uuid != target && lru[0].uuid !in w.stuck
    ensures var after := available + Frees(w, lru[0].uuid); var rest := Evict(w, lru[1..], target, after);
      Evict(w, lru, target, available) ==
        if FoundEnough(w, [lru[0]] + Deletable(w, lru[1..], target), 1, available) then Evicted(after, [lru[0].uuid])
        else rest.(deleted := [lru[0].uuid] + rest.deleted)
  {
    FirstAlone(w, lru[0], Deletable(w, lru[1..], target), available);
    EvictStep(w, lru, 0, target, available);
    assert lru[0..] == lru;
    hide Deletable, Evict, Usable, TemplateDownloadSize, FoundEnough, Frees;
  }

  lemma FirstAlone(w: World, first: TemplateUsage, rest: seq<TemplateUsage>, available: nat)
    ensures Released(w, ([first] + rest)[..1]) == Frees(w, first.uuid)
    ensures FoundEnough(w, [first] + rest, 1, available) <==>
            && first.uuid !in w.blind
            && Usable(available + Frees(w, first.uuid), w.buffer) >= TemplateDownloadSize(w.size, w.cached)
  {
    assert ([first] + rest)[..1] == [first] && [first][1..] == [];
  }

  lemma FirstIsEnough(w: World, first: TemplateUsage, rest: seq<TemplateUsage>, available: nat)
    requires FoundEnough(w, [first] + rest, 1, available)
    ensures ShortestPrefix(w, [first] + rest, 1, available, Evicted(available + Frees(w, first.uuid), [first.uuid]))
  {
    FirstAlone(w, first, rest, available);
    assert ([first] + rest)[..1] == [first];
  }

  lemma PrefixGrows(w: World, first: TemplateUsage, rest: seq<TemplateUsage>, m: nat, available: nat, e: Evicted)
    requires ShortestPrefix(w, rest, m, available + Frees(w, first.uuid), e)
    requires !FoundEnough(w, [first] + rest, 1, available)
    ensures ShortestPrefix(w, [first] + rest, m + 1, available, e.(deleted := [first.uuid] + e.deleted))
  {
    var ds := [first] + rest;
    hide Usable, TemplateDownloadSize, Frees;
    OneMoreInFront(w, first, rest, m, available);
    assert ds[..m + 1] == [first] + rest[..m] && ds[..m + 1][1..] == rest[..m];
    hide FoundEnough, Released;
    forall k: nat | k < m + 1 ensures !FoundEnough(w, ds, k, available) {
      if k > 1 {
        OneMoreInFront(w, first, rest, k - 1, available);
      } else if k == 0 {
        NoneIsNotEnough(w, ds, available);
      }
    }
  }

  lemma NoneIsNotEnough(w: World, ds: seq<TemplateUsage>, available: nat)
    ensures !FoundEnough(w, ds, 0, available)
  {
  }

  lemma OneMoreInFront(w: World, first: TemplateUsage, rest: seq<TemplateUsage>, k: nat, available: nat)
    requires k <= |rest|
    ensures var ds := [first] + rest;
      && Released(w, ds[..k + 1]) == Frees(w, first.uuid) + Released(w, rest[..k])
      && (k > 0 ==>
            (FoundEnough(w, ds, k + 1, available) <==> FoundEnough(w, rest, k, available + Frees(w, first.uuid))))
  {
    hide Usable, TemplateDownloadSize, Frees;
    var ds := [first] + rest;
    assert ds[..k + 1] == [first] + rest[..k];
    assert ds[..k + 1][1..] == rest[..k];
  }

  /* ----- safety of what is deleted, whatever fails ----- */

  lemma {:induction false} EvictedAreCandidates(w: World, lru: seq<TemplateUsage>, target: Uuid, available: nat)
    ensures forall u :: u in Evict(w, lru, target, available).deleted ==>
              u != target && exists i :: 0 <= i < |lru| && lru[i].uuid == u
  {
    if lru != [] {
      EvictedAreCandidates(w, lru[1..], target, available);
      EvictedAreCandidates(w, lru[1..], target, available + Frees(w, lru[0].uuid));
      forall u | u in Evict(w, lru, target, available).deleted
        ensures u != target && exists i :: 0 <= i < |lru| && lru[i].uuid == u
      {
        if u != lru[0].uuid || lru[0].uuid == target || lru[0].uuid in w.stuck {
          var i :| 0 <= i < |lru[1..]| && lru[1..][i].uuid == u;
          assert lru[i + 1].uuid == u;
        } else {
          assert lru[0].uuid == u;
        }
      }
    }
  }

  /** Whatever the host answers, nothing is deleted that is in use, being pulled or the template wanted. */
  lemma DeletesOnlyEligible(
    w: World, templates: map<Uuid, TemplateUsage>, lru: seq<TemplateUsage>, target: Uuid, available: nat, u: Uuid)
    requires LeastRecentlyUsed(lru, templates)
    requires u in Decide(w, lru, target in templates, target, available).1.deleted
    ensures u in templates && !templates[u].inUse && !templates[u].pulling && u != target
  {
    EvictedAreCandidates(w, lru, target, available);
  }

  /** And nothing at all is deleted unless the wanted template fits the disk, does not fit the usable space, and
      the usable space with all candidates gone covers the download. */
  lemma DeletesOnlyIfItCanHelp(w: World, lru: seq<TemplateUsage>, tracked: bool, target: Uuid, available: nat)
    requires Decide(w, lru, tracked, target, available).1.deleted != []
    ensures w.size < w.diskSize && w.buffer <= available
    ensures Usable(available, w.buffer) < TemplateDownloadSize(w.size, w.cached)
    ensures RoomCanBeMade(w, lru, target, available)
  {
    hide Evict, Tracked, Candidates, Usable, TemplateDownloadSize;
    WrapAtMost(Usable(available, w.buffer), Tracked(Candidates(lru, target)));
  }

  lemma WrapAtMost(a: nat, b: nat)
    ensures (a + b % U64) % U64 <= a + b
    ensures a + b < U64 ==> (a + b % U64) % U64 == a + b
  {
  }

  /* ----- the branch the code calls impossible ----- */

  lemma {:induction false} EvictFrees(w: World, lru: seq<TemplateUsage>, target: Uuid, available: nat)
    requires Accurate(w, lru)
    ensures var e := Evict(w, lru, target, available); var download := TemplateDownloadSize(w.size, w.cached);
      && available <= e.available <= available + Tracked(Deletable(w, lru, target))
      && (e.available < available + Tracked(Deletable(w, lru, target)) ==> Usable(e.available, w.buffer) >= download)
  {
    if lru != [] {
      if lru[0].uuid == target || lru[0].uuid in w.stuck {
        assert Deletable(w, lru, target) == Deletable(w, lru[1..], target);
        EvictFrees(w, lru[1..], target, available);
      } else {
        EvictFrees(w, lru[1..], target, available + lru[0].imageSize);
        assert Deletable(w, lru, target) == [lru[0]] + Deletable(w, lru[1..], target);
        assert Deletable(w, lru, target)[1..] == Deletable(w, lru[1..], target);
      }
    }
  }

  /** The final error is returned exactly when the admission test passed and the deletions that work cannot
      make the room, whichever size checks fail on the way. */
  lemma FinalErrorIff(w: World, lru: seq<TemplateUsage>, tracked: bool, target: Uuid, available: nat)
    requires Accurate(w, lru)
    requires w.buffer <= available && !w.firstCheckFails && !w.finalCheckFails
    requires 0 < w.size < w.diskSize
    requires Usable(available, w.buffer) < TemplateDownloadSize(w.size, w.cached)
    requires |lru| > (if tracked then 1 else 0)
    ensures Decide(w, lru, tracked, target, available).0 == InsufficientAfterAll <==>
            && Admitted(w, lru, target, available)
            && Usable(available, w.buffer) + Tracked(Deletable(w, lru, target)) < TemplateDownloadSize(w.size, w.cached)
  {
    EvictFrees(w, lru, target, available);
  }

  lemma {:induction false} NothingStuck(w: World, lru: seq<TemplateUsage>, target: Uuid)
    requires w.stuck == {}
    ensures Deletable(w, lru, target) == Candidates(lru, target)
  {
    if lru != [] {
      NothingStuck(w, lru[1..], target);
    }
  }

  /** So when every deletion works and frees what the tracker says, the final error is unreachable, even if
      size checks fail on the way: passing the admission test means the loop makes the room. */
  lemma FinalErrorIsUnreachable(w: World, lru: seq<TemplateUsage>, tracked: bool, target: Uuid, available: nat)
    requires Accurate(w, lru) && w.stuck == {}
    ensures Decide(w, lru, tracked, target, available).0 != InsufficientAfterAll
  {
    EvictFrees(w, lru, target, available);
    NothingStuck(w, lru, target);
    WrapAtMost(Usable(available, w.buffer), Tracked(Candidates(lru, target)));
  }

  /** Success on a template with something to download leaves the buffer free after the download. */
  lemma SuccessKeepsBuffer(w: World, lru: seq<TemplateUsage>, tracked: bool, target: Uuid, available: nat)
    requires Decide(w, lru, tracked, target, available).0 == Enough
    requires TemplateDownloadSize(w.size, w.cached) > 0
    ensures var e := Decide(w, lru, tracked, target, available).1;
      e.available >= w.buffer + TemplateDownloadSize(w.size, w.cached)
  {
  }

  /* ----- when the room could be made, is it? ----- */

  // Deleting every candidate would leave room for the download and the buffer.
  predicate RoomCanBeMade(w: World, lru: seq<TemplateUsage>, target: Uuid, available: nat) {
    Usable(available, w.buffer) + Tracked(Candidates(lru, target)) >= TemplateDownloadSize(w.size, w.cached)
  }

  /** The sum wraps in 64 bits, so the test can refuse although the room could be made: exactly when the true sum
      reaches 2^64 and what is left of it is less than the download. It never admits without the room. */
  lemma WronglyRefusedIff(w: World, lru: seq<TemplateUsage>, target: Uuid, available: nat)
    ensures var sum := Usable(available, w.buffer) + Tracked(Candidates(lru, target));
      RoomCanBeMade(w, lru, target, available) && !Admitted(w, lru, target, available) <==>
      sum >= U64 && sum % U64 < TemplateDownloadSize(w.size, w.cached)
    ensures Admitted(w, lru, target, available) ==> RoomCanBeMade(w, lru, target, available)
  {
    hide Tracked, Candidates, Usable;
    WrapAtMost(Usable(available, w.buffer), Tracked(Candidates(lru, target)));
    WrapOnce(Tracked(Candidates(lru, target)), Usable(available, w.buffer));
  }

  /** Two templates of 2^63 bytes, and one byte wanted on a full disk. */
  lemma TwoHugeTemplatesAreRefused(w: World, a: TemplateUsage, b: TemplateUsage, target: Uuid)
    requires a.imageSize == b.imageSize == U64 / 2 && a.uuid != target && b.uuid != target
    requires w.size == 1 && w.cached == 0
    ensures RoomCanBeMade(w, [a, b], target, w.buffer) && !Admitted(w, [a, b], target, w.buffer)
  {
    assert [a, b][1..] == [b] && [b][1..] == [];
    assert Candidates([b], target) == [b] + Candidates([], target) == [b];
    assert Candidates([a, b], target) == [a] + [b] == [a, b];
    assert Tracked([b]) == b.imageSize;
    assert Tracked([a, b]) == U64;
  }

  lemma {:induction false} OnlyOtherIsCandidate(lru: seq<TemplateUsage>, target: Uuid)
    ensures (forall i :: 0 <= i < |lru| ==> lru[i].uuid == target) ==> Candidates(lru, target) == []
  {
    if lru != [] {
      OnlyOtherIsCandidate(lru[1..], target);
    }
  }

  // When the count reduced for a tracked target runs out although there is a candidate.
  lemma CountRunsOutIff(templates: map<Uuid, TemplateUsage>, lru: seq<TemplateUsage>, target: Uuid)
    requires KeyedByUuid(templates) && LeastRecentlyUsed(lru, templates) && Candidates(lru, target) != []
    ensures |lru| - (if target in templates then 1 else 0) <= 0 <==>
            |lru| == 1 && target in templates && !Eligible(templates[target])
  {
    OnlyOtherIsCandidate(lru, target);
    hide Candidates, Sorted;
    assert target in templates && Eligible(templates[target]) ==> templates[target] in lru;
  }

  /** Completeness of the refusals: with the room to be made, cleanup is refused for lack of candidates exactly
      when the one candidate is not the wanted template and the wanted template is tracked (then it is in use
      or being pulled: the count was reduced for a template that was never among the candidates). */
  lemma RefusedDespiteRoomIff(
    w: World, templates: map<Uuid, TemplateUsage>, lru: seq<TemplateUsage>, target: Uuid, available: nat)
    requires KeyedByUuid(templates) && LeastRecentlyUsed(lru, templates) && Accurate(w, lru) && w.stuck == {}
    requires !w.firstCheckFails && !w.finalCheckFails && 0 < w.size < w.diskSize && w.buffer <= available
    requires Usable(available, w.buffer) < TemplateDownloadSize(w.size, w.cached)
    requires Usable(available, w.buffer) + Tracked(Candidates(lru, target)) < U64
    requires RoomCanBeMade(w, lru, target, available)
    ensures var outcome := Decide(w, lru, target in templates, target, available).0;
      && (outcome == Enough || outcome == NothingToCleanUp)
      && (outcome == NothingToCleanUp <==> |lru| == 1 && target in templates && !Eligible(templates[target]))
  {
    hide LeastRecentlyUsed, KeyedByUuid, Evict, Tracked, Candidates, Usable, TemplateDownloadSize, Accurate, Admitted;
    TrackedNil();
    CountRunsOutIff(templates, lru, target);
    FinalErrorIsUnreachable(w, lru, target in templates, target, available);
    WronglyRefusedIff(w, lru, target, available);
  }
}
