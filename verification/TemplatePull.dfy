/** internal/anka/cli.go, EnsureVMTemplateExists and AnkaRegistryPull: getting a template onto the host, with the
    tracker marking it while it is pulled. What the Anka CLI answers is given. */
module TemplatePull {
  import opened TemplateTracking
  import opened TemplateSpace

  const USING_LATEST := "(using latest)"

  // What listing the template on the host says. Unlisted: the list command gave nothing, and the registry is
  // asked for the template instead.
  datatype Local = ListError | NotFound | Present(failed: bool, version: string) | Unlisted(shown: bool)

  // How pulling it ends; the size is asked for afterwards and may be unknown.
  datatype Reply = PullError | StatusNotOK | Pulled(code: int, sizeKnown: bool, size: nat)

  // When the context is canceled, if it is.
  datatype Cancellation = Never | BeforePull | DuringPull | AfterPull

  datatype Ensured = Ready | NoTemplateTag | NoSpace(why: Outcome) | AlreadyPulling | OtherError

  predicate NeedsPull(local: Local, tag: string) {
    match local
    case NotFound => true
    case Present(_, version) => tag == USING_LATEST || version != tag
    case Unlisted(_) => true
    case ListError => false
  }

  predicate Answers(local: Local) {
    match local
    case ListError => false
    case Present(failed, _) => !failed
    case Unlisted(shown) => shown
    case NotFound => true
  }

  /** A template that is there under the wanted tag is not pulled; anything else is, and always with no tag asked
      for. Only a list that fails, a failed VM and a registry that does not know the template end it before that. */
  lemma PullDecision(local: Local, tag: string)
    ensures Answers(local) && !NeedsPull(local, tag) <==>
            tag != "(using latest)" && local == Present(false, tag)
    ensures !Answers(local) <==>
            local == ListError || local == Unlisted(false) || exists version :: local == Present(true, version)
  {
    if local.Present? && local.failed {
      assert local == Present(true, local.version);
    }
  }

  predicate AnyPulling(templates: map<Uuid, TemplateUsage>) {
    exists k :: k in templates && templates[k].pulling
  }

  // The two differ at most in this entry.
  ghost predicate SameBut(a: map<Uuid, TemplateUsage>, b: map<Uuid, TemplateUsage>, uuid: Uuid) {
    forall k :: k != uuid ==> (k in a <==> k in b) && (k in a && k in b ==> a[k] == b[k])
  }

  function UsesOf(templates: map<Uuid, TemplateUsage>, uuid: Uuid): nat {
    if uuid in templates then templates[uuid].usageCount else 0
  }

  function SizeOf(templates: map<Uuid, TemplateUsage>, uuid: Uuid): nat {
    if uuid in templates then templates[uuid].imageSize else 0
  }

  predicate Succeeds(reply: Reply, cancel: Cancellation) {
    reply.Pulled? && reply.sizeKnown && (cancel.Never? || cancel.AfterPull?)
  }

  /** Pulls with the template marked, and unmarks it however the pull ends. `during` is the tracker while the
      pull runs. Only a full success counts as a use. */
  method AnkaRegistryPull(
    tracker: TemplateTracker, uuid: Uuid, name: string, tag: string, reply: Reply, cancel: Cancellation, now: int)
    returns (pulled: bool, ghost during: map<Uuid, TemplateUsage>)
    requires reply.Pulled? ==> reply.size < U64
    modifies tracker
    ensures pulled <==> reply.Pulled? && reply.sizeKnown && !cancel.BeforePull? && !cancel.DuringPull?
    ensures cancel.BeforePull? ==> during == map[] && tracker.templates == old(tracker.templates)
    ensures !cancel.BeforePull? ==> MarkedPull(old(tracker.templates), during, tracker.templates, uuid, reply, pulled)
    ensures KeyedByUuid(old(tracker.templates)) ==> KeyedByUuid(tracker.templates)
    ensures NoneInUse(old(tracker.templates)) ==> NoneInUse(tracker.templates)
  {
    during := map[];
    if cancel.BeforePull? {
      return false, during;
    }
    tracker.SetTemplatePulling(uuid, name, tag, true, now);
    during := tracker.templates;
    pulled := reply.Pulled? && reply.sizeKnown && !cancel.DuringPull?;
    if pulled {
      tracker.UpdateTemplateUsage(uuid, name, tag, reply.size, now);
    }
    tracker.SetTemplatePulling(uuid, name, tag, false, now);
  }

  // The tracker before, during and after a pull of this template.
  ghost predicate MarkedPull(
    before: map<Uuid, TemplateUsage>, during: map<Uuid, TemplateUsage>, after: map<Uuid, TemplateUsage>, uuid: Uuid,
    reply: Reply, pulled: bool)
    requires pulled ==> reply.Pulled?
  {
    && SameBut(during, before, uuid) && uuid in during && during[uuid].pulling
    && SameBut(after, before, uuid) && uuid in after && !after[uuid].pulling
    && UsesOf(after, uuid) == UsesOf(before, uuid) + (if pulled then 1 else 0)
    && SizeOf(after, uuid) == if pulled && reply.size > 0 then reply.size else SizeOf(before, uuid)
  }

  method HasPullingTemplates(tracker: TemplateTracker) returns (some: bool)
    ensures some == AnyPulling(tracker.templates)
  {
    var left := tracker.templates.Keys;
    while left != {}
      invariant left <= tracker.templates.Keys
      invariant forall k :: k in tracker.templates.Keys - left ==> !tracker.templates[k].pulling
      decreases left
    {
      var k :| k in left;
      if tracker.templates[k].pulling {
        return true;
      }
      left := left - {k};
    }
    return false;
  }

  lemma NeverDeletesTarget(
    w: World, templates: map<Uuid, TemplateUsage>, lru: seq<TemplateUsage>, target: Uuid, available: nat)
    requires LeastRecentlyUsed(lru, templates)
    ensures target !in Decide(w, lru, target in templates, target, available).1.deleted
  {
    hide Decide;
    if target in Decide(w, lru, target in templates, target, available).1.deleted {
      DeletesOnlyEligible(w, templates, lru, target, available, target);
    }
  }

  lemma MarkedIsNotCandidate(templates: map<Uuid, TemplateUsage>, target: Uuid)
    requires target in templates && templates[target].pulling
    ensures forall lru :: LeastRecentlyUsed(lru, templates) ==> target !in Uuids(lru)
  {
    forall lru: seq<TemplateUsage> | LeastRecentlyUsed(lru, templates) ensures target !in Uuids(lru) {
      assert forall i :: 0 <= i < |lru| ==> lru[i].uuid != target;
    }
  }

  // The deletions that work would make the room, and the host answers every question.
  predicate RoomIsThere(w: World, lru: seq<TemplateUsage>, target: Uuid, available: nat) {
    && Accurate(w, lru) && w.stuck == {} && !w.firstCheckFails && !w.finalCheckFails
    && w.size < w.diskSize && w.buffer <= available
    && Usable(available, w.buffer) + Tracked(Candidates(lru, target)) < U64
    && RoomCanBeMade(w, lru, target, available)
  }

  /** With no template in use or being pulled, which is how the one caller comes to it, making room succeeds
      whenever there is room to be made: the count reduced for a tracked target never runs out. */
  lemma RoomIsMade(
    w: World, templates: map<Uuid, TemplateUsage>, lru: seq<TemplateUsage>, target: Uuid, available: nat)
    requires KeyedByUuid(templates) && LeastRecentlyUsed(lru, templates)
    requires NoneInUse(templates) && !AnyPulling(templates) && RoomIsThere(w, lru, target, available)
    ensures Decide(w, lru, target in templates, target, available).0 == Enough
  {
    hide LeastRecentlyUsed, KeyedByUuid, Evict, Tracked, Candidates, Admitted;
    if w.size > 0 && Usable(available, w.buffer) < TemplateDownloadSize(w.size, w.cached) {
      RefusedDespiteRoomIff(w, templates, lru, target, available);
    }
  }

  /** Gets the wanted template onto the host. Where a pull is needed it is made only with no other pull running
      and room for it, with the template marked so that no eviction picks it; a pull that fails for any reason is
      reported as a missing tag, unless the context is canceled, which is reported as ready. */
  method EnsureVMTemplateExists(
    anka: Anka, tracker: TemplateTracker, target: Uuid, tag: string, local: Local, reply: Reply,
    cancel: Cancellation, size: nat, now: int)
    returns (r: Ensured, ghost during: map<Uuid, TemplateUsage>, ghost lru: seq<TemplateUsage>)
    requires KeyedByUuid(tracker.templates) && size < U64 && (reply.Pulled? ==> reply.size < U64)
    modifies anka, tracker
    ensures forall k :: k in tracker.templates && tracker.templates[k].pulling ==>
              k in old(tracker.templates) && old(tracker.templates)[k].pulling
    ensures NoneInUse(old(tracker.templates)) ==> NoneInUse(tracker.templates)
    ensures r.NoSpace? ==>
              && LeastRecentlyUsed(lru, old(tracker.templates))
              && r.why == Decide(anka.world, lru, target in old(tracker.templates), target, old(anka.available)).0
              && (NoneInUse(old(tracker.templates)) ==> !RoomIsThere(anka.world, lru, target, old(anka.available)))
    ensures !Answers(local) || (NeedsPull(local, tag) && AnyPulling(old(tracker.templates))) ==>
              && r == (if Answers(local) then AlreadyPulling else OtherError) && during == map[]
              && tracker.templates == old(tracker.templates) && anka.deleted == old(anka.deleted)
    ensures Answers(local) && !NeedsPull(local, tag) ==>
              && r == Ready && during == map[] && anka.deleted == old(anka.deleted)
              && SameBut(tracker.templates, old(tracker.templates), target)
              && UsesOf(tracker.templates, target) == UsesOf(old(tracker.templates), target) + 1
    ensures Answers(local) && NeedsPull(local, tag) && !AnyPulling(old(tracker.templates)) ==>
              && r != AlreadyPulling
              && (during == map[] <==> r.NoSpace? || r == OtherError || (r == Ready && cancel.BeforePull?))
    ensures during != map[] ==>
              TemplateDownloadSize(anka.world.size, anka.world.cached) == 0
              || anka.available >= anka.world.buffer + TemplateDownloadSize(anka.world.size, anka.world.cached)
    ensures during != map[] ==>
              && (forall lru :: LeastRecentlyUsed(lru, during) ==> target !in Uuids(lru))
              && r == (if !cancel.Never? || (Succeeds(reply, cancel) && reply.code != 3) then Ready else NoTemplateTag)
              && target in tracker.templates && !tracker.templates[target].pulling
              && UsesOf(tracker.templates, target) ==
                 UsesOf(old(tracker.templates), target) + if Succeeds(reply, cancel) then 1 else 0
  {
    hide Decide, RoomIsThere, LeastRecentlyUsed;
    during, lru := map[], [];
    if !Answers(local) {
      return OtherError, during, lru;
    }
    if !NeedsPull(local, tag) {
      tracker.UpdateTemplateUsage(target, "", tag, size, now);
      return Ready, during, lru;
    }
    var pulling := HasPullingTemplates(tracker);
    if pulling {
      return AlreadyPulling, during, lru;
    }
    ghost var before := tracker.templates;
    var outcome;
    outcome, lru := EnsureSpaceForTemplate(anka, tracker, target);
    if outcome == CheckFailed {
      return OtherError, during, lru;
    }
    if outcome != Enough {
      if NoneInUse(before) && RoomIsThere(anka.world, lru, target, old(anka.available)) {
        RoomIsMade(anka.world, before, lru, target, old(anka.available));
      }
      return NoSpace(outcome), during, lru;
    }
    if TemplateDownloadSize(anka.world.size, anka.world.cached) > 0 {
      SuccessKeepsBuffer(anka.world, lru, target in old(tracker.templates), target, old(anka.available));
    }
    NeverDeletesTarget(anka.world, old(tracker.templates), lru, target, old(anka.available));
    var pulled;
    pulled, during := AnkaRegistryPull(tracker, target, "", tag, reply, cancel, now);
    if during != map[] {
      MarkedIsNotCandidate(during, target);
    }
    if !cancel.Never? {
      return Ready, during, lru;
    }
    if !pulled || reply.code == 3 {
      return NoTemplateTag, during, lru;
    }
    return Ready, during, lru;
  }
}
