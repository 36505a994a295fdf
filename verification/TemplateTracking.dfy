/** internal/config/config.go, TemplateTracker: which templates are on the host, and in which order the
    least recently used ones may go. Identifiers stand for the UUID strings, times for instants. */
module TemplateTracking {

  type Uuid = nat

  const U64 := 0x1_0000_0000_0000_0000

  datatype TemplateUsage = TemplateUsage(
    uuid: Uuid, name: string, tag: string, imageSize: nat, lastAccessed: int, usageCount: nat,
    inUse: bool, pulling: bool)

  predicate Eligible(u: TemplateUsage) {
    !u.inUse && !u.pulling
  }

  /** The eviction order: fewer uses first, then the older access. */
  predicate AtMost(a: TemplateUsage, b: TemplateUsage) {
    a.usageCount < b.usageCount || (a.usageCount == b.usageCount && a.lastAccessed <= b.lastAccessed)
  }

  predicate Sorted(xs: seq<TemplateUsage>) {
    forall i, j :: 0 <= i < j < |xs| ==> AtMost(xs[i], xs[j])
  }

  predicate KeyedByUuid(templates: map<Uuid, TemplateUsage>) {
    forall k :: k in templates ==> templates[k].uuid == k && templates[k].imageSize < U64
  }

  // No template is marked as in use: nothing in the program ever marks one.
  predicate NoneInUse(templates: map<Uuid, TemplateUsage>) {
    forall k :: k in templates ==> !templates[k].inUse
  }

  // Each eligible template of the map once, and nothing else, in eviction order.
  ghost predicate LeastRecentlyUsed(xs: seq<TemplateUsage>, templates: map<Uuid, TemplateUsage>) {
    && Sorted(xs)
    && (forall i, j :: 0 <= i < j < |xs| ==> xs[i].uuid != xs[j].uuid)
    && (forall i :: 0 <= i < |xs| ==>
          xs[i].uuid in templates && templates[xs[i].uuid] == xs[i] && Eligible(xs[i]))
    && (forall k :: k in templates && Eligible(templates[k]) ==> templates[k] in xs)
  }

  method Swap(a: array<TemplateUsage>, i: nat, j: nat)
    requires i < a.Length && j < a.Length
    modifies a
    ensures a[..] == old(a[..])[i := old(a[j])][j := old(a[i])]
    ensures multiset(a[..]) == multiset(old(a[..]))
  {
    a[i], a[j] := a[j], a[i];
  }

  // The first n places are final: in order, and at most everything after them.
  predicate SettledUpTo(xs: seq<TemplateUsage>, n: nat) {
    forall i, j :: 0 <= i < n && i < j < |xs| ==> AtMost(xs[i], xs[j])
  }

  // Place i is at most everything after it, up to j.
  predicate LeastUpTo(xs: seq<TemplateUsage>, i: nat, j: nat) {
    i < |xs| && forall q :: i < q < j && q < |xs| ==> AtMost(xs[i], xs[q])
  }

  function Exchanged(xs: seq<TemplateUsage>, i: nat, j: nat): seq<TemplateUsage>
    requires i < j < |xs|
  {
    if AtMost(xs[i], xs[j]) then xs else xs[i := xs[j]][j := xs[i]]
  }

  lemma ExchangeExtends(xs: seq<TemplateUsage>, i: nat, j: nat)
    requires i < j < |xs| && SettledUpTo(xs, i) && LeastUpTo(xs, i, j)
    ensures var ys := Exchanged(xs, i, j); |ys| == |xs| && SettledUpTo(ys, i) && LeastUpTo(ys, i, j + 1)
  {
    var ys := Exchanged(xs, i, j);
    forall p, q | 0 <= p < i && p < q < |ys| ensures AtMost(ys[p], ys[q]) {
      assert ys[p] == xs[p];
      assert ys[q] == xs[q] || ys[q] == xs[i] || ys[q] == xs[j];
    }
  }

  /** The exchange sort, in place. */
  method ExchangeSort(a: array<TemplateUsage>)
    modifies a
    ensures Sorted(a[..])
    ensures multiset(a[..]) == multiset(old(a[..]))
  {
    var i := 0;
    while i < a.Length - 1
      invariant 0 <= i && (i < a.Length || i == 0)
      invariant SettledUpTo(a[..], i)
      invariant multiset(a[..]) == multiset(old(a[..]))
    {
      SelectNext(a, i);
      i := i + 1;
    }
  }

  // The inner loop: exchanges the smallest of the rest into place i.
  method SelectNext(a: array<TemplateUsage>, i: nat)
    requires i < a.Length && SettledUpTo(a[..], i)
    modifies a
    ensures SettledUpTo(a[..], i + 1)
    ensures multiset(a[..]) == multiset(old(a[..]))
  {
    var j := i + 1;
    while j < a.Length
      invariant i < j <= a.Length
      invariant SettledUpTo(a[..], i) && LeastUpTo(a[..], i, j)
      invariant multiset(a[..]) == multiset(old(a[..]))
    {
      ExchangeExtends(a[..], i, j);
      ExchangePair(a, i, j);
      j := j + 1;
    }
  }

  method ExchangePair(a: array<TemplateUsage>, i: nat, j: nat)
    requires i < j < a.Length
    modifies a
    ensures a[..] == Exchanged(old(a[..]), i, j)
    ensures multiset(a[..]) == multiset(old(a[..]))
  {
    if a[i].usageCount > a[j].usageCount {
      Swap(a, i, j);
    } else if a[i].usageCount == a[j].usageCount {
      if a[i].lastAccessed > a[j].lastAccessed {
        Swap(a, i, j);
      }
    }
  }

  class TemplateTracker {
    var templates: map<Uuid, TemplateUsage>

    constructor ()
      ensures templates == map[]
    {
      templates := map[];
    }

    method UpdateTemplateUsage(uuid: Uuid, name: string, tag: string, sizeBytes: nat, lastAccessed: int)
      modifies this
      ensures templates == old(templates)[uuid :=
                if uuid in old(templates) then
                  var u := old(templates)[uuid];
                  u.(uuid := uuid, lastAccessed := lastAccessed, usageCount := u.usageCount + 1,
                     imageSize := if sizeBytes > 0 then sizeBytes else u.imageSize)
                else TemplateUsage(uuid, name, tag, sizeBytes, lastAccessed, 1, false, false)]
      ensures KeyedByUuid(old(templates)) && sizeBytes < U64 ==> KeyedByUuid(templates)
      ensures NoneInUse(old(templates)) ==> NoneInUse(templates)
    {
      if uuid in templates {
        var usage := templates[uuid].(uuid := uuid, lastAccessed := lastAccessed);
        usage := usage.(usageCount := usage.usageCount + 1);
        if sizeBytes > 0 {
          usage := usage.(imageSize := sizeBytes);
        }
        templates := templates[uuid := usage];
      } else {
        templates := templates[uuid := TemplateUsage(uuid, name, tag, sizeBytes, lastAccessed, 1, false, false)];
      }
    }

    method SetTemplatePulling(uuid: Uuid, name: string, tag: string, pulling: bool, lastAccessed: int)
      modifies this
      ensures templates ==
                if uuid in old(templates) then old(templates)[uuid := old(templates)[uuid].(pulling := pulling)]
                else if pulling then
                  old(templates)[uuid := TemplateUsage(uuid, name, tag, 0, lastAccessed, 0, false, true)]
                else old(templates)
      ensures KeyedByUuid(old(templates)) ==> KeyedByUuid(templates)
      ensures NoneInUse(old(templates)) ==> NoneInUse(templates)
    {
      if uuid in templates {
        templates := templates[uuid := templates[uuid].(pulling := pulling)];
      } else if pulling {
        templates := templates[uuid := TemplateUsage(uuid, name, tag, 0, lastAccessed, 0, false, true)];
      }
    }

    method RemoveTemplate(uuid: Uuid)
      modifies this
      ensures templates == old(templates) - {uuid}
      ensures NoneInUse(old(templates)) ==> NoneInUse(templates)
    {
      templates := templates - {uuid};
    }

    method Contains(uuid: Uuid) returns (found: bool)
      ensures found <==> uuid in templates
    {
      found := uuid in templates;
    }

    /** The candidates for eviction. The map is walked in no particular order, as Go walks it. */
    method GetLeastRecentlyUsedTemplates() returns (lru: array<TemplateUsage>)
      requires KeyedByUuid(templates)
      ensures fresh(lru)
      ensures LeastRecentlyUsed(lru[..], templates)
      ensures forall u :: u in lru[..] <==>
                u.uuid in templates && templates[u.uuid] == u && !u.inUse && !u.pulling
      ensures forall i, j :: 0 <= i < j < lru.Length ==>
                lru[i].usageCount < lru[j].usageCount
                || (lru[i].usageCount == lru[j].usageCount && lru[i].lastAccessed <= lru[j].lastAccessed)
    {
      var left := templates.Keys;
      var found: seq<TemplateUsage> := [];
      while left != {}
        invariant left <= templates.Keys
        invariant forall i :: 0 <= i < |found| ==>
                    && found[i].uuid in templates.Keys - left
                    && templates[found[i].uuid] == found[i] && Eligible(found[i])
        invariant forall i, j :: 0 <= i < j < |found| ==> found[i].uuid != found[j].uuid
        invariant forall k :: k in templates.Keys - left && Eligible(templates[k]) ==> templates[k] in found
        decreases left
      {
        var k :| k in left;
        left := left - {k};
        ghost var before := found;
        if !templates[k].inUse && !templates[k].pulling {
          found := found + [templates[k]];
          assert found[|found| - 1] == templates[k];
          assert forall u :: u in before ==> u in found;
        }
      }
      lru := new TemplateUsage[|found|](i requires 0 <= i < |found| => found[i]);
      assert lru[..] == found;
      ExchangeSort(lru);
      SortingKeepsTemplates(found, lru[..], templates);
      OrderByFields(lru[..], templates);
    }
  }

  lemma OrderByFields(xs: seq<TemplateUsage>, templates: map<Uuid, TemplateUsage>)
    requires LeastRecentlyUsed(xs, templates) && KeyedByUuid(templates)
    ensures forall u :: u in xs <==> u.uuid in templates && templates[u.uuid] == u && !u.inUse && !u.pulling
    ensures forall i, j :: 0 <= i < j < |xs| ==>
              xs[i].usageCount < xs[j].usageCount
              || (xs[i].usageCount == xs[j].usageCount && xs[i].lastAccessed <= xs[j].lastAccessed)
  {
  }

  // A permutation of the candidates in order is the eviction order.
  lemma SortingKeepsTemplates(found: seq<TemplateUsage>, xs: seq<TemplateUsage>, templates: map<Uuid, TemplateUsage>)
    requires multiset(xs) == multiset(found) && Sorted(xs)
    requires forall i :: 0 <= i < |found| ==>
               found[i].uuid in templates && templates[found[i].uuid] == found[i] && Eligible(found[i])
    requires forall i, j :: 0 <= i < j < |found| ==> found[i].uuid != found[j].uuid
    requires forall k :: k in templates && Eligible(templates[k]) ==> templates[k] in found
    ensures LeastRecentlyUsed(xs, templates)
  {
    forall u | u in multiset(xs) ensures u in found {
      assert u in multiset(found);
    }
    forall u | u in found ensures u in xs {
      assert u in multiset(found);
    }
    forall i, j | 0 <= i < j < |xs| ensures xs[i].uuid != xs[j].uuid {
      if xs[i].uuid == xs[j].uuid {
        assert xs[i] in multiset(xs) && xs[j] in multiset(xs);
        assert xs[i] == templates[xs[i].uuid] == xs[j];
        TwiceInMultiset(xs, i, j);
        OnceInMultiset(found, xs[i]);
      }
    }
    forall i | 0 <= i < |xs| ensures xs[i] in found {
      assert xs[i] in multiset(xs);
    }
  }

  lemma TwiceInMultiset(xs: seq<TemplateUsage>, i: nat, j: nat)
    requires i < j < |xs| && xs[i] == xs[j]
    ensures multiset(xs)[xs[i]] >= 2
  {
    assert xs == xs[..i] + [xs[i]] + xs[i + 1..j] + [xs[j]] + xs[j + 1..];
  }

  lemma {:induction false} OnceInMultiset(xs: seq<TemplateUsage>, u: TemplateUsage)
    requires forall i, j :: 0 <= i < j < |xs| ==> xs[i] != xs[j]
    ensures multiset(xs)[u] <= 1
  {
    if xs != [] {
      assert xs == [xs[0]] + xs[1..];
      OnceInMultiset(xs[1..], u);
      if u == xs[0] {
        assert u !in xs[1..];
      }
    }
  }
}
