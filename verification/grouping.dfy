/** Grouping requests by type, as both PrayerRequestInput.tsx (21-24) and
    PrayerDisplay.tsx (20-23) write it: map every entry of the type table to
    its requests, then drop the empty groups. */
module Grouping {
  import opened TeleprompterTypes
  import Seqs

  datatype Group = Group(info: PrayerTypeInfo, prayers: seq<PrayerRequest>)

  function HasType(id: PrayerType): PrayerRequest -> bool {
    (p: PrayerRequest) => p.prayerType == id
  }

  /** `prayerRequests.filter(p => p.type === id)`. */
  function OfType(reqs: seq<PrayerRequest>, id: PrayerType): (r: seq<PrayerRequest>)
    ensures forall p :: p in r <==> p in reqs && p.prayerType == id
    ensures forall p :: multiset(r)[p] == if p.prayerType == id then multiset(reqs)[p] else 0
    ensures Seqs.IsSubsequence(r, reqs)
  {
    Seqs.Filter(reqs, HasType(id))
  }

  /** The `map` step: one group per table entry, in table order. */
  function AllGroups(types: seq<PrayerTypeInfo>, reqs: seq<PrayerRequest>): (r: seq<Group>)
    ensures |r| == |types|
    ensures forall i :: 0 <= i < |types| ==> r[i] == Group(types[i], OfType(reqs, types[i].id))
  {
    seq(|types|, i requires 0 <= i < |types| => Group(types[i], OfType(reqs, types[i].id)))
  }

  function NonEmpty(g: Group): bool {
    g.prayers != []
  }

  /** `groupedPrayers`. */
  function Groups(types: seq<PrayerTypeInfo>, reqs: seq<PrayerRequest>): (r: seq<Group>)
    ensures Seqs.IsSubsequence(r, AllGroups(types, reqs))
    ensures forall g :: g in r <==> g in AllGroups(types, reqs) && g.prayers != []
    ensures forall g :: multiset(r)[g] == if g.prayers != [] then multiset(AllGroups(types, reqs))[g] else 0
  {
    Seqs.Filter(AllGroups(types, reqs), NonEmpty)
  }

  /** Every group is a table entry with exactly its requests, and not empty;
      every table entry that has requests has its group. */
  lemma GroupsAreTheNonEmptyTypes(types: seq<PrayerTypeInfo>, reqs: seq<PrayerRequest>)
    ensures forall g :: g in Groups(types, reqs) ==>
      g.info in types && g.prayers == OfType(reqs, g.info.id) && g.prayers != []
    ensures forall t :: t in types && OfType(reqs, t.id) != [] ==>
      Group(t, OfType(reqs, t.id)) in Groups(types, reqs)
  {
    var all := AllGroups(types, reqs);
    forall g | g in Groups(types, reqs)
      ensures g.info in types && g.prayers == OfType(reqs, g.info.id)
    {
      var i :| 0 <= i < |all| && all[i] == g;
      assert g.info == types[i];
    }
    forall t | t in types && OfType(reqs, t.id) != []
      ensures Group(t, OfType(reqs, t.id)) in Groups(types, reqs)
    {
      var i :| 0 <= i < |types| && types[i] == t;
      assert all[i] == Group(t, OfType(reqs, t.id));
    }
  }

  /** A request is shown in some group exactly when its type is in the table:
      requests of unknown types are not shown. */
  lemma ShownIffTypeKnown(types: seq<PrayerTypeInfo>, reqs: seq<PrayerRequest>, p: PrayerRequest)
    ensures (exists g :: g in Groups(types, reqs) && p in g.prayers)
        <==> p in reqs && p.prayerType in TypeIds(types)
  {
    GroupsAreTheNonEmptyTypes(types, reqs);
    if p in reqs && p.prayerType in TypeIds(types) {
      var t :| t in types && t.id == p.prayerType;
      assert p in OfType(reqs, t.id);
      assert Group(t, OfType(reqs, t.id)) in Groups(types, reqs);
    }
  }

  /** There are no groups exactly when no request has a type of the table. */
  lemma NoGroupsIffNoKnownType(types: seq<PrayerTypeInfo>, reqs: seq<PrayerRequest>)
    ensures Groups(types, reqs) == [] <==> forall p :: p in reqs ==> p.prayerType !in TypeIds(types)
  {
    if Groups(types, reqs) != [] {
      var g := Groups(types, reqs)[0];
      GroupsAreTheNonEmptyTypes(types, reqs);
      assert g in Groups(types, reqs);
      ShownIffTypeKnown(types, reqs, g.prayers[0]);
    } else {
      forall p | p in reqs ensures p.prayerType !in TypeIds(types) {
        ShownIffTypeKnown(types, reqs, p);
      }
    }
  }

  /** A request just appended shows last in its type's group. */
  lemma AddedRequestEndsItsGroup(reqs: seq<PrayerRequest>, p: PrayerRequest)
    ensures OfType(reqs + [p], p.prayerType) == OfType(reqs, p.prayerType) + [p]
  {
    Seqs.FilterAppend(reqs, [p], HasType(p.prayerType));
  }

  /** Appending a request leaves the groups of the other types as they were. */
  lemma AddedRequestLeavesOtherGroups(reqs: seq<PrayerRequest>, p: PrayerRequest, id: PrayerType)
    requires id != p.prayerType
    ensures OfType(reqs + [p], id) == OfType(reqs, id)
  {
    Seqs.FilterAppend(reqs, [p], HasType(id));
    assert OfType(reqs, id) + [] == OfType(reqs, id);
  }
}
