// The accumulation scheme both permission scripts share: the groups are built
// in ascending order, each builder appends its codenames to one list
// `all_permissions`, and each group is given the set of that whole list.
// `added(r)` is what the builder of `r` appends; the two scripts differ only
// in it.
module Hierarchy {
  import opened Groups
  import opened Codenames

  /** The set of permissions listed in `s`, as `group.permissions.set(s)` stores it. */
  function AsSet(s: seq<Perm>): set<Perm>
  {
    set p | p in s
  }

  /** The set of a concatenation is the union of the sets. */
  lemma AsSetConcat(a: seq<Perm>, b: seq<Perm>)
    ensures AsSet(a + b) == AsSet(a) + AsSet(b)
  {
    assert forall p :: p in a + b <==> p in a || p in b;
  }

  /** Appending in two steps appends the concatenation. */
  lemma ConcatAssoc(a: seq<Perm>, b: seq<Perm>, c: seq<Perm>)
    ensures (a + b) + c == a + (b + c)
  {
  }

  /** `all_permissions` right after the builder of group `r` has run. */
  function AccumulatedBy(added: Role -> seq<Perm>, r: Role): seq<Perm>
    decreases Rank(r)
  {
    if r == JustJoined then added(JustJoined) else AccumulatedBy(added, Below(r)) + added(r)
  }

  /** Some builder at or below `r` adds `p`. */
  predicate AddedUpTo(added: Role -> seq<Perm>, p: Perm, r: Role)
    decreases Rank(r)
  {
    p in added(r) || (r != JustJoined && AddedUpTo(added, p, Below(r)))
  }

  /** Whatever the builders add, a higher snapshot contains every lower one. */
  lemma {:induction false} AccumulatedMonotonic(added: Role -> seq<Perm>, lo: Role, hi: Role)
    requires AtLeast(hi, lo)
    ensures AsSet(AccumulatedBy(added, lo)) <= AsSet(AccumulatedBy(added, hi))
    decreases Rank(hi)
  {
    if hi != lo {
      var b := Below(hi);
      AccumulatedMonotonic(added, lo, b);
      assert AccumulatedBy(added, hi) == AccumulatedBy(added, b) + added(hi);
    }
  }

  /** The snapshot of `r` holds `p` exactly when a builder at or below `r` added it. */
  lemma {:induction false} AccumulatedIff(added: Role -> seq<Perm>, p: Perm, r: Role)
    ensures p in AsSet(AccumulatedBy(added, r)) <==> AddedUpTo(added, p, r)
    decreases Rank(r)
  {
    if r != JustJoined {
      AccumulatedIff(added, p, Below(r));
      assert AccumulatedBy(added, r) == AccumulatedBy(added, Below(r)) + added(r);
    }
  }

  /** A permission only one builder adds is held from that group upwards, and only there. */
  lemma {:induction false} FirstAddedAt(added: Role -> seq<Perm>, p: Perm, first: Role, r: Role)
    requires p in added(first)
    requires forall s: Role :: s != first ==> p !in added(s)
    ensures p in AsSet(AccumulatedBy(added, r)) <==> AtLeast(r, first)
    decreases Rank(r)
  {
    AccumulatedIff(added, p, r);
    if r != JustJoined && r != first {
      FirstAddedAt(added, p, first, Below(r));
      AccumulatedIff(added, p, Below(r));
    }
  }
}
