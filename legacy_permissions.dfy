// buildPermissions.py, the older permission script.  It accumulates
// `all_permissions` like helper_scripts/build_permissions.py, with three
// differences: every builder creates its group with `Group.objects.create`,
// which fails on a name that already exists and so aborts the whole run; no
// `is_active_member` permission exists; and Admin is given every permission in
// the Permission table rather than the accumulated list.
module LegacyPermissions {
  import opened Groups
  import opened Codenames
  import opened Hierarchy

  // The codenames each builder adds, in the order of its add_permission calls.
  const LegacyJustJoinedCodes: seq<Perm> := [ViewStaffer, CheckAvailabilityGear]
  const LegacyMemberCodes: seq<Perm> := [RentGear, ViewGear]
  const LegacyStaffCodes: seq<Perm> :=
    [AddGear, ChangeGear, CheckoutGear, CheckinGear, ViewMember, ViewAllTransactions,
     AddMember, ChangeInfoMember, ChangeMembership]
  const LegacyBoardCodes: seq<Perm> := [ViewAllGear, AddStaffer, AddDepartment, ChangeMember]

  /** The permissions the builder of group `r` adds; Admin's builder adds none. */
  function LegacyAdded(r: Role): seq<Perm>
  {
    match r
    case JustJoined => LegacyJustJoinedCodes
    case Expired => []
    case Member => LegacyMemberCodes
    case Staff => LegacyStaffCodes
    case Board => LegacyBoardCodes
    case Admin => []
  }

  /** `all_permissions` right after the builder of group `r` has run. */
  function LegacyAccumulated(r: Role): seq<Perm>
  {
    AccumulatedBy(LegacyAdded, r)
  }

  /** The permission set of every group but Admin, whose set is the whole table. */
  function LegacyGranted(r: Role): set<Perm>
  {
    AsSet(LegacyAccumulated(r))
  }

  /** Expired's permission set equals Just Joined's. */
  lemma LegacyExpiredSameAsJustJoined()
    ensures LegacyGranted(Expired) == LegacyGranted(JustJoined)
  {
    assert LegacyAccumulated(Expired) == LegacyAccumulated(JustJoined) + [];
  }

  /** Among the non-Admin groups, a higher group holds every permission of a lower one. */
  lemma LegacyGrantedMonotonic(lo: Role, hi: Role)
    requires AtLeast(hi, lo)
    ensures LegacyGranted(lo) <= LegacyGranted(hi)
  {
    AccumulatedMonotonic(LegacyAdded, lo, hi);
  }

  /** `rent_gear` and `view_gear` first appear at Member. */
  lemma LegacyRentAndViewFromMember(r: Role)
    requires r != Admin
    ensures RentGear in LegacyGranted(r) <==> AtLeast(r, Member)
    ensures ViewGear in LegacyGranted(r) <==> AtLeast(r, Member)
  {
    FirstAddedAt(LegacyAdded, RentGear, Member, r);
    FirstAddedAt(LegacyAdded, ViewGear, Member, r);
  }

  /** No builder of this version adds `is_active_member`. */
  lemma {:induction false} LegacyNoActiveMemberPermission(r: Role)
    ensures IsActiveMember !in LegacyGranted(r)
    decreases Rank(r)
  {
    AccumulatedIff(LegacyAdded, IsActiveMember, r);
    if r != JustJoined {
      LegacyNoActiveMemberPermission(Below(r));
    }
  }

  /** `checkout_gear` and `checkin_gear` are first granted at Staff. */
  lemma LegacyCheckoutCheckinFromStaff(r: Role)
    requires r != Admin
    ensures CheckoutGear in LegacyGranted(r) <==> AtLeast(r, Staff)
    ensures CheckinGear in LegacyGranted(r) <==> AtLeast(r, Staff)
  {
    FirstAddedAt(LegacyAdded, CheckoutGear, Staff, r);
    FirstAddedAt(LegacyAdded, CheckinGear, Staff, r);
  }

  /** `change_member` is first granted at Board. */
  lemma LegacyChangeMemberFromBoard(r: Role)
    requires r != Admin
    ensures ChangeMember in LegacyGranted(r) <==> AtLeast(r, Board)
  {
    FirstAddedAt(LegacyAdded, ChangeMember, Board, r);
  }

  /** The script's module state: `all_permissions`, the Permission table and the groups. */
  class LegacyBuilder {
    var allPermissions: seq<Perm>
    var store: set<Perm>
    var groups: map<string, set<Perm>>

    constructor (store: set<Perm>, groups: map<string, set<Perm>>)
      ensures this.allPermissions == [] && this.store == store && this.groups == groups
    {
      this.allPermissions := [];
      this.store := store;
      this.groups := groups;
    }

    /** `add_permission`: create or fetch the permission, appending it either way. */
    method AddPermission(codename: Perm)
      modifies this
      ensures groups == old(groups)
      ensures store == old(store) + {codename}
      ensures allPermissions == old(allPermissions) + [codename]
    {
      store := store + {codename};
      allPermissions := allPermissions + [codename];
    }

    /**
     * `Group.objects.create(name=...)`: group names are unique, so creating
     * one that exists raises and nothing is stored (`ok` is false).
     */
    method CreateGroup(name: string) returns (ok: bool)
      modifies this
      ensures allPermissions == old(allPermissions) && store == old(store)
      ensures ok == (name !in old(groups))
      ensures ok ==> groups == old(groups)[name := {}]
      ensures !ok ==> groups == old(groups)
    {
      ok := name !in groups;
      if ok {
        groups := groups[name := {}];
      }
    }

    /** `group.permissions.set(...)` on a group created just before. */
    method SetPermissions(name: string, permissions: set<Perm>)
      modifies this
      ensures allPermissions == old(allPermissions) && store == old(store)
      ensures groups == old(groups)[name := permissions]
    {
      groups := groups[name := permissions];
    }

    method BuildJustJoined() returns (ok: bool)
      modifies this
      ensures ok == ("Just Joined" !in old(groups))
      ensures ok ==> allPermissions == old(allPermissions) + LegacyJustJoinedCodes
      ensures ok ==> store == old(store) + AsSet(LegacyJustJoinedCodes)
      ensures ok ==> groups == old(groups)["Just Joined" := AsSet(allPermissions)]
      ensures !ok ==> allPermissions == old(allPermissions) && store == old(store) && groups == old(groups)
    {
      ok := CreateGroup("Just Joined");
      if !ok {
        return;
      }
      ghost var before, storeBefore := allPermissions, store;
      AddPermission(ViewStaffer);
      AddPermission(CheckAvailabilityGear);
      assert allPermissions == before + LegacyJustJoinedCodes;
      assert store == storeBefore + {ViewStaffer} + {CheckAvailabilityGear};
      SetPermissions("Just Joined", AsSet(allPermissions));
      UpdateTwice(old(groups), "Just Joined", {}, AsSet(allPermissions));
    }

    method BuildExpired() returns (ok: bool)
      modifies this
      ensures ok == ("Expired" !in old(groups))
      ensures allPermissions == old(allPermissions) && store == old(store)
      ensures ok ==> groups == old(groups)["Expired" := AsSet(allPermissions)]
      ensures !ok ==> groups == old(groups)
    {
      ok := CreateGroup("Expired");
      if !ok {
        return;
      }
      SetPermissions("Expired", AsSet(allPermissions));
      UpdateTwice(old(groups), "Expired", {}, AsSet(allPermissions));
    }

    method BuildMember() returns (ok: bool)
      modifies this
      ensures ok == ("Member" !in old(groups))
      ensures ok ==> allPermissions == old(allPermissions) + LegacyMemberCodes
      ensures ok ==> store == old(store) + AsSet(LegacyMemberCodes)
      ensures ok ==> groups == old(groups)["Member" := AsSet(allPermissions)]
      ensures !ok ==> allPermissions == old(allPermissions) && store == old(store) && groups == old(groups)
    {
      ok := CreateGroup("Member");
      if !ok {
        return;
      }
      ghost var before, storeBefore := allPermissions, store;
      AddPermission(RentGear);
      AddPermission(ViewGear);
      assert allPermissions == before + LegacyMemberCodes;
      assert store == storeBefore + {RentGear} + {ViewGear};
      SetPermissions("Member", AsSet(allPermissions));
      UpdateTwice(old(groups), "Member", {}, AsSet(allPermissions));
    }

    method BuildStaffer() returns (ok: bool)
      modifies this
      ensures ok == ("Staff" !in old(groups))
      ensures ok ==> allPermissions == old(allPermissions) + LegacyStaffCodes
      ensures ok ==> store == old(store) + AsSet(LegacyStaffCodes)
      ensures ok ==> groups == old(groups)["Staff" := AsSet(allPermissions)]
      ensures !ok ==> allPermissions == old(allPermissions) && store == old(store) && groups == old(groups)
    {
      ok := CreateGroup("Staff");
      if !ok {
        return;
      }
      ghost var before, storeBefore := allPermissions, store;
      AddPermission(AddGear);
      AddPermission(ChangeGear);
      AddPermission(CheckoutGear);
      AddPermission(CheckinGear);
      AddPermission(ViewMember);
      AddPermission(ViewAllTransactions);
      AddPermission(AddMember);
      AddPermission(ChangeInfoMember);
      AddPermission(ChangeMembership);
      LegacyStaffAppended(before);
      LegacyStaffStored(storeBefore);
      LegacyStaffCodesSet();
      SetPermissions("Staff", AsSet(allPermissions));
      UpdateTwice(old(groups), "Staff", {}, AsSet(allPermissions));
    }

    method BuildBoard() returns (ok: bool)
      modifies this
      ensures ok == ("Board" !in old(groups))
      ensures ok ==> allPermissions == old(allPermissions) + LegacyBoardCodes
      ensures ok ==> store == old(store) + AsSet(LegacyBoardCodes)
      ensures ok ==> groups == old(groups)["Board" := AsSet(allPermissions)]
      ensures !ok ==> allPermissions == old(allPermissions) && store == old(store) && groups == old(groups)
    {
      ok := CreateGroup("Board");
      if !ok {
        return;
      }
      ghost var before, storeBefore := allPermissions, store;
      AddPermission(ViewAllGear);
      AddPermission(AddStaffer);
      AddPermission(AddDepartment);
      AddPermission(ChangeMember);
      assert allPermissions == before + LegacyBoardCodes;
      assert store == storeBefore + {ViewAllGear} + {AddStaffer} + {AddDepartment} + {ChangeMember};
      SetPermissions("Board", AsSet(allPermissions));
      UpdateTwice(old(groups), "Board", {}, AsSet(allPermissions));
    }

    /** `build_admin`: the Admin group gets the whole Permission table. */
    method BuildAdmin() returns (ok: bool)
      modifies this
      ensures ok == ("Admin" !in old(groups))
      ensures allPermissions == old(allPermissions) && store == old(store)
      ensures ok ==> groups == old(groups)["Admin" := store]
      ensures !ok ==> groups == old(groups)
    {
      ok := CreateGroup("Admin");
      if !ok {
        return;
      }
      SetPermissions("Admin", store);
      UpdateTwice(old(groups), "Admin", {}, store);
    }

    /**
     * `build_all`: the six builders in ascending order.  The first group
     * that already exists raises and stops the run, leaving the groups the
     * builders before it created, and the codenames they appended, in
     * place.  `all_permissions` is module state that nothing resets, so
     * every group receives what the list held before the run as well.
     * The run succeeds exactly when none of the six names exists yet.
     */
    method BuildAll() returns (ok: bool)
      modifies this
      ensures ok <==> NoneBuilt(old(groups))
      ensures ok ==> allPermissions == old(allPermissions) + LegacyAccumulated(Board)
      ensures ok ==> store == old(store) + LegacyGranted(Board)
      ensures ok ==> groups == LegacyBuilt(old(groups), old(allPermissions), store)
      ensures !ok ==> Stopped(old(groups), old(allPermissions), old(store), groups, allPermissions, store)
    {
      ghost var g0, p0, s0 := groups, allPermissions, store;
      assert Stage(g0, p0, s0, 0, groups, allPermissions, store);
      ok := BuildJustJoined();
      LegacyStep(g0, p0, s0, 0, old(groups), old(allPermissions), old(store), ok, groups, allPermissions, store);
      if !ok {
        return;
      }
      label Expired:
      ok := BuildExpired();
      LegacyStep(g0, p0, s0, 1, old@Expired(groups), old@Expired(allPermissions), old@Expired(store),
                 ok, groups, allPermissions, store);
      if !ok {
        return;
      }
      label Member:
      ok := BuildMember();
      LegacyStep(g0, p0, s0, 2, old@Member(groups), old@Member(allPermissions), old@Member(store),
                 ok, groups, allPermissions, store);
      if !ok {
        return;
      }
      label Staff:
      ok := BuildStaffer();
      LegacyStep(g0, p0, s0, 3, old@Staff(groups), old@Staff(allPermissions), old@Staff(store),
                 ok, groups, allPermissions, store);
      if !ok {
        return;
      }
      label Board:
      ok := BuildBoard();
      LegacyStep(g0, p0, s0, 4, old@Board(groups), old@Board(allPermissions), old@Board(store),
                 ok, groups, allPermissions, store);
      if !ok {
        return;
      }
      label Admin:
      ok := BuildAdmin();
      LegacyLastStep(g0, p0, s0, old@Admin(groups), old@Admin(allPermissions), old@Admin(store),
                     ok, groups, allPermissions, store);
    }
  }

  /**
   * Groups `g`, list `p` and table `s` are what the first `k` builders of a
   * run that started from `g0`, `p0` and `s0` leave when all of them succeed.
   */
  predicate Stage(g0: map<string, set<Perm>>, p0: seq<Perm>, s0: set<Perm>, k: nat,
                  g: map<string, set<Perm>>, p: seq<Perm>, s: set<Perm>)
    requires k <= 5
  {
    Succeeding(g0) >= k && g == LegacyPartial(g0, p0, k)
    && p == p0 + LegacyAddedBefore(k) && s == s0 + AsSet(LegacyAddedBefore(k))
  }

  /**
   * One builder below Admin, run from stage `k` with groups `g`, list `p`
   * and table `s` and leaving `g'`, `p'` and `s'`: it succeeds exactly when
   * its group is not the lowest that already existed, and then reaches
   * stage `k + 1`; otherwise the run stops with the state of stage `k`.
   */
  lemma LegacyStep(g0: map<string, set<Perm>>, p0: seq<Perm>, s0: set<Perm>, k: nat,
                   g: map<string, set<Perm>>, p: seq<Perm>, s: set<Perm>, ok: bool,
                   g': map<string, set<Perm>>, p': seq<Perm>, s': set<Perm>)
    requires k < 5 && Stage(g0, p0, s0, k, g, p, s)
    requires ok == (Name(RoleOfRank(k)) !in g)
    requires ok ==> p' == p + LegacyAdded(RoleOfRank(k)) && s' == s + AsSet(LegacyAdded(RoleOfRank(k)))
                    && g' == g[Name(RoleOfRank(k)) := AsSet(p')]
    requires !ok ==> g' == g && p' == p && s' == s
    ensures ok ==> Stage(g0, p0, s0, k + 1, g', p', s')
    ensures !ok ==> Stopped(g0, p0, s0, g', p', s')
  {
    LegacyStepDecides(g0, p0, k);
    LegacyAdvance(p0, s0, k);
  }

  /** Admin's builder, run from stage 5: it finishes the run or stops it at stage 5. */
  lemma LegacyLastStep(g0: map<string, set<Perm>>, p0: seq<Perm>, s0: set<Perm>,
                       g: map<string, set<Perm>>, p: seq<Perm>, s: set<Perm>, ok: bool,
                       g': map<string, set<Perm>>, p': seq<Perm>, s': set<Perm>)
    requires Stage(g0, p0, s0, 5, g, p, s)
    requires ok == ("Admin" !in g) && p' == p && s' == s
    requires ok ==> g' == g["Admin" := s']
    requires !ok ==> g' == g
    ensures ok <==> NoneBuilt(g0)
    ensures ok ==> p' == p0 + LegacyAccumulated(Board) && s' == s0 + LegacyGranted(Board)
                   && g' == LegacyBuilt(g0, p0, s')
    ensures !ok ==> Stopped(g0, p0, s0, g', p', s')
  {
    LegacyStepDecides(g0, p0, 5);
  }

  /**
   * A run from `g0`, `p0` and `s0` that stopped at the lowest group that
   * already existed leaves groups `g`, list `p` and table `s`.
   */
  predicate Stopped(g0: map<string, set<Perm>>, p0: seq<Perm>, s0: set<Perm>,
                    g: map<string, set<Perm>>, p: seq<Perm>, s: set<Perm>)
  {
    var n := Succeeding(g0);
    n < 6 && g == LegacyPartial(g0, p0, n)
    && p == p0 + LegacyAddedBefore(n) && s == s0 + AsSet(LegacyAddedBefore(n))
  }

  /**
   * What a stopped run leaves, group by group: each group below the one
   * that already existed holds the earlier list plus its snapshot, and
   * every other name, the existing group included, is as it was.
   */
  lemma LegacyStoppedGroups(g0: map<string, set<Perm>>, p0: seq<Perm>, s0: set<Perm>,
                            g: map<string, set<Perm>>, p: seq<Perm>, s: set<Perm>, r: Role, name: string)
    requires Stopped(g0, p0, s0, g, p, s)
    ensures Name(RoleOfRank(Succeeding(g0))) in g0
    ensures Rank(r) < Succeeding(g0) ==> Name(r) in g && g[Name(r)] == AsSet(p0) + LegacyGranted(r)
    ensures Untouched(name, Succeeding(g0)) ==> (name in g <==> name in g0)
    ensures Untouched(name, Succeeding(g0)) && name in g0 ==> g[name] == g0[name]
  {
    if Rank(r) < Succeeding(g0) {
      LegacyPartialBuilt(g0, p0, Succeeding(g0), r);
    }
    if Untouched(name, Succeeding(g0)) {
      LegacyPartialKeeps(g0, p0, Succeeding(g0), name);
    }
  }

  /** None of the six group names exists in `groups`. */
  predicate NoneBuilt(groups: map<string, set<Perm>>)
  {
    "Just Joined" !in groups && "Expired" !in groups && "Member" !in groups
    && "Staff" !in groups && "Board" !in groups && "Admin" !in groups
  }

  /**
   * How many builders of a run over `groups` succeed: the rank of the
   * lowest of the six groups that already exists, or 6 when none does.
   */
  function Succeeding(groups: map<string, set<Perm>>): (n: nat)
    ensures n <= 6
    ensures forall r: Role :: Rank(r) < n ==> Name(r) !in groups
    ensures n < 6 ==> Name(RoleOfRank(n)) in groups
    ensures n == 6 <==> NoneBuilt(groups)
  {
    if "Just Joined" in groups then 0
    else if "Expired" in groups then 1
    else if "Member" in groups then 2
    else if "Staff" in groups then 3
    else if "Board" in groups then 4
    else if "Admin" in groups then 5
    else 6
  }

  /** What the first `n` builders append to `all_permissions`. */
  function LegacyAddedBefore(n: nat): seq<Perm>
    requires n <= 6
  {
    if n == 0 then [] else LegacyAccumulated(RoleOfRank(n - 1))
  }

  /**
   * The groups after the first `n` builders of a run over `groups` whose
   * list held `prior` have succeeded (Admin's, the sixth, gets the table
   * and is added by `LegacyBuilt`).
   */
  function LegacyPartial(groups: map<string, set<Perm>>, prior: seq<Perm>, n: nat): map<string, set<Perm>>
    requires n <= 5
  {
    if n == 0 then groups
    else LegacyPartial(groups, prior, n - 1)[Name(RoleOfRank(n - 1)) := AsSet(prior + LegacyAccumulated(RoleOfRank(n - 1)))]
  }

  /** The groups after a successful run over `groups`, with Permission table `table`. */
  function LegacyBuilt(groups: map<string, set<Perm>>, prior: seq<Perm>, table: set<Perm>): map<string, set<Perm>>
  {
    LegacyPartial(groups, prior, 5)["Admin" := table]
  }

  /**
   * After the first `n` builders each of their groups holds the earlier
   * list plus its accumulated snapshot.
   */
  lemma {:induction false} LegacyPartialBuilt(groups: map<string, set<Perm>>, prior: seq<Perm>, n: nat, r: Role)
    requires n <= 5 && Rank(r) < n
    ensures Name(r) in LegacyPartial(groups, prior, n)
    ensures LegacyPartial(groups, prior, n)[Name(r)] == AsSet(prior) + LegacyGranted(r)
  {
    var top := RoleOfRank(n - 1);
    if r == top {
      AsSetConcat(prior, LegacyAccumulated(top));
    } else {
      LegacyPartialBuilt(groups, prior, n - 1, r);
      NameRoundTrip(r);
      NameRoundTrip(top);
    }
  }

  /**
   * After the first `n` builders every other name, the groups not yet
   * built included, is present exactly when it was and holds what it held.
   */
  lemma {:induction false} LegacyPartialKeeps(groups: map<string, set<Perm>>, prior: seq<Perm>, n: nat, name: string)
    requires n <= 5 && Untouched(name, n)
    ensures name in LegacyPartial(groups, prior, n) <==> name in groups
    ensures name in groups ==> LegacyPartial(groups, prior, n)[name] == groups[name]
  {
    if n > 0 {
      NameRoundTrip(RoleOfRank(n - 1));
      assert name != Name(RoleOfRank(n - 1));
      LegacyPartialKeeps(groups, prior, n - 1, name);
    }
  }

  /** `name` is not one of the groups the first `n` builders create. */
  predicate Untouched(name: string, n: nat)
  {
    RoleNamed(name).None? || Rank(RoleNamed(name).value) >= n
  }

  /**
   * Once the first `k` builders have succeeded, the `k`-th one fails
   * exactly when its group is the lowest that already existed.
   */
  lemma LegacyStepDecides(g0: map<string, set<Perm>>, p0: seq<Perm>, k: nat)
    requires k <= 5 && Succeeding(g0) >= k
    ensures Name(RoleOfRank(k)) in LegacyPartial(g0, p0, k) <==> Succeeding(g0) == k
  {
    NameRoundTrip(RoleOfRank(k));
    LegacyPartialKeeps(g0, p0, k, Name(RoleOfRank(k)));
  }

  /** One more successful builder extends the list and the table by what it adds. */
  lemma LegacyAdvance(p0: seq<Perm>, s0: set<Perm>, k: nat)
    requires k < 5
    ensures (p0 + LegacyAddedBefore(k)) + LegacyAdded(RoleOfRank(k)) == p0 + LegacyAddedBefore(k + 1)
    ensures s0 + AsSet(LegacyAddedBefore(k)) + AsSet(LegacyAdded(RoleOfRank(k))) == s0 + AsSet(LegacyAddedBefore(k + 1))
    ensures LegacyAddedBefore(k + 1) == LegacyAccumulated(RoleOfRank(k))
  {
    assert LegacyAddedBefore(k + 1) == LegacyAddedBefore(k) + LegacyAdded(RoleOfRank(k));
    ConcatAssoc(p0, LegacyAddedBefore(k), LegacyAdded(RoleOfRank(k)));
    AsSetConcat(LegacyAddedBefore(k), LegacyAdded(RoleOfRank(k)));
  }

  /**
   * After a successful run every group below Admin holds the earlier list
   * plus its accumulated snapshot and Admin holds the whole table.
   */
  lemma LegacyBuiltGroups(groups: map<string, set<Perm>>, prior: seq<Perm>, table: set<Perm>, r: Role)
    ensures Name(r) in LegacyBuilt(groups, prior, table)
    ensures r != Admin ==> LegacyBuilt(groups, prior, table)[Name(r)] == AsSet(prior) + LegacyGranted(r)
    ensures LegacyBuilt(groups, prior, table)["Admin"] == table
  {
    if r != Admin {
      LegacyPartialBuilt(groups, prior, 5, r);
      NameRoundTrip(r);
    }
  }

  /** A successful run leaves a group with any other name as it was. */
  lemma LegacyBuiltKeeps(groups: map<string, set<Perm>>, prior: seq<Perm>, table: set<Perm>, name: string)
    requires RoleNamed(name).None?
    ensures name in LegacyBuilt(groups, prior, table) <==> name in groups
    ensures name in groups ==> LegacyBuilt(groups, prior, table)[name] == groups[name]
  {
    assert name != Name(Admin);
    LegacyPartialKeeps(groups, prior, 5, name);
  }

  /** A successful run leaves all six names in place, so running it again fails. */
  lemma LegacyNotRerunnable(groups: map<string, set<Perm>>, prior: seq<Perm>, table: set<Perm>)
    ensures !NoneBuilt(LegacyBuilt(groups, prior, table))
  {
  }

  /** Setting a key twice keeps only the second value. */
  lemma UpdateTwice(m: map<string, set<Perm>>, k: string, a: set<Perm>, b: set<Perm>)
    ensures m[k := a][k := b] == m[k := b]
  {
  }

  /** Appending Staff's codenames one by one appends `LegacyStaffCodes`. */
  lemma LegacyStaffAppended(s: seq<Perm>)
    ensures s + [AddGear] + [ChangeGear] + [CheckoutGear] + [CheckinGear] + [ViewMember] + [ViewAllTransactions] + [AddMember] + [ChangeInfoMember] + [ChangeMembership] == s + LegacyStaffCodes
  {
  }

  /** Storing Staff's codenames one by one stores them all. */
  lemma LegacyStaffStored(t: set<Perm>)
    ensures t + {AddGear} + {ChangeGear} + {CheckoutGear} + {CheckinGear} + {ViewMember} + {ViewAllTransactions} + {AddMember} + {ChangeInfoMember} + {ChangeMembership} == t + {AddGear, ChangeGear, CheckoutGear, CheckinGear, ViewMember, ViewAllTransactions, AddMember, ChangeInfoMember, ChangeMembership}
  {
  }

  /** The set of `LegacyStaffCodes`, written out. */
  lemma LegacyStaffCodesSet()
    ensures AsSet(LegacyStaffCodes) == {AddGear, ChangeGear, CheckoutGear, CheckinGear, ViewMember, ViewAllTransactions, AddMember, ChangeInfoMember, ChangeMembership}
  {
  }

  /** Board's set is the union of what the four non-empty builders below Admin add. */
  lemma LegacyBoardParts()
    ensures AsSet(LegacyJustJoinedCodes) + AsSet(LegacyMemberCodes) + AsSet(LegacyStaffCodes)
            + AsSet(LegacyBoardCodes) == LegacyGranted(Board)
  {
    assert LegacyAccumulated(Board) == LegacyJustJoinedCodes + [] + LegacyMemberCodes
                                       + LegacyStaffCodes + LegacyBoardCodes;
  }
}
