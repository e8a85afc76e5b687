// helper_scripts/build_permissions.py: the permission groups are built in
// ascending order of power from one accumulating list `all_permissions`.
// Every `add_permission` appends one codename to that list, and every group
// receives a snapshot of the whole list so far, so a group holds every
// permission of every group below it.
//
// A permission is identified by its codename; its display name and content
// type play no part in which groups hold it.
module Permissions {
  import opened Groups
  import opened Codenames
  import opened Hierarchy

  // The codenames each builder adds, in the order of its add_permission calls.
  const JustJoinedCodes: seq<Perm> := [ViewStaffer, CheckAvailabilityGear]
  const MemberCodes: seq<Perm> :=
    [IsActiveMember, RentGear, ViewGear, ViewDepartment, ViewCertification,
     ViewTransaction]
  const StaffCodes: seq<Perm> :=
    [AddGear, ChangeGear, ViewGeneralGear, AuthorizeTransactions, ViewMember,
     ViewAllMembers, ViewAllTransactions, AddMember, ChangeMember, ViewGearType,
     AddAlreadyUploadedImage, ViewMemberRfidCheck]
  const BoardCodes: seq<Perm> :=
    [ViewAllGear, RemoveGear, AddGearType, DeleteGearType, AddCustomDataField,
     ChangeCustomDataField, DeleteCustomDataField, AddStaffer, ChangeStaffer,
     AddDepartment, ChangeDepartment, DeleteDepartment, AddCertification,
     ChangeCertification, DeleteCertification]
  const AdminCodes: seq<Perm> :=
    [Perm.AddGroup, ChangeGroup, DeleteGroup, DeleteGear, DeleteStaffer, AddQuestion,
     ChangeQuestion, DeleteQuestion, AddAnswer, ChangeAnswer, DeleteAnswer,
     DeleteAlreadyUploadedImage, ChangeAlreadyUploadedImage, DeleteMember]

  /** The permissions the builder of group `r` adds before creating it. */
  function Added(r: Role): seq<Perm>
  {
    match r
    case JustJoined => JustJoinedCodes
    case Expired => []
    case Member => MemberCodes
    case Staff => StaffCodes
    case Board => BoardCodes
    case Admin => AdminCodes
  }

  /** `all_permissions` right after the builder of group `r` has run. */
  function Accumulated(r: Role): seq<Perm>
  {
    AccumulatedBy(Added, r)
  }

  /** The permission set group `r` is given. */
  function Granted(r: Role): set<Perm>
  {
    AsSet(Accumulated(r))
  }

  /** Monotonicity: a higher group holds every permission of every lower group. */
  lemma GrantedMonotonic(lo: Role, hi: Role)
    requires AtLeast(hi, lo)
    ensures Granted(lo) <= Granted(hi)
  {
    AccumulatedMonotonic(Added, lo, hi);
  }

  /** A permission only one builder adds is held from that group upwards, and only there. */
  lemma FirstGrantedAt(p: Perm, first: Role, r: Role)
    requires p in Added(first)
    requires forall s: Role :: s != first ==> p !in Added(s)
    ensures p in Granted(r) <==> AtLeast(r, first)
  {
    FirstAddedAt(Added, p, first, r);
  }

  /** Expired receives exactly Just Joined's permissions and nothing new. */
  lemma ExpiredSameAsJustJoined()
    ensures Granted(Expired) == Granted(JustJoined)
  {
    assert Accumulated(Expired) == Accumulated(JustJoined) + [];
  }

  /** `is_active_member` is first granted at Member. */
  lemma ActiveMemberFromMember(r: Role)
    ensures IsActiveMember in Granted(r) <==> AtLeast(r, Member)
  {
    FirstGrantedAt(IsActiveMember, Member, r);
  }

  /** `rent_gear` is first granted at Member. */
  lemma RentGearFromMember(r: Role)
    ensures RentGear in Granted(r) <==> AtLeast(r, Member)
  {
    FirstGrantedAt(RentGear, Member, r);
  }

  /** `add_gear` is first granted at Staff. */
  lemma AddGearFromStaff(r: Role)
    ensures AddGear in Granted(r) <==> AtLeast(r, Staff)
  {
    FirstGrantedAt(AddGear, Staff, r);
  }

  /** `change_gear` is first granted at Staff. */
  lemma ChangeGearFromStaff(r: Role)
    ensures ChangeGear in Granted(r) <==> AtLeast(r, Staff)
  {
    FirstGrantedAt(ChangeGear, Staff, r);
  }

  /** `authorize_transactions` is first granted at Staff. */
  lemma AuthorizeFromStaff(r: Role)
    ensures AuthorizeTransactions in Granted(r) <==> AtLeast(r, Staff)
  {
    FirstGrantedAt(AuthorizeTransactions, Staff, r);
  }

  /** `remove_gear` is first granted at Board. */
  lemma RemoveGearFromBoard(r: Role)
    ensures RemoveGear in Granted(r) <==> AtLeast(r, Board)
  {
    FirstGrantedAt(RemoveGear, Board, r);
  }

  /** `delete_gear` is granted to Admin only. */
  lemma DeleteGearOnlyAdmin(r: Role)
    ensures DeleteGear in Granted(r) <==> r == Admin
  {
    FirstGrantedAt(DeleteGear, Admin, r);
  }

  /**
   * The permission state the script works on: the module-level list
   * `all_permissions`, the codenames in the Permission table, and each
   * group's permission set keyed by group name.
   */
  class PermissionBuilder {
    var allPermissions: seq<Perm>
    var store: set<Perm>
    var groups: map<string, set<Perm>>

    /** The script's module state on import, over an existing database. */
    constructor (store: set<Perm>, groups: map<string, set<Perm>>)
      ensures this.allPermissions == [] && this.store == store && this.groups == groups
    {
      this.allPermissions := [];
      this.store := store;
      this.groups := groups;
    }

    /**
     * `add_permission`: create the permission unless the table already has
     * it, and append it to `all_permissions` in either case.
     */
    method AddPermission(codename: Perm)
      modifies this
      ensures groups == old(groups)
      ensures store == old(store) + {codename}
      ensures allPermissions == old(allPermissions) + [codename]
    {
      store := store + {codename};
      allPermissions := allPermissions + [codename];
    }

    /**
     * `add_group`: create the group unless one of that name exists, then
     * REPLACE (not extend) its permission set with `permissions`.
     */
    method AddGroup(name: string, permissions: seq<Perm>) returns (created: bool)
      modifies this
      ensures allPermissions == old(allPermissions) && store == old(store)
      ensures created == (name !in old(groups))
      ensures groups == old(groups)[name := AsSet(permissions)]
    {
      created := name !in groups;
      groups := groups[name := AsSet(permissions)];
    }

    method BuildJustJoined()
      modifies this
      ensures allPermissions == old(allPermissions) + JustJoinedCodes
      ensures store == old(store) + AsSet(JustJoinedCodes)
      ensures groups == old(groups)["Just Joined" := AsSet(allPermissions)]
    {
      ghost var before, storeBefore := allPermissions, store;
      AddPermission(ViewStaffer);
      AddPermission(CheckAvailabilityGear);
      assert allPermissions == before + JustJoinedCodes;
      assert store == storeBefore + {ViewStaffer} + {CheckAvailabilityGear};
      var _ := AddGroup("Just Joined", allPermissions);
    }

    method BuildExpired()
      modifies this
      ensures allPermissions == old(allPermissions) && store == old(store)
      ensures groups == old(groups)["Expired" := AsSet(allPermissions)]
    {
      var _ := AddGroup("Expired", allPermissions);
    }

    method BuildMember()
      modifies this
      ensures allPermissions == old(allPermissions) + MemberCodes
      ensures store == old(store) + AsSet(MemberCodes)
      ensures groups == old(groups)["Member" := AsSet(allPermissions)]
    {
      ghost var before, storeBefore := allPermissions, store;
      AddPermission(IsActiveMember);
      AddPermission(RentGear);
      AddPermission(ViewGear);
      AddPermission(ViewDepartment);
      AddPermission(ViewCertification);
      AddPermission(ViewTransaction);
      MemberAppended(before);
      MemberStored(storeBefore);
      MemberCodesSet();
      var _ := AddGroup("Member", allPermissions);
    }

    method BuildStaffer()
      modifies this
      ensures allPermissions == old(allPermissions) + StaffCodes
      ensures store == old(store) + AsSet(StaffCodes)
      ensures groups == old(groups)["Staff" := AsSet(allPermissions)]
    {
      ghost var before, storeBefore := allPermissions, store;
      AddPermission(AddGear);
      AddPermission(ChangeGear);
      AddPermission(ViewGeneralGear);
      AddPermission(AuthorizeTransactions);
      AddPermission(ViewMember);
      AddPermission(ViewAllMembers);
      AddPermission(ViewAllTransactions);
      AddPermission(AddMember);
      AddPermission(ChangeMember);
      AddPermission(ViewGearType);
      AddPermission(AddAlreadyUploadedImage);
      AddPermission(ViewMemberRfidCheck);
      StaffAppended(before);
      StaffStored(storeBefore);
      StaffCodesSet();
      var _ := AddGroup("Staff", allPermissions);
    }

    method BuildBoard()
      modifies this
      ensures allPermissions == old(allPermissions) + BoardCodes
      ensures store == old(store) + AsSet(BoardCodes)
      ensures groups == old(groups)["Board" := AsSet(allPermissions)]
    {
      ghost var before, storeBefore := allPermissions, store;
      AddPermission(ViewAllGear);
      AddPermission(RemoveGear);
      AddPermission(AddGearType);
      AddPermission(DeleteGearType);
      AddPermission(AddCustomDataField);
      AddPermission(ChangeCustomDataField);
      AddPermission(DeleteCustomDataField);
      AddPermission(AddStaffer);
      AddPermission(ChangeStaffer);
      AddPermission(AddDepartment);
      AddPermission(ChangeDepartment);
      AddPermission(DeleteDepartment);
      AddPermission(AddCertification);
      AddPermission(ChangeCertification);
      AddPermission(DeleteCertification);
      BoardAppended(before);
      BoardStored(storeBefore);
      BoardCodesSet();
      var _ := AddGroup("Board", allPermissions);
    }

    method BuildAdmin()
      modifies this
      ensures allPermissions == old(allPermissions) + AdminCodes
      ensures store == old(store) + AsSet(AdminCodes)
      ensures groups == old(groups)["Admin" := AsSet(allPermissions)]
    {
      ghost var before, storeBefore := allPermissions, store;
      AddPermission(Perm.AddGroup);
      AddPermission(ChangeGroup);
      AddPermission(DeleteGroup);
      AddPermission(DeleteGear);
      AddPermission(DeleteStaffer);
      AddPermission(AddQuestion);
      AddPermission(ChangeQuestion);
      AddPermission(DeleteQuestion);
      AddPermission(AddAnswer);
      AddPermission(ChangeAnswer);
      AddPermission(DeleteAnswer);
      AddPermission(DeleteAlreadyUploadedImage);
      AddPermission(ChangeAlreadyUploadedImage);
      AddPermission(DeleteMember);
      AdminAppended(before);
      AdminStored(storeBefore);
      AdminCodesSet();
      var _ := AddGroup("Admin", allPermissions);
    }

    /**
     * `build_all`: the six builders in ascending order.  `all_permissions`
     * is module state that nothing resets, so each group receives whatever
     * the list held before the run together with its own snapshot; on a
     * fresh import the list starts empty and each group holds exactly
     * `Granted` of its role.  Groups with other names are not touched.
     */
    method BuildAll()
      modifies this
      ensures groups == Built(old(groups), old(allPermissions))
      ensures forall r: Role :: Name(r) in groups && groups[Name(r)] == AsSet(old(allPermissions)) + Granted(r)
      ensures forall name :: name in old(groups) ==> name in groups
      ensures forall name :: name in groups && RoleNamed(name).None? ==>
                name in old(groups) && groups[name] == old(groups)[name]
      ensures allPermissions == old(allPermissions) + Accumulated(Admin)
      ensures store == old(store) + Granted(Admin)
    {
      ghost var prior := allPermissions;
      BuildJustJoined();
      assert allPermissions == prior + Accumulated(JustJoined);
      BuildExpired();
      assert allPermissions == prior + Accumulated(Expired);
      BuildMember();
      ConcatAssoc(prior, Accumulated(Expired), MemberCodes);
      assert allPermissions == prior + Accumulated(Member);
      BuildStaffer();
      ConcatAssoc(prior, Accumulated(Member), StaffCodes);
      assert allPermissions == prior + Accumulated(Staff);
      BuildBoard();
      ConcatAssoc(prior, Accumulated(Staff), BoardCodes);
      assert allPermissions == prior + Accumulated(Board);
      BuildAdmin();
      ConcatAssoc(prior, Accumulated(Board), AdminCodes);
      assert allPermissions == prior + Accumulated(Admin);
      BuiltGroups(old(groups), prior);
      GrantedAdminParts();
    }
  }

  /**
   * The groups `build_all` leaves over `groups` when the list held `prior`
   * before the run: each of the six is set to `prior` followed by its
   * role's snapshot.
   */
  function Built(groups: map<string, set<Perm>>, prior: seq<Perm>): map<string, set<Perm>>
  {
    groups["Just Joined" := AsSet(prior + Accumulated(JustJoined))]
          ["Expired" := AsSet(prior + Accumulated(Expired))]
          ["Member" := AsSet(prior + Accumulated(Member))]
          ["Staff" := AsSet(prior + Accumulated(Staff))]
          ["Board" := AsSet(prior + Accumulated(Board))]
          ["Admin" := AsSet(prior + Accumulated(Admin))]
  }

  /**
   * Each of the six groups holds what the list held before the run plus its
   * role's snapshot, no group is lost, and groups with other names keep
   * what they held.
   */
  lemma BuiltGroups(groups: map<string, set<Perm>>, prior: seq<Perm>)
    ensures forall r: Role :: Name(r) in Built(groups, prior)
              && Built(groups, prior)[Name(r)] == AsSet(prior) + Granted(r)
    ensures forall name :: name in groups ==> name in Built(groups, prior)
    ensures forall name :: name in Built(groups, prior) && RoleNamed(name).None? ==>
              name in groups && Built(groups, prior)[name] == groups[name]
  {
    var built := Built(groups, prior);
    forall r: Role ensures Name(r) in built && built[Name(r)] == AsSet(prior) + Granted(r) {
      AsSetConcat(prior, Accumulated(r));
      match r
      case JustJoined =>
      case Expired =>
      case Member =>
      case Staff =>
      case Board =>
      case Admin =>
    }
    forall name | RoleNamed(name).None?
      ensures name in built ==> name in groups && built[name] == groups[name]
    {
      assert forall x: Role :: Name(x) != name;
      assert Name(JustJoined) != name && Name(Expired) != name && Name(Member) != name;
      assert Name(Staff) != name && Name(Board) != name && Name(Admin) != name;
    }
  }

  /**
   * A second `build_all` in a fresh process, where the list starts empty
   * again, leaves the groups as the first run left them: `add_group`
   * replaces an existing group's permissions rather than failing.
   */
  lemma BuiltRerunFresh(groups: map<string, set<Perm>>)
    ensures Built(Built(groups, []), []) == Built(groups, [])
  {
  }

  /**
   * A second `build_all` in the same process starts from the list the first
   * run left, Admin's snapshot, so every one of the six groups, Just Joined
   * included, ends up holding Admin's permissions.
   */
  lemma BuiltRerunInProcess(groups: map<string, set<Perm>>, r: Role)
    ensures Name(r) in Built(Built(groups, []), Accumulated(Admin))
    ensures Built(Built(groups, []), Accumulated(Admin))[Name(r)] == Granted(Admin)
  {
    BuiltGroups(Built(groups, []), Accumulated(Admin));
    GrantedMonotonic(r, Admin);
  }

  /** Appending Member's codenames one by one appends `MemberCodes`. */
  lemma MemberAppended(s: seq<Perm>)
    ensures s + [IsActiveMember] + [RentGear] + [ViewGear] + [ViewDepartment] + [ViewCertification] + [ViewTransaction] == s + MemberCodes
  {
  }

  /** Storing Member's codenames one by one stores them all. */
  lemma MemberStored(t: set<Perm>)
    ensures t + {IsActiveMember} + {RentGear} + {ViewGear} + {ViewDepartment} + {ViewCertification} + {ViewTransaction} == t + {IsActiveMember, RentGear, ViewGear, ViewDepartment, ViewCertification, ViewTransaction}
  {
  }

  /** The set of `MemberCodes`, written out. */
  lemma MemberCodesSet()
    ensures AsSet(MemberCodes) == {IsActiveMember, RentGear, ViewGear, ViewDepartment, ViewCertification, ViewTransaction}
  {
  }

  /** Appending Staff's codenames one by one appends `StaffCodes`. */
  lemma StaffAppended(s: seq<Perm>)
    ensures s + [AddGear] + [ChangeGear] + [ViewGeneralGear] + [AuthorizeTransactions] + [ViewMember] + [ViewAllMembers] + [ViewAllTransactions] + [AddMember] + [ChangeMember] + [ViewGearType] + [AddAlreadyUploadedImage] + [ViewMemberRfidCheck] == s + StaffCodes
  {
  }

  /** Storing Staff's codenames one by one stores them all. */
  lemma StaffStored(t: set<Perm>)
    ensures t + {AddGear} + {ChangeGear} + {ViewGeneralGear} + {AuthorizeTransactions} + {ViewMember} + {ViewAllMembers} + {ViewAllTransactions} + {AddMember} + {ChangeMember} + {ViewGearType} + {AddAlreadyUploadedImage} + {ViewMemberRfidCheck} == t + {AddGear, ChangeGear, ViewGeneralGear, AuthorizeTransactions, ViewMember, ViewAllMembers, ViewAllTransactions, AddMember, ChangeMember, ViewGearType, AddAlreadyUploadedImage, ViewMemberRfidCheck}
  {
  }

  /** The set of `StaffCodes`, written out. */
  lemma StaffCodesSet()
    ensures AsSet(StaffCodes) == {AddGear, ChangeGear, ViewGeneralGear, AuthorizeTransactions, ViewMember, ViewAllMembers, ViewAllTransactions, AddMember, ChangeMember, ViewGearType, AddAlreadyUploadedImage, ViewMemberRfidCheck}
  {
  }

  /** Appending Board's codenames one by one appends `BoardCodes`. */
  lemma BoardAppended(s: seq<Perm>)
    ensures s + [ViewAllGear] + [RemoveGear] + [AddGearType] + [DeleteGearType] + [AddCustomDataField] + [ChangeCustomDataField] + [DeleteCustomDataField] + [AddStaffer] + [ChangeStaffer] + [AddDepartment] + [ChangeDepartment] + [DeleteDepartment] + [AddCertification] + [ChangeCertification] + [DeleteCertification] == s + BoardCodes
  {
  }

  /** Storing Board's codenames one by one stores them all. */
  lemma BoardStored(t: set<Perm>)
    ensures t + {ViewAllGear} + {RemoveGear} + {AddGearType} + {DeleteGearType} + {AddCustomDataField} + {ChangeCustomDataField} + {DeleteCustomDataField} + {AddStaffer} + {ChangeStaffer} + {AddDepartment} + {ChangeDepartment} + {DeleteDepartment} + {AddCertification} + {ChangeCertification} + {DeleteCertification} == t + {ViewAllGear, RemoveGear, AddGearType, DeleteGearType, AddCustomDataField, ChangeCustomDataField, DeleteCustomDataField, AddStaffer, ChangeStaffer, AddDepartment, ChangeDepartment, DeleteDepartment, AddCertification, ChangeCertification, DeleteCertification}
  {
  }

  /** The set of `BoardCodes`, written out. */
  lemma BoardCodesSet()
    ensures AsSet(BoardCodes) == {ViewAllGear, RemoveGear, AddGearType, DeleteGearType, AddCustomDataField, ChangeCustomDataField, DeleteCustomDataField, AddStaffer, ChangeStaffer, AddDepartment, ChangeDepartment, DeleteDepartment, AddCertification, ChangeCertification, DeleteCertification}
  {
  }

  /** Appending Admin's codenames one by one appends `AdminCodes`. */
  lemma AdminAppended(s: seq<Perm>)
    ensures s + [Perm.AddGroup] + [ChangeGroup] + [DeleteGroup] + [DeleteGear] + [DeleteStaffer] + [AddQuestion] + [ChangeQuestion] + [DeleteQuestion] + [AddAnswer] + [ChangeAnswer] + [DeleteAnswer] + [DeleteAlreadyUploadedImage] + [ChangeAlreadyUploadedImage] + [DeleteMember] == s + AdminCodes
  {
  }

  /** Storing Admin's codenames one by one stores them all. */
  lemma AdminStored(t: set<Perm>)
    ensures t + {Perm.AddGroup} + {ChangeGroup} + {DeleteGroup} + {DeleteGear} + {DeleteStaffer} + {AddQuestion} + {ChangeQuestion} + {DeleteQuestion} + {AddAnswer} + {ChangeAnswer} + {DeleteAnswer} + {DeleteAlreadyUploadedImage} + {ChangeAlreadyUploadedImage} + {DeleteMember} == t + {Perm.AddGroup, ChangeGroup, DeleteGroup, DeleteGear, DeleteStaffer, AddQuestion, ChangeQuestion, DeleteQuestion, AddAnswer, ChangeAnswer, DeleteAnswer, DeleteAlreadyUploadedImage, ChangeAlreadyUploadedImage, DeleteMember}
  {
  }

  /** The set of `AdminCodes`, written out. */
  lemma AdminCodesSet()
    ensures AsSet(AdminCodes) == {Perm.AddGroup, ChangeGroup, DeleteGroup, DeleteGear, DeleteStaffer, AddQuestion, ChangeQuestion, DeleteQuestion, AddAnswer, ChangeAnswer, DeleteAnswer, DeleteAlreadyUploadedImage, ChangeAlreadyUploadedImage, DeleteMember}
  {
  }

  /** Admin's permissions are exactly those the five non-empty builders add. */
  lemma GrantedAdminParts()
    ensures AsSet(Added(JustJoined)) + AsSet(Added(Member)) + AsSet(Added(Staff))
            + AsSet(Added(Board)) + AsSet(Added(Admin)) == Granted(Admin)
  {
    assert Accumulated(Admin) == Added(JustJoined) + [] + Added(Member) + Added(Staff)
                                 + Added(Board) + Added(Admin);
  }
}
