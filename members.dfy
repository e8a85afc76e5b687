// core/models/MemberModels.py: the member record and its lifecycle.  Every
// change of group goes through `move_to_group`, which sets both the group
// relation and the `group` shortcut field.  Dates are day numbers counted from
// 1970-01-01; `datetime` only holds days in [MinDay, MaxDay] and raises
// OverflowError outside them.
module Members {
  import opened Common
  import opened Strings
  import opened Groups
  import opened Codenames
  import opened Permissions

  /** 0001-01-01 and 9999-12-31, the range of Python's `datetime`, as day numbers. */
  const MinDay: int := -719162
  const MaxDay: int := 2932896

  /** `settings.CLUB_EMAIL` in uwccsystem/settings/base.py. */
  const ClubEmail: string := "@climbingclubuw.org"

  predicate InRange(day: int)
  {
    MinDay <= day <= MaxDay
  }

  /**
   * `create_member`'s expiry: now + duration, or `datetime.max` when that
   * addition overflows.
   */
  function ExpiryAfter(now: int, duration: int): (day: int)
    ensures InRange(day)
    ensures InRange(now + duration) <==> day == now + duration
    ensures !InRange(now + duration) ==> day == MaxDay
  {
    if InRange(now + duration) then now + duration else MaxDay
  }

  /** `has_name`: both names are set and non-empty. */
  predicate HasName(first: Option<string>, last: Option<string>)
  {
    first.Some? && first.value != "" && last.Some? && last.value != ""
  }

  /** `get_full_name`: "first last" when both names are known, else "New Member". */
  function FullName(first: Option<string>, last: Option<string>): (name: string)
    ensures HasName(first, last) ==>
              |name| == |first.value| + 1 + |last.value| && first.value <= name
              && name[|first.value|] == ' ' && name[|first.value| + 1..] == last.value
    ensures !HasName(first, last) ==> name == "New Member"
  {
    if HasName(first, last) then first.value + " " + last.value else "New Member"
  }

  /** `__str__`: the full name when known, otherwise the email. */
  function Display(first: Option<string>, last: Option<string>, email: string): (s: string)
    ensures HasName(first, last) ==> s == FullName(first, last)
    ensures !HasName(first, last) ==> s == email
  {
    if HasName(first, last) then FullName(first, last) else email
  }

  /** A displayed member is shown by full name exactly when the name is known. */
  lemma DisplayIsFullName(first: Option<string>, last: Option<string>, email: string)
    requires email != "New Member"
    ensures Display(first, last, email) == FullName(first, last) <==> HasName(first, last)
  {
  }

  /** `is_staffer`: the group shortcut names Staff, Board or Admin. */
  predicate IsStafferName(group: string)
  {
    group == "Staff" || group == "Board" || group == "Admin"
  }

  /** The shortcut test agrees with the hierarchy: a staffer is exactly Staff or above. */
  lemma StafferIffAtLeastStaff(r: Role)
    ensures IsStafferName(Name(r)) <==> AtLeast(r, Staff)
  {
  }

  /**
   * `is_active_member`: Django grants a permission only to an active user,
   * through any of the user's groups.
   */
  predicate ActiveMember(isActive: bool, groups: set<Role>)
  {
    isActive && exists r :: r in groups && IsActiveMember in Granted(r)
  }

  /** A member of exactly one group is an active member iff that group is Member or above. */
  lemma ActiveMemberIffAtLeastMember(isActive: bool, r: Role)
    ensures ActiveMember(isActive, {r}) <==> isActive && AtLeast(r, Member)
  {
    ActiveMemberFromMember(r);
  }

  /** A member's fields as a value: what queries over all members read, and what the batch tasks keep. */
  datatype MemberView = MemberView(
    email: string,
    rfid: string,
    password: Option<string>,
    firstName: Option<string>,
    lastName: Option<string>,
    group: string,
    groups: set<Role>,
    isActive: bool,
    dateExpires: int)

  class Member {
    var email: string
    var rfid: string
    var dateExpires: int
    var password: Option<string>
    var firstName: Option<string>
    var lastName: Option<string>
    var isActive: bool
    /** The groups relation. */
    var groups: set<Role>
    /** The `group` shortcut field. */
    var group: string

    /** `self.model(email=..., rfid=..., date_expires=...)` with the field defaults. */
    constructor (email: string, rfid: string, dateExpires: int, password: Option<string>)
      ensures this.email == email && this.rfid == rfid && this.dateExpires == dateExpires
      ensures this.password == password
      ensures firstName.None? && lastName.None? && isActive
      ensures groups == {} && group == "Unset"
    {
      this.email := email;
      this.rfid := rfid;
      this.dateExpires := dateExpires;
      this.password := password;
      firstName := None;
      lastName := None;
      isActive := true;
      groups := {};
      group := "Unset";
    }

    /** The group relation and the shortcut agree on one single group. */
    ghost predicate InOneGroup()
      reads this
    {
      exists r :: groups == {r} && group == Name(r)
    }

    /** `is_active_member` */
    predicate IsActiveMemberNow()
      reads this
    {
      ActiveMember(isActive, groups)
    }

    /** The member's fields as a value. */
    function View(): MemberView
      reads this
    {
      MemberView(email, rfid, password, firstName, lastName, group, groups, isActive, dateExpires)
    }

    /** `is_staffer` */
    predicate IsStaffer()
      reads this
    {
      IsStafferName(group)
    }

    /**
     * `move_to_group`: the group relation is replaced by the groups of that
     * name (none, if the name is unknown), and then the shortcut is set from
     * the first of them; with no such group that indexing raises, so the
     * shortcut keeps its old value and `ok` is false.  The six groups are
     * taken to exist in the database, as the permission scripts create
     * them: a known name always finds its group here.
     */
    method MoveToGroup(name: string) returns (ok: bool)
      modifies this`groups, this`group
      ensures ok <==> RoleNamed(name).Some?
      ensures ok ==> groups == {RoleNamed(name).value} && group == name
      ensures !ok ==> groups == {} && group == old(group)
      ensures ok ==> InOneGroup()
    {
      var found := RoleNamed(name);
      match found
      case None =>
        groups := {};
        ok := false;
      case Some(r) =>
        groups := {r};
        group := Name(r);
        ok := true;
    }

    /** `expire`: move to Expired. */
    method Expire()
      modifies this`groups, this`group
      ensures groups == {Expired} && group == "Expired"
      ensures InOneGroup() && !IsStaffer()
    {
      var _ := MoveToGroup("Expired");
    }

    /** `promote_to_active`: Staff, Board and Admin stay; anyone else becomes Member. */
    method PromoteToActive()
      modifies this`groups, this`group
      ensures IsStafferName(old(group)) ==> groups == old(groups) && group == old(group)
      ensures !IsStafferName(old(group)) ==> groups == {Member} && group == "Member"
    {
      if group == "Staff" || group == "Board" || group == "Admin" {
      } else {
        var _ := MoveToGroup("Member");
      }
    }

    /**
     * `extend_membership`: always back to Just Joined; a lapsed membership
     * restarts from today, a running one is lengthened.  A non-empty rfid or
     * password replaces the stored one.  An expiry outside `datetime`'s
     * range raises after the group move (`ok` false, nothing else changed).
     */
    method ExtendMembership(duration: int, newRfid: string, newPassword: string, today: int)
      returns (ok: bool)
      modifies this
      ensures groups == {JustJoined} && group == "Just Joined"
      ensures ok <==> InRange(if old(dateExpires) < today then today + duration else old(dateExpires) + duration)
      ensures ok && old(dateExpires) < today ==> dateExpires == today + duration
      ensures ok && old(dateExpires) >= today ==> dateExpires == old(dateExpires) + duration
      ensures ok ==> rfid == (if newRfid != "" then newRfid else old(rfid))
      ensures ok ==> password == (if newPassword != "" then Some(newPassword) else old(password))
      ensures !ok ==> dateExpires == old(dateExpires) && rfid == old(rfid) && password == old(password)
      ensures email == old(email) && firstName == old(firstName) && lastName == old(lastName)
      ensures isActive == old(isActive)
    {
      var _ := MoveToGroup("Just Joined");
      var extended := if dateExpires < today then today + duration else dateExpires + duration;
      if !InRange(extended) {
        return false;
      }
      dateExpires := extended;
      if newRfid != "" {
        rfid := newRfid;
      }
      if newPassword != "" {
        password := Some(newPassword);
      }
      ok := true;
    }
  }

  /**
   * `create_member`: an empty email raises ValueError (no member).  Otherwise
   * the member is stored with its expiry and moved to Just Joined.
   */
  method CreateMember(email: string, rfid: string, duration: int, password: Option<string>, now: int)
    returns (m: Member?)
    ensures email == "" <==> m == null
    ensures m != null ==> fresh(m) && m.email == email && m.rfid == rfid && m.password == password
    ensures m != null ==> m.dateExpires == ExpiryAfter(now, duration)
    ensures m != null ==> m.groups == {JustJoined} && m.group == "Just Joined" && m.InOneGroup()
    ensures m != null ==> m.firstName.None? && m.lastName.None? && m.isActive
  {
    if email == "" {
      return null;
    }
    m := new Member(email, rfid, ExpiryAfter(now, duration), password);
    var _ := m.MoveToGroup("Just Joined");
  }

  /** A staffer profile as `upgrade_to_staffer` stores it. */
  datatype Staffer = Staffer(
    memberRfid: string,
    excEmail: string,
    nickname: string,
    isActive: bool,
    autobiography: Option<string>,
    favoriteTrips: Option<string>)

  const DefaultAutobiography: string := "I am too lazy and lame to upload a bio!"

  /**
   * `upgrade_to_staffer` as written: given a non-empty autobiography it
   * stores None, so the text is never kept.
   */
  function UpgradeAutobiographyAsWritten(autobiography: Option<string>): (a: Option<string>)
    ensures autobiography.Some? && autobiography.value != "" ==> a.None?
    ensures !(autobiography.Some? && autobiography.value != "") ==> a == Some(DefaultAutobiography)
  {
    if autobiography.Some? && autobiography.value != "" then None else Some(DefaultAutobiography)
  }

  /** An autobiography passed in is lost. */
  lemma UpgradeLosesAutobiography()
    ensures UpgradeAutobiographyAsWritten(Some("Climber")) == None
  {
  }

  /** The evidently intended rule: keep a given autobiography, else the default. */
  function UpgradeAutobiography(autobiography: Option<string>): (a: Option<string>)
    ensures autobiography.Some? && autobiography.value != "" ==> a == autobiography
    ensures !(autobiography.Some? && autobiography.value != "") ==> a == Some(DefaultAutobiography)
  {
    if autobiography.Some? && autobiography.value != "" then autobiography else Some(DefaultAutobiography)
  }

  /**
   * `upgrade_to_staffer`: the member moves to Staff with the maximum expiry,
   * and the profile's club email is the staff name followed by `ClubEmail`.
   */
  method UpgradeToStaffer(m: Member, staffName: string, autobiography: Option<string>)
    returns (s: Staffer)
    modifies m
    ensures m.groups == {Staff} && m.group == "Staff" && m.IsStaffer()
    ensures m.dateExpires == MaxDay
    ensures s.excEmail == staffName + ClubEmail && s.nickname == staffName && s.isActive
    ensures s.memberRfid == m.rfid
    ensures s.autobiography == UpgradeAutobiography(autobiography) && s.favoriteTrips.None?
    ensures m.email == old(m.email) && m.rfid == old(m.rfid) && m.password == old(m.password)
    ensures m.firstName == old(m.firstName) && m.lastName == old(m.lastName) && m.isActive == old(m.isActive)
  {
    var excEmail := staffName + ClubEmail;
    var _ := m.MoveToGroup("Staff");
    m.dateExpires := MaxDay;
    s := Staffer(m.rfid, excEmail, staffName, true, UpgradeAutobiography(autobiography), None);
  }

  const DefaultTrips: string := "I'm stoked on all types of things!"

  /** `fav_trip_list`: one trip per line, or a stock line when none are given. */
  function FavTripList(favoriteTrips: Option<string>): (trips: seq<string>)
    ensures |trips| >= 1
    ensures favoriteTrips.Some? && favoriteTrips.value != "" ==> Join(trips, '\n') == favoriteTrips.value
    ensures forall i :: 0 <= i < |trips| ==> '\n' !in trips[i]
    ensures !(favoriteTrips.Some? && favoriteTrips.value != "") ==> trips == [DefaultTrips]
  {
    if favoriteTrips.Some? && favoriteTrips.value != "" then
      JoinSplit(favoriteTrips.value, '\n');
      Split(favoriteTrips.value, '\n')
    else
      [DefaultTrips]
  }

  /** In a list without repeats, every other entry differs from the one at `i`. */
  lemma OthersDiffer(members: seq<Member>, i: nat)
    requires forall i, j :: 0 <= i < j < |members| ==> members[i] != members[j]
    requires i < |members|
    ensures forall j :: 0 <= j < |members| && j != i ==> members[j] != members[i]
  {
  }
}
