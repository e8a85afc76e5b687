// The six permission groups of the club, in the ascending order in which
// helper_scripts/build_permissions.py builds them: Just Joined, Expired,
// Member, Staff, Board, Admin.  A group is identified in the database by its
// name; `Name` and `RoleNamed` translate between the two.
module Groups {
  import opened Common

  datatype Role = JustJoined | Expired | Member | Staff | Board | Admin

  /** Position in the build order; a higher rank is a more powerful group. */
  function Rank(r: Role): nat
  {
    match r
    case JustJoined => 0
    case Expired => 1
    case Member => 2
    case Staff => 3
    case Board => 4
    case Admin => 5
  }

  /** The group of rank `k`: the one whose builder runs `k`-th, counting from 0. */
  function RoleOfRank(k: nat): (r: Role)
    requires k < 6
    ensures Rank(r) == k
  {
    if k == 0 then JustJoined
    else if k == 1 then Expired
    else if k == 2 then Member
    else if k == 3 then Staff
    else if k == 4 then Board
    else Admin
  }

  predicate AtLeast(r: Role, floor: Role)
  {
    Rank(r) >= Rank(floor)
  }

  /** The group immediately below `r` in the build order. */
  function Below(r: Role): (b: Role)
    requires r != JustJoined
    ensures Rank(b) + 1 == Rank(r)
  {
    match r
    case Expired => JustJoined
    case Member => Expired
    case Staff => Member
    case Board => Staff
    case Admin => Board
  }

  /** The group's name as stored in the database. */
  function Name(r: Role): string
  {
    match r
    case JustJoined => "Just Joined"
    case Expired => "Expired"
    case Member => "Member"
    case Staff => "Staff"
    case Board => "Board"
    case Admin => "Admin"
  }

  /** `Group.objects.filter(name=name)`: the group with that name, if any. */
  function RoleNamed(name: string): (r: Option<Role>)
    ensures r.Some? ==> Name(r.value) == name
    ensures r.None? ==> forall x: Role :: Name(x) != name
  {
    if name == "Just Joined" then Some(JustJoined)
    else if name == "Expired" then Some(Expired)
    else if name == "Member" then Some(Member)
    else if name == "Staff" then Some(Staff)
    else if name == "Board" then Some(Board)
    else if name == "Admin" then Some(Admin)
    else None
  }

  /** Every group is found again under its own name: names are distinct. */
  lemma NameRoundTrip(r: Role)
    ensures RoleNamed(Name(r)) == Some(r)
  {
  }
}
