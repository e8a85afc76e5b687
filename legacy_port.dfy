// portMemberData.py: the older port of the club database.  Only users whose
// expiry is after the cutoff are read; each is classified by one flat chain
// in which any row matching no branch is skipped, split into names, given
// its certifications and created as a member.  No staffers are made and the
// phone number is copied as it is.  Dates are seconds since the epoch.
module LegacyPort {
  import opened Common
  import opened Groups
  import opened Strings
  import P = PortMembers

  /** `WHERE date_expires > 1420760194` */
  const Cutoff: int := 1420760194

  /** The rows the query returns, in table order. */
  function Selected(table: seq<P.UserRow>): (rows: seq<P.UserRow>)
    ensures forall u :: u in rows ==> u in table && u.dateExpires > Cutoff
    ensures forall u :: u in table && u.dateExpires > Cutoff ==> u in rows
    decreases |table|
  {
    if |table| == 0 then []
    else
      var front := Selected(table[..|table| - 1]);
      var u := table[|table| - 1];
      assert forall x :: x in table[..|table| - 1] ==> x in table;
      assert forall x :: x in table ==> x in table[..|table| - 1] || x == u;
      if u.dateExpires > Cutoff then front + [u] else front
  }

  /**
   * The flat chain: the same five mappings as the nested classification,
   * with every other row skipped.
   */
  function Classify(memType: string, status: string, dateExpires: int, now: int): P.Placement
  {
    if memType == "member" && status == "new" then P.Place(JustJoined)
    else if memType == "member" && status == "expired" then P.Place(Expired)
    else if memType == "member" && status == "active" && dateExpires < now then P.Place(Expired)
    else if memType == "member" && status == "active" && dateExpires > now then P.Place(Member)
    else if (memType == "staff" || memType == "admin") && status == "active" then P.Place(Staff)
    else P.Unclassified
  }

  /**
   * The flat chain places exactly the rows the nested one places, in the
   * same group, and skips the rest, including those the nested one leaves
   * without an assignment.
   */
  lemma ClassifySkipsUnassigned(memType: string, status: string, dateExpires: int, now: int)
    ensures var nested := P.Classify(memType, status, dateExpires, now);
            Classify(memType, status, dateExpires, now)
            == (if nested.NoAssignment? then P.Unclassified else nested)
    ensures !Classify(memType, status, dateExpires, now).NoAssignment?
  {
  }

  /** A member the older port created. */
  function Ported(u: P.UserRow, rfid: string, group: Role, f: P.CertFlags): P.PortedMember
  {
    var names := P.NameParts(u.fullName);
    P.PortedMember(u.email, rfid, group, u.phone, names.0, names.1, u.dateJoined, u.dateExpires, P.Certifications(f))
  }

  /** The script's counter and lists, and whether an exception escaped the loop. */
  datatype LegacyState = LegacyState(ported: nat, skipped: seq<string>, created: seq<P.PortedMember>, aborted: bool)

  /** What one row comes to: skipped, an exception out of the loop, or a created member. */
  datatype Outcome = Skip | Raise | Create(member: P.PortedMember)

  /**
   * One row: a missing rfid, an unclassified row or a failing creation is
   * skipped; a missing certification row raises out of the loop.
   */
  function RowOutcome(u: P.UserRow, now: int): Outcome
  {
    if u.rfid.None? then Skip
    else
      var p := Classify(Lower(u.memType), Lower(u.status), u.dateExpires, now);
      if !p.Place? then Skip
      else if u.certFlags.None? then Raise
      else if u.createFails then Skip
      else Create(Ported(u, u.rfid.value, p.role, u.certFlags.value))
  }

  function Step(st: LegacyState, u: P.UserRow, now: int): LegacyState
  {
    match RowOutcome(u, now)
    case Skip => st.(skipped := st.skipped + [u.email])
    case Raise => st.(aborted := true)
    case Create(m) => st.(ported := st.ported + 1, created := st.created + [m])
  }

  /** The state after the rows, stopping at the first row that raises. */
  function Port(rows: seq<P.UserRow>, now: int): LegacyState
    decreases |rows|
  {
    if |rows| == 0 then LegacyState(0, [], [], false)
    else
      var prev := Port(rows[..|rows| - 1], now);
      if prev.aborted then prev else Step(prev, rows[|rows| - 1], now)
  }

  /** The body of the loop for one row, up to the update of the counter and lists. */
  method PortUser(user: P.UserRow, now: int) returns (outcome: Outcome)
    ensures outcome == RowOutcome(user, now)
  {
    if user.rfid.None? {
      return Skip;
    }
    var names := P.NameParts(user.fullName);
    var memType := Lower(user.memType);
    var status := Lower(user.status);
    var group;
    if memType == "member" && status == "new" {
      group := JustJoined;
    } else if memType == "member" && status == "expired" {
      group := Expired;
    } else if memType == "member" && status == "active" && user.dateExpires < now {
      group := Expired;
    } else if memType == "member" && status == "active" && user.dateExpires > now {
      group := Member;
    } else if (memType == "staff" || memType == "admin") && status == "active" {
      group := Staff;
    } else {
      return Skip;
    }
    if user.certFlags.None? {
      return Raise;
    }
    var certifications := P.Certifications(user.certFlags.value);
    if user.createFails {
      return Skip;
    }
    outcome := Create(P.PortedMember(user.email, user.rfid.value, group, user.phone,
                                     names.0, names.1, user.dateJoined, user.dateExpires, certifications));
  }

  /** The port loop over the selected rows of the old `user` table. */
  method PortMemberData(table: seq<P.UserRow>, now: int)
    returns (membersPorted: nat, skippedMembers: seq<string>, created: seq<P.PortedMember>, aborted: bool)
    ensures Port(Selected(table), now) == LegacyState(membersPorted, skippedMembers, created, aborted)
  {
    var allUsers := Selected(table);
    membersPorted, skippedMembers, created := 0, [], [];
    aborted := false;
    for i := 0 to |allUsers|
      invariant Port(allUsers[..i], now) == LegacyState(membersPorted, skippedMembers, created, false)
    {
      PortAppend(allUsers, i, now);
      var user := allUsers[i];
      var outcome := PortUser(user, now);
      match outcome
      case Skip =>
        skippedMembers := skippedMembers + [user.email];
      case Raise =>
        aborted := true;
        PortStops(allUsers, i + 1, now);
        return;
      case Create(member) =>
        created := created + [member];
        membersPorted := membersPorted + 1;
    }
    assert allUsers[..|allUsers|] == allUsers;
  }

  /** One more row: the state so far, stepped by that row unless a row already raised. */
  lemma PortAppend(rows: seq<P.UserRow>, i: nat, now: int)
    requires i < |rows|
    ensures var prev := Port(rows[..i], now);
            Port(rows[..i + 1], now) == if prev.aborted then prev else Step(prev, rows[i], now)
  {
    assert rows[..i + 1][..i] == rows[..i];
  }

  /** Once a row has raised, later rows change nothing. */
  lemma {:induction false} PortStops(rows: seq<P.UserRow>, n: nat, now: int)
    requires n <= |rows|
    requires Port(rows[..n], now).aborted
    ensures Port(rows, now) == Port(rows[..n], now)
    decreases |rows| - n
  {
    if n < |rows| {
      assert rows[..n + 1][..n] == rows[..n];
      PortStops(rows, n + 1, now);
    } else {
      assert rows[..n] == rows;
    }
  }

  /**
   * The counter matches the list of created members, and every row handled
   * is either ported or skipped; a row that raised is neither.
   */
  lemma {:induction false} PortAccounting(rows: seq<P.UserRow>, now: int)
    ensures var st := Port(rows, now);
            st.ported == |st.created|
            && (!st.aborted ==> st.ported + |st.skipped| == |rows|)
            && (st.aborted ==> st.ported + |st.skipped| < |rows|)
    decreases |rows|
  {
    if |rows| > 0 {
      PortAccounting(rows[..|rows| - 1], now);
    }
  }

  /** Every member created is placed by its own row's classification, never by an earlier row's. */
  lemma {:induction false} GroupsFromOwnRow(rows: seq<P.UserRow>, now: int, k: int)
    requires 0 <= k < |Port(rows, now).created|
    ensures exists i :: 0 <= i < |rows| && rows[i].email == Port(rows, now).created[k].email
              && Classify(Lower(rows[i].memType), Lower(rows[i].status), rows[i].dateExpires, now)
                 == P.Place(Port(rows, now).created[k].group)
    decreases |rows|
  {
    var front := rows[..|rows| - 1];
    var prev := Port(front, now);
    if k < |prev.created| {
      GroupsFromOwnRow(front, now, k);
      var i :| 0 <= i < |front| && front[i].email == prev.created[k].email
               && Classify(Lower(front[i].memType), Lower(front[i].status), front[i].dateExpires, now)
                  == P.Place(prev.created[k].group);
      assert rows[i] == front[i];
    } else {
      assert Port(rows, now).created[k] == Step(prev, rows[|rows| - 1], now).created[k];
    }
  }
}
