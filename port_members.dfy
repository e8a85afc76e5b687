// helper_scripts/port_member_data.py: the one-off port of the old club
// database.  Each row of the old `user` table is looked up, classified into
// a group, split into first and last name, given its certifications and
// created as a member; rows with a staff name are then upgraded to staffers.
// The mysql queries and the Django calls are inputs of the row (`rfid`,
// `certFlags`, `createFails`, `upgradeFails`); the photo copying and the
// printed summary are I/O.  Dates are seconds since the epoch.
module PortMembers {
  import opened Common
  import opened Groups
  import opened Strings

  /** The two certifications the old database records. */
  datatype Cert = StandUpPaddleboarding | Kayaking

  /** Columns 2 and 3 of a member's first row of the old `certification` table. */
  datatype CertFlags = CertFlags(sup: bool, kayak: bool)

  /**
   * A row of the old `user` table, together with what the loop's queries and
   * calls give for it: the first rfid row (None when there is none), the
   * first certification row (None when there is none), and whether creating
   * the member or upgrading it to a staffer raises.
   */
  datatype UserRow = UserRow(
    email: string,
    phone: string,
    fullName: string,
    memType: string,
    status: string,
    dateJoined: int,
    dateExpires: int,
    staffName: string,
    rfid: Option<string>,
    certFlags: Option<CertFlags>,
    createFails: bool,
    upgradeFails: bool)

  /** The classification of a row: a group, no assignment this time, or skipped. */
  datatype Placement = Place(role: Role) | NoAssignment | Unclassified

  /**
   * The nested classification, on the lower-cased type and status.  A
   * "member" row whose status matches no branch assigns nothing.
   */
  function Classify(memType: string, status: string, dateExpires: int, now: int): Placement
  {
    if memType == "member" then
      if status == "new" then Place(JustJoined)
      else if status == "expired" then Place(Expired)
      else if status == "active" && dateExpires < now then Place(Expired)
      else if status == "active" && dateExpires > now then Place(Member)
      else NoAssignment
    else if (memType == "staff" || memType == "admin") && status == "active" then Place(Staff)
    else Unclassified
  }

  /** Each outcome of the classification, and exactly the rows that reach it. */
  lemma ClassifyCases(memType: string, status: string, dateExpires: int, now: int)
    ensures var p := Classify(memType, status, dateExpires, now);
            (p == Place(JustJoined) <==> memType == "member" && status == "new")
            && (p == Place(Expired) <==> memType == "member" && (status == "expired" || (status == "active" && dateExpires < now)))
            && (p == Place(Member) <==> memType == "member" && status == "active" && dateExpires > now)
            && (p == Place(Staff) <==> (memType == "staff" || memType == "admin") && status == "active")
            && (p.NoAssignment? <==> memType == "member" && status != "new" && status != "expired"
                                     && (status != "active" || dateExpires == now))
            && (p.Unclassified? <==> memType != "member" && !((memType == "staff" || memType == "admin") && status == "active"))
            && (p.Place? ==> p.role != Board && p.role != Admin)
  {
  }

  /** First name and last name: the first space-separated token, and the rest joined by spaces. */
  function NameParts(fullName: string): (string, string)
  {
    var parts := Split(fullName, ' ');
    (parts[0], Join(parts[1..], ' '))
  }

  /**
   * The first name holds no space, and putting the two names back together
   * with a space (when the full name had one) gives the full name.  There is
   * always a first token, so no row is skipped for lack of a name.
   */
  lemma NamePartsRejoin(fullName: string)
    ensures ' ' !in NameParts(fullName).0
    ensures ' ' in fullName ==> fullName == NameParts(fullName).0 + " " + NameParts(fullName).1
    ensures ' ' !in fullName ==> NameParts(fullName) == (fullName, "")
  {
    var parts := Split(fullName, ' ');
    JoinSplit(fullName, ' ');
    if ' ' in fullName {
      assert |parts| >= 2;
      assert Join(parts, ' ') == parts[0] + [' '] + Join(parts[1..], ' ');
    } else {
      SplitWithoutSep(fullName, ' ');
    }
  }

  /** The certifications a member is given: SUP for column 2, Kayaking for column 3, in that order. */
  function Certifications(f: CertFlags): (certs: seq<Cert>)
    ensures StandUpPaddleboarding in certs <==> f.sup
    ensures Kayaking in certs <==> f.kayak
    ensures |certs| == (if f.sup then 1 else 0) + (if f.kayak then 1 else 0)
  {
    (if f.sup then [StandUpPaddleboarding] else []) + (if f.kayak then [Kayaking] else [])
  }

  /** A member the port created. */
  datatype PortedMember = PortedMember(
    email: string,
    rfid: string,
    group: Role,
    phone: string,
    firstName: string,
    lastName: string,
    dateJoined: int,
    dateExpires: int,
    certs: seq<Cert>)

  /** A staffer the port created. */
  datatype StafferRecord = StafferRecord(email: string, staffName: string)

  /** The member a row creates once its group is known (US numbers get "+1"). */
  function Ported(u: UserRow, rfid: string, group: Role, f: CertFlags): PortedMember
  {
    var names := NameParts(u.fullName);
    PortedMember(u.email, rfid, group, "+1" + u.phone, names.0, names.1, u.dateJoined, u.dateExpires, Certifications(f))
  }

  /**
   * The script's variables: the `group` left by the last assignment (None
   * before the first), the counters and lists, and whether an exception
   * escaped the loop.
   */
  datatype PortState = PortState(
    group: Option<Role>,
    ported: nat,
    skipped: seq<string>,
    created: seq<PortedMember>,
    staffersPorted: nat,
    staffers: seq<StafferRecord>,
    skippedStaffers: seq<string>,
    aborted: bool)

  const Start := PortState(None, 0, [], [], 0, [], [], false)

  /**
   * One row.  A missing rfid or an unclassified row is skipped; a missing
   * certification row raises out of the loop; a row left without any group
   * (the NameError) or whose creation fails is skipped; otherwise the member
   * is created and, with a staff name, upgraded.
   */
  function Step(st: PortState, u: UserRow, now: int): PortState
  {
    if u.rfid.None? then st.(skipped := st.skipped + [u.email])
    else
      var p := Classify(Lower(u.memType), Lower(u.status), u.dateExpires, now);
      if p.Unclassified? then st.(skipped := st.skipped + [u.email])
      else
        var group := if p.Place? then Some(p.role) else st.group;
        if u.certFlags.None? then st.(group := group, aborted := true)
        else if group.None? || u.createFails then st.(group := group, skipped := st.skipped + [u.email])
        else
          var st1 := st.(group := group, ported := st.ported + 1,
                         created := st.created + [Ported(u, u.rfid.value, group.value, u.certFlags.value)]);
          if u.staffName == "" then st1
          else if u.upgradeFails then st1.(skippedStaffers := st1.skippedStaffers + [u.email])
          else st1.(staffersPorted := st1.staffersPorted + 1,
                    staffers := st1.staffers + [StafferRecord(u.email, u.staffName)])
  }

  /** The state after the rows, stopping at the first row that raises. */
  function Port(rows: seq<UserRow>, now: int): PortState
    decreases |rows|
  {
    if |rows| == 0 then Start
    else
      var prev := Port(rows[..|rows| - 1], now);
      if prev.aborted then prev else Step(prev, rows[|rows| - 1], now)
  }

  /** The port loop over the rows of `SELECT * FROM user`. */
  method PortMemberData(rows: seq<UserRow>, now: int)
    returns (membersPorted: nat, skippedMembers: seq<string>, created: seq<PortedMember>,
             staffersPorted: nat, allStaffers: seq<StafferRecord>, skippedStaffers: seq<string>, aborted: bool)
    ensures var st := Port(rows, now);
            membersPorted == st.ported && skippedMembers == st.skipped && created == st.created
            && staffersPorted == st.staffersPorted && allStaffers == st.staffers
            && skippedStaffers == st.skippedStaffers && aborted == st.aborted
  {
    membersPorted, skippedMembers, created := 0, [], [];
    staffersPorted, allStaffers, skippedStaffers := 0, [], [];
    aborted := false;
    var group: Option<Role> := None;
    for i := 0 to |rows|
      invariant Port(rows[..i], now) == PortState(group, membersPorted, skippedMembers, created,
                                                  staffersPorted, allStaffers, skippedStaffers, false)
    {
      PortAppend(rows, i, now);
      var user := rows[i];
      if user.rfid.None? {
        skippedMembers := skippedMembers + [user.email];
        continue;
      }
      var names := NameParts(user.fullName);
      var memType := Lower(user.memType);
      var status := Lower(user.status);
      if memType == "member" {
        if status == "new" {
          group := Some(JustJoined);
        } else if status == "expired" {
          group := Some(Expired);
        } else if status == "active" && user.dateExpires < now {
          group := Some(Expired);
        } else if status == "active" && user.dateExpires > now {
          group := Some(Member);
        }
      } else if (memType == "staff" || memType == "admin") && status == "active" {
        group := Some(Staff);
      } else {
        skippedMembers := skippedMembers + [user.email];
        continue;
      }
      if user.certFlags.None? {
        aborted := true;
        PortStops(rows, i + 1, now);
        return;
      }
      var certifications := Certifications(user.certFlags.value);
      if group.None? || user.createFails {
        skippedMembers := skippedMembers + [user.email];
        continue;
      }
      var member := PortedMember(user.email, user.rfid.value, group.value, "+1" + user.phone,
                                 names.0, names.1, user.dateJoined, user.dateExpires, certifications);
      created := created + [member];
      membersPorted := membersPorted + 1;
      if user.staffName != "" {
        if user.upgradeFails {
          skippedStaffers := skippedStaffers + [user.email];
        } else {
          allStaffers := allStaffers + [StafferRecord(user.email, user.staffName)];
          staffersPorted := staffersPorted + 1;
        }
      }
    }
    assert rows[..|rows|] == rows;
  }

  /** One more row: the state so far, stepped by that row unless a row already raised. */
  lemma PortAppend(rows: seq<UserRow>, i: nat, now: int)
    requires i < |rows|
    ensures var prev := Port(rows[..i], now);
            Port(rows[..i + 1], now) == if prev.aborted then prev else Step(prev, rows[i], now)
  {
    assert rows[..i + 1][..i] == rows[..i];
  }

  /** Once a row has raised, later rows change nothing. */
  lemma {:induction false} PortStops(rows: seq<UserRow>, n: nat, now: int)
    requires n <= |rows|
    requires Port(rows[..n], now).aborted
    ensures Port(rows, now) == Port(rows[..n], now)
    decreases |rows| - n
  {
    if n < |rows| {
      assert rows[..n + 1][..n] == rows[..n];
      PortStops(rows, n + 1, now);
    } else {
      assert rows[..n] == rows;
    }
  }

  /**
   * The counters match the lists, every row handled is either ported or
   * skipped, a row that raised is neither, and every staffer counted or
   * skipped was first ported as a member.
   */
  lemma {:induction false} PortAccounting(rows: seq<UserRow>, now: int)
    ensures var st := Port(rows, now);
            st.ported == |st.created| && st.staffersPorted == |st.staffers|
            && (!st.aborted ==> st.ported + |st.skipped| == |rows|)
            && (st.aborted ==> st.ported + |st.skipped| < |rows|)
            && |st.staffers| + |st.skippedStaffers| <= st.ported
    decreases |rows|
  {
    if |rows| > 0 {
      PortAccounting(rows[..|rows| - 1], now);
    }
  }

  /**
   * A member created from a row carries the row's email, rfid, phone with
   * "+1", split names, dates and certifications; its group is the row's own
   * classification, or, for a row that assigns none, the group left by an
   * earlier row.
   */
  lemma StepCreates(st: PortState, u: UserRow, now: int)
    requires |Step(st, u, now).created| != |st.created|
    ensures var p := Classify(Lower(u.memType), Lower(u.status), u.dateExpires, now);
            var m := Step(st, u, now).created[|st.created|];
            |Step(st, u, now).created| == |st.created| + 1
            && u.rfid.Some? && u.certFlags.Some? && !u.createFails
            && m.email == u.email && m.rfid == u.rfid.value && m.phone == "+1" + u.phone
            && (m.firstName, m.lastName) == NameParts(u.fullName)
            && m.certs == Certifications(u.certFlags.value)
            && (p.Place? ==> m.group == p.role)
            && (p.NoAssignment? ==> st.group == Some(m.group))
  {
  }

  /** Before any group is assigned, a row that assigns none is skipped rather than created. */
  lemma FirstUnassignedSkipped(st: PortState, u: UserRow, now: int)
    requires st.group.None? && u.rfid.Some? && u.certFlags.Some?
    requires Classify(Lower(u.memType), Lower(u.status), u.dateExpires, now).NoAssignment?
    ensures Step(st, u, now) == st.(skipped := st.skipped + [u.email])
  {
  }

  /** An active staff row with its rfid and certifications, first in the table, is ported as Staff. */
  lemma StaffRowFirst(staff: UserRow, now: int)
    requires staff.memType == "staff" && staff.status == "active"
    requires staff.rfid.Some? && staff.certFlags.Some? && !staff.createFails
    ensures var st := Port([staff], now);
            st.group == Some(Staff) && |st.created| == 1 && !st.aborted
  {
    LowerUnchanged("staff");
    LowerUnchanged("active");
    assert Classify(Lower(staff.memType), Lower(staff.status), staff.dateExpires, now) == Place(Staff);
    assert [staff][..0] == [];
  }

  /**
   * A "member" row with an unrecognised status is ported into the group of
   * the row before it: after an active staff row, it becomes Staff.
   */
  lemma UnknownStatusInheritsGroup(staff: UserRow, other: UserRow, now: int)
    requires staff.memType == "staff" && staff.status == "active"
    requires staff.rfid.Some? && staff.certFlags.Some? && !staff.createFails
    requires other.memType == "member" && other.status == "honorary"
    requires other.rfid.Some? && other.certFlags.Some? && !other.createFails
    ensures |Port([staff, other], now).created| == 2
    ensures Port([staff, other], now).created[1].group == Staff
  {
    StaffRowFirst(staff, now);
    LowerUnchanged("member");
    LowerUnchanged("honorary");
    assert Classify(Lower(other.memType), Lower(other.status), other.dateExpires, now) == NoAssignment;
    assert [staff, other][..1] == [staff];
  }
}
