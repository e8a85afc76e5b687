// api/models.py: `RfidCheckManager.create`, the door gate check.  It looks up
// the members carrying the scanned rfid, decides whether to let the holder in,
// and appends one entry to the check log whatever the outcome.
module GateCheck {
  import opened Groups
  import opened Members

  const MultipleMembers: string := "Multiple Members with this RFID!"
  const NotAMember: string := "Not a member RFID"

  /** One saved `MemberRFIDCheck`. */
  datatype CheckEntry = CheckEntry(rfidChecked: string, wasValid: bool, message: string)

  /** `Member.objects.filter(rfid=rfid)`, in table order. */
  function Matching(members: seq<MemberView>, rfid: string): (found: seq<MemberView>)
    ensures forall m :: m in found ==> m in members && m.rfid == rfid
    ensures forall m :: m in members && m.rfid == rfid ==> m in found
    ensures |found| <= |members|
  {
    if |members| == 0 then []
    else if members[0].rfid == rfid then [members[0]] + Matching(members[1..], rfid)
    else Matching(members[1..], rfid)
  }

  /** The verdict and message for a scan. */
  function Outcome(members: seq<MemberView>, rfid: string): (verdict: (bool, string))
  {
    var found := Matching(members, rfid);
    if |found| > 1 then (false, MultipleMembers)
    else if |found| == 0 then (false, NotAMember)
    else
      var m := found[0];
      (ActiveMember(m.isActive, m.groups), FullName(m.firstName, m.lastName) + ": " + m.group)
  }

  /** The append-only check log. */
  class RfidCheckLog {
    var entries: seq<CheckEntry>

    constructor ()
      ensures entries == []
    {
      entries := [];
    }

    /** `create`: classify the scan, log it, and return the verdict. */
    method Create(members: seq<MemberView>, rfid: string) returns (isValid: bool)
      modifies this
      ensures isValid == Outcome(members, rfid).0
      ensures entries == old(entries) + [CheckEntry(rfid, isValid, Outcome(members, rfid).1)]
    {
      var matching := Matching(members, rfid);
      var message: string;
      if |matching| > 1 {
        message := MultipleMembers;
        isValid := false;
      } else if |matching| == 0 {
        message := NotAMember;
        isValid := false;
      } else {
        var member := matching[0];
        message := FullName(member.firstName, member.lastName) + ": " + member.group;
        isValid := ActiveMember(member.isActive, member.groups);
      }
      entries := entries + [CheckEntry(rfid, isValid, message)];
    }
  }

  /** An rfid no member carries is refused as "Not a member RFID". */
  lemma UnknownRfidRefused(members: seq<MemberView>, rfid: string)
    requires forall m :: m in members ==> m.rfid != rfid
    ensures Outcome(members, rfid) == (false, NotAMember)
  {
    NoMatch(members, rfid);
  }

  /** Two members with the same rfid are refused, whoever they are. */
  lemma SharedRfidRefused(members: seq<MemberView>, rfid: string, i: int, j: int)
    requires 0 <= i < j < |members| && members[i].rfid == rfid && members[j].rfid == rfid
    ensures Outcome(members, rfid) == (false, MultipleMembers)
  {
    MatchingCountsTwo(members, rfid, i, j);
  }

  lemma {:induction false} MatchingCountsTwo(members: seq<MemberView>, rfid: string, i: int, j: int)
    requires 0 <= i < j < |members| && members[i].rfid == rfid && members[j].rfid == rfid
    ensures |Matching(members, rfid)| >= 2
    decreases |members|
  {
    if i > 0 {
      MatchingCountsTwo(members[1..], rfid, i - 1, j - 1);
    } else {
      assert members[1..][j - 1] in members[1..];
      assert members[1..][j - 1] in Matching(members[1..], rfid);
    }
  }

  /**
   * A member who alone carries the rfid and belongs to one group is let in
   * exactly when active and in Member or above: Just Joined and Expired
   * are refused; Member, Staff, Board and Admin are admitted.
   */
  lemma SoleHolderAdmittedIffMember(members: seq<MemberView>, rfid: string, k: int, r: Role)
    requires 0 <= k < |members| && members[k].rfid == rfid && members[k].groups == {r}
    requires forall i :: 0 <= i < |members| && i != k ==> members[i].rfid != rfid
    ensures Outcome(members, rfid).0 <==> members[k].isActive && AtLeast(r, Member)
  {
    SoleMatch(members, rfid, k);
    ActiveMemberIffAtLeastMember(members[k].isActive, r);
  }

  lemma {:induction false} SoleMatch(members: seq<MemberView>, rfid: string, k: int)
    requires 0 <= k < |members| && members[k].rfid == rfid
    requires forall i :: 0 <= i < |members| && i != k ==> members[i].rfid != rfid
    ensures Matching(members, rfid) == [members[k]]
    decreases |members|
  {
    if k > 0 {
      assert members[0].rfid != rfid;
      SoleMatch(members[1..], rfid, k - 1);
    } else {
      NoMatch(members[1..], rfid);
    }
  }

  lemma {:induction false} NoMatch(members: seq<MemberView>, rfid: string)
    requires forall i :: 0 <= i < |members| ==> members[i].rfid != rfid
    ensures Matching(members, rfid) == []
    decreases |members|
  {
    if |members| > 0 {
      NoMatch(members[1..], rfid);
    }
  }
}
