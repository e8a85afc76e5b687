// get_listser_email_file.py: `update_active_group_based` walks every member,
// derives the active flag from the member's group (inactive exactly for Just
// Joined and Expired) and counts activations, deactivations and the new
// total of active members.
module Listserv {
  import opened Members
  import Tasks

  /** The active flag a member's group calls for. */
  predicate ActiveByGroup(group: string)
  {
    group != "Just Joined" && group != "Expired"
  }

  /** The stored flag disagrees with the group's. */
  predicate Mismatched(v: MemberView)
  {
    v.isActive != ActiveByGroup(v.group)
  }

  /** The three counters the function reports. */
  datatype Tally = Tally(activated: nat, deactivated: nat, totalActive: nat)

  /**
   * The counters as the loop computes them: a mismatched member is counted
   * as activated when its stored flag is set, and as deactivated otherwise.
   */
  function TallyAsWritten(vs: seq<MemberView>): (t: Tally)
    ensures t.activated + t.deactivated <= |vs| && t.totalActive <= |vs|
    decreases |vs|
  {
    if |vs| == 0 then Tally(0, 0, 0)
    else
      var t := TallyAsWritten(vs[..|vs| - 1]);
      var v := vs[|vs| - 1];
      var total := if ActiveByGroup(v.group) then t.totalActive + 1 else t.totalActive;
      if !Mismatched(v) then Tally(t.activated, t.deactivated, total)
      else if v.isActive then Tally(t.activated + 1, t.deactivated, total)
      else Tally(t.activated, t.deactivated + 1, total)
  }

  /**
   * The intended counters: a mismatched member is activated when the group
   * makes it active, deactivated when the group makes it inactive.
   */
  function TallyIntended(vs: seq<MemberView>): (t: Tally)
    ensures t.activated + t.deactivated <= |vs| && t.totalActive <= |vs|
    decreases |vs|
  {
    if |vs| == 0 then Tally(0, 0, 0)
    else
      var t := TallyIntended(vs[..|vs| - 1]);
      var v := vs[|vs| - 1];
      var total := if ActiveByGroup(v.group) then t.totalActive + 1 else t.totalActive;
      if !Mismatched(v) then Tally(t.activated, t.deactivated, total)
      else if ActiveByGroup(v.group) then Tally(t.activated + 1, t.deactivated, total)
      else Tally(t.activated, t.deactivated + 1, total)
  }

  /** One more member moves the written counters by that member's own contribution. */
  lemma TallyAsWrittenAppend(vs: seq<MemberView>, i: nat)
    requires i < |vs|
    ensures var t := TallyAsWritten(vs[..i]);
            var v := vs[i];
            var total := if ActiveByGroup(v.group) then t.totalActive + 1 else t.totalActive;
            TallyAsWritten(vs[..i + 1])
            == if !Mismatched(v) then Tally(t.activated, t.deactivated, total)
               else if v.isActive then Tally(t.activated + 1, t.deactivated, total)
               else Tally(t.activated, t.deactivated + 1, total)
  {
    assert vs[..i + 1][..i] == vs[..i];
  }

  /** One more member moves the intended counters by that member's own contribution. */
  lemma TallyIntendedAppend(vs: seq<MemberView>, i: nat)
    requires i < |vs|
    ensures var t := TallyIntended(vs[..i]);
            var v := vs[i];
            var total := if ActiveByGroup(v.group) then t.totalActive + 1 else t.totalActive;
            TallyIntended(vs[..i + 1])
            == if !Mismatched(v) then Tally(t.activated, t.deactivated, total)
               else if ActiveByGroup(v.group) then Tally(t.activated + 1, t.deactivated, total)
               else Tally(t.activated, t.deactivated + 1, total)
  {
    assert vs[..i + 1][..i] == vs[..i];
  }

  /** Members whose stored flag disagrees with their group. */
  function MismatchCount(vs: seq<MemberView>): (n: nat)
    ensures n <= |vs|
    decreases |vs|
  {
    if |vs| == 0 then 0
    else MismatchCount(vs[..|vs| - 1]) + (if Mismatched(vs[|vs| - 1]) then 1 else 0)
  }

  /** Members whose group makes them active. */
  function ActiveCount(vs: seq<MemberView>): (n: nat)
    ensures n <= |vs|
    decreases |vs|
  {
    if |vs| == 0 then 0
    else ActiveCount(vs[..|vs| - 1]) + (if ActiveByGroup(vs[|vs| - 1].group) then 1 else 0)
  }

  /**
   * Both tallies count every mismatched member exactly once, the total is
   * the number of members their group makes active, and the two tallies
   * agree on everything but swap activated and deactivated.
   */
  lemma {:induction false} TallyCounts(vs: seq<MemberView>)
    ensures TallyAsWritten(vs).activated + TallyAsWritten(vs).deactivated == MismatchCount(vs)
    ensures TallyIntended(vs).activated + TallyIntended(vs).deactivated == MismatchCount(vs)
    ensures TallyAsWritten(vs).totalActive == ActiveCount(vs) == TallyIntended(vs).totalActive
    ensures TallyAsWritten(vs).activated == TallyIntended(vs).deactivated
    ensures TallyAsWritten(vs).deactivated == TallyIntended(vs).activated
    decreases |vs|
  {
    if |vs| > 0 {
      TallyCounts(vs[..|vs| - 1]);
    }
  }

  /** An Expired member still flagged active is reported as activated, though the group deactivates it. */
  lemma ExpiredButActiveReportedActivated(v: MemberView)
    requires v.group == "Expired" && v.isActive
    ensures TallyAsWritten([v]) == Tally(1, 0, 0)
    ensures TallyIntended([v]) == Tally(0, 1, 0)
  {
    assert [v][..0] == [];
  }

  /**
   * `update_active_group_based` as written: the new flag is only computed
   * into a local, so the save leaves every member as it was.
   */
  method UpdateActiveGroupBasedAsWritten(members: seq<Member>) returns (t: Tally)
    ensures t == TallyAsWritten(Tasks.Views(members))
  {
    ghost var vs := Tasks.Views(members);
    var activated, deactivated, totalActive := 0, 0, 0;
    var i := 0;
    while i < |members|
      invariant 0 <= i <= |members|
      invariant Tally(activated, deactivated, totalActive) == TallyAsWritten(vs[..i])
    {
      TallyAsWrittenAppend(vs, i);
      var member := members[i];
      var group := member.group;
      var wasActive := member.isActive;
      var isActive;
      if group == "Just Joined" || group == "Expired" {
        isActive := false;
      } else {
        isActive := true;
        totalActive := totalActive + 1;
      }
      if wasActive != isActive {
        if member.isActive {
          activated := activated + 1;
        } else {
          deactivated := deactivated + 1;
        }
      }
      i := i + 1;
    }
    assert vs[..i] == vs;
    t := Tally(activated, deactivated, totalActive);
  }

  /** One member's turn of the intended loop: store the group's flag. */
  method Reconcile(member: Member) returns (wasActive: bool)
    modifies member
    ensures wasActive == old(member.isActive)
    ensures member.View() == old(member.View()).(isActive := ActiveByGroup(old(member.group)))
    ensures member.password == old(member.password)
  {
    wasActive := member.isActive;
    member.isActive := !(member.group == "Just Joined" || member.group == "Expired");
  }

  /** The intended loop's turn at position `i`: only that member changes. */
  method ReconcileAt(members: seq<Member>, i: nat, ghost vs: seq<MemberView>) returns (wasActive: bool, isActive: bool)
    requires i < |members| == |vs|
    requires forall j :: 0 <= j < |members| && j != i ==> members[j] != members[i]
    requires members[i].View() == vs[i]
    modifies members[i]
    ensures wasActive == vs[i].isActive && isActive == ActiveByGroup(vs[i].group)
    ensures forall j :: 0 <= j < |members| ==>
              members[j].View() == if j == i then vs[i].(isActive := isActive) else old(members[j].View())
  {
    wasActive := Reconcile(members[i]);
    isActive := members[i].isActive;
  }

  /**
   * The intended `update_active_group_based`: every member's flag is set
   * from its group and the counters say which way each flag moved.
   */
  method UpdateActiveGroupBased(members: seq<Member>) returns (t: Tally)
    requires forall i, j :: 0 <= i < j < |members| ==> members[i] != members[j]
    modifies set m | m in members
    ensures t == TallyIntended(old(Tasks.Views(members)))
    ensures forall i :: 0 <= i < |members| ==>
              members[i].View() == old(members[i].View()).(isActive := ActiveByGroup(old(members[i].group)))
  {
    ghost var vs := Tasks.Views(members);
    var activated, deactivated, totalActive := 0, 0, 0;
    var i := 0;
    while i < |members|
      invariant 0 <= i <= |members|
      invariant Tally(activated, deactivated, totalActive) == TallyIntended(vs[..i])
      invariant forall j :: 0 <= j < |members| ==>
                  members[j].View() == if j < i then vs[j].(isActive := ActiveByGroup(vs[j].group)) else vs[j]
    {
      OthersDiffer(members, i);
      TallyIntendedAppend(vs, i);
      var wasActive, isActive := ReconcileAt(members, i, vs);
      if isActive {
        totalActive := totalActive + 1;
      }
      if wasActive != isActive {
        if isActive {
          activated := activated + 1;
        } else {
          deactivated := deactivated + 1;
        }
      }
      i := i + 1;
    }
    assert vs[..i] == vs;
    t := Tally(activated, deactivated, totalActive);
  }

  /** After the intended update no member is mismatched any more. */
  lemma ReconciledHasNoMismatch(v: MemberView)
    ensures !Mismatched(v.(isActive := ActiveByGroup(v.group)))
    ensures Mismatched(v) <==> v.isActive != ActiveByGroup(v.group)
  {
  }
}
