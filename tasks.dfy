// core/tasks.py: the scheduled `expire_members` task.  Every active member
// whose expiry is strictly before now is expired; every other active member
// whose expiry is within the coming week is sent an expiring-soon email,
// modelled as the list of addresses written to.
module Tasks {
  import opened Groups
  import opened Members

  /** The warning window, in days. */
  const WarningDays: int := 7

  /** The task expires this member. */
  predicate ExpiresNow(v: MemberView, now: int)
  {
    ActiveMember(v.isActive, v.groups) && v.dateExpires < now
  }

  /** The task warns this member. */
  predicate WarnedNow(v: MemberView, now: int)
  {
    ActiveMember(v.isActive, v.groups) && now <= v.dateExpires < now + WarningDays
  }

  /** The addresses warned, in table order. */
  function WarnedEmails(vs: seq<MemberView>, now: int): (emails: seq<string>)
    ensures |emails| <= |vs|
    decreases |vs|
  {
    if |vs| == 0 then []
    else
      var front := WarnedEmails(vs[..|vs| - 1], now);
      if WarnedNow(vs[|vs| - 1], now) then front + [vs[|vs| - 1].email] else front
  }

  /** An address is warned exactly when some member with it is warned. */
  lemma WarnedEmailsExact(vs: seq<MemberView>, now: int, e: string)
    ensures e in WarnedEmails(vs, now) <==> exists i :: 0 <= i < |vs| && vs[i].email == e && WarnedNow(vs[i], now)
  {
    WarnedEmailsSound(vs, now, e);
    if exists i :: 0 <= i < |vs| && vs[i].email == e && WarnedNow(vs[i], now) {
      var i :| 0 <= i < |vs| && vs[i].email == e && WarnedNow(vs[i], now);
      WarnedEmailsComplete(vs, now, i);
    }
  }

  /** Every address in the list belongs to a member the task warns. */
  lemma {:induction false} WarnedEmailsSound(vs: seq<MemberView>, now: int, e: string)
    ensures e in WarnedEmails(vs, now) ==> exists i :: 0 <= i < |vs| && vs[i].email == e && WarnedNow(vs[i], now)
    decreases |vs|
  {
    if |vs| > 0 && e in WarnedEmails(vs, now) {
      var front := vs[..|vs| - 1];
      if e in WarnedEmails(front, now) {
        WarnedEmailsSound(front, now, e);
        var i :| 0 <= i < |front| && front[i].email == e && WarnedNow(front[i], now);
        assert vs[i] == front[i];
      } else {
        assert vs[|vs| - 1].email == e && WarnedNow(vs[|vs| - 1], now);
      }
    }
  }

  /** Every member the task warns has its address in the list. */
  lemma {:induction false} WarnedEmailsComplete(vs: seq<MemberView>, now: int, i: int)
    requires 0 <= i < |vs| && WarnedNow(vs[i], now)
    ensures vs[i].email in WarnedEmails(vs, now)
    decreases |vs|
  {
    var front := vs[..|vs| - 1];
    if i < |vs| - 1 {
      assert front[i] == vs[i];
      WarnedEmailsComplete(front, now, i);
    }
  }

  /** Taking one more member adds its address exactly when it is warned. */
  lemma WarnedEmailsAppend(vs: seq<MemberView>, i: nat, now: int)
    requires i < |vs|
    ensures WarnedEmails(vs[..i + 1], now)
            == WarnedEmails(vs[..i], now) + (if WarnedNow(vs[i], now) then [vs[i].email] else [])
  {
    assert vs[..i + 1][..i] == vs[..i];
  }

  /** Nobody is both expired and warned in one run. */
  lemma ExpiredOrWarned(v: MemberView, now: int)
    ensures !(ExpiresNow(v, now) && WarnedNow(v, now))
    ensures ActiveMember(v.isActive, v.groups) && v.dateExpires >= now + WarningDays ==>
              !ExpiresNow(v, now) && !WarnedNow(v, now)
  {
  }

  /** A Just Joined or Expired member is never expired or warned by the task. */
  lemma InactiveGroupsIgnored(v: MemberView, r: Role, now: int)
    requires v.groups == {r} && (r == JustJoined || r == Expired)
    ensures !ExpiresNow(v, now) && !WarnedNow(v, now)
  {
    ActiveMemberIffAtLeastMember(v.isActive, r);
  }

  /** The members' fields as values. */
  function Views(members: seq<Member>): (vs: seq<MemberView>)
    reads set m | m in members
    ensures |vs| == |members|
    ensures forall i :: 0 <= i < |members| ==> vs[i] == members[i].View()
  {
    if |members| == 0 then [] else Views(members[..|members| - 1]) + [members[|members| - 1].View()]
  }

  /** A member after the task: expired if the task expires them, otherwise as before. */
  function AfterTask(v: MemberView, now: int): (w: MemberView)
    ensures w.email == v.email && w.rfid == v.rfid && w.dateExpires == v.dateExpires && w.isActive == v.isActive
    ensures ExpiresNow(v, now) ==> w.groups == {Expired} && w.group == "Expired"
    ensures !ExpiresNow(v, now) ==> w == v
  {
    if ExpiresNow(v, now) then v.(groups := {Expired}, group := "Expired") else v
  }

  /** One member's turn of the loop: expire, or report that a warning is due. */
  method ExpireOrWarn(member: Member, now: int) returns (warn: bool)
    modifies member
    ensures member.View() == AfterTask(old(member.View()), now)
    ensures warn == WarnedNow(old(member.View()), now)
  {
    warn := false;
    if member.IsActiveMemberNow() {
      if member.dateExpires < now {
        member.Expire();
      } else if member.dateExpires < now + WarningDays {
        warn := true;
      }
    }
  }

  /** The loop's turn at position `i`: only that member changes. */
  method ExpireAt(members: seq<Member>, i: nat, now: int, ghost vs: seq<MemberView>) returns (warn: bool)
    requires i < |members| == |vs|
    requires forall j :: 0 <= j < |members| && j != i ==> members[j] != members[i]
    requires members[i].View() == vs[i]
    modifies members[i]
    ensures warn == WarnedNow(vs[i], now)
    ensures forall j :: 0 <= j < |members| ==>
              members[j].View() == if j == i then AfterTask(vs[i], now) else old(members[j].View())
  {
    warn := ExpireOrWarn(members[i], now);
  }

  /** `expire_members` */
  method ExpireMembers(members: seq<Member>, now: int) returns (warned: seq<string>)
    requires forall i, j :: 0 <= i < j < |members| ==> members[i] != members[j]
    modifies set m | m in members
    ensures warned == WarnedEmails(old(Views(members)), now)
    ensures forall i :: 0 <= i < |members| ==> members[i].View() == AfterTask(old(members[i].View()), now)
  {
    ghost var vs := Views(members);
    warned := [];
    var i := 0;
    while i < |members|
      invariant 0 <= i <= |members|
      invariant warned == WarnedEmails(vs[..i], now)
      invariant forall j :: 0 <= j < |members| ==>
                  members[j].View() == if j < i then AfterTask(vs[j], now) else vs[j]
    {
      var email := members[i].email;
      OthersDiffer(members, i);
      WarnedEmailsAppend(vs, i, now);
      var warn := ExpireAt(members, i, now, vs);
      if warn {
        warned := warned + [email];
      }
      i := i + 1;
    }
    assert vs[..i] == vs;
  }
}
