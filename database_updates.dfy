// core/DatabaseUpdates.py: the periodic sweeps.  Checked-out gear past its due
// day goes missing; missing gear 90 days past due and broken gear 150 days past
// due expire.  Each sweep walks the gear table in order, acts only on gear
// of its status, and authorises with the system rfid.  Comparing the clock
// with an absent due date raises TypeError, which ends the sweep.
module DatabaseUpdates {
  import opened Common
  import opened Groups
  import opened Permissions
  import opened Members
  import opened Ledger
  import T = Transactions

  /** Which manager call a sweep makes: `missing_gear` or `expire_gear`. */
  datatype Mark = MarkMissing | MarkExpired

  function Target(m: Mark): Status
  {
    match m
    case MarkMissing => Missing
    case MarkExpired => Dormant
  }

  function KindOf(m: Mark): T.Kind
  {
    match m
    case MarkMissing => T.Missing
    case MarkExpired => T.Expire
  }

  /** A sweep: the status it selects, the days of grace after the due day, and what it does. */
  datatype Rule = Rule(from: Status, grace: int, mark: Mark)

  const MissingRule: Rule := Rule(CheckedOut, 0, MarkMissing)
  const MissingExpiryRule: Rule := Rule(Missing, 3 * 30, MarkExpired)
  const BrokenExpiryRule: Rule := Rule(Broken, 5 * 30, MarkExpired)

  /** A rule moves gear out of the status it selects. */
  predicate WellFormed(rule: Rule)
  {
    rule.from != Target(rule.mark)
  }

  /** Selected and strictly past the due day plus the grace. */
  predicate Overdue(rule: Rule, g: Gear, now: int)
  {
    g.status == rule.from && g.dueDay.Some? && now > g.dueDay.value + rule.grace
  }

  /** Selected but without a due day: the comparison raises. */
  predicate Raises(rule: Rule, g: Gear)
  {
    g.status == rule.from && g.dueDay.None?
  }

  /** What a complete sweep does to one row. */
  function Applied(rule: Rule, g: Gear, now: int): Gear
  {
    if Overdue(rule, g, now) then g.(status := Target(rule.mark)) else g
  }

  /** The transaction a sweep logs for one gear. */
  function SweepEntry(rule: Rule, gearRfid: string, now: int): T.Transaction
  {
    T.Transaction(now, KindOf(rule.mark), gearRfid, None, SystemRfid)
  }

  /** The gear table and log after a sweep, and whether it ran to the end. */
  datatype Sweep = Sweep(gear: map<string, Gear>, log: seq<T.Transaction>, ok: bool)

  /** The sweep of `table` (the gear table's order), one row at a time. */
  function Swept(rule: Rule, g0: map<string, Gear>, table: seq<string>, now: int): (r: Sweep)
    requires forall k :: k in table ==> k in g0
    ensures r.gear.Keys == g0.Keys
    ensures |r.log| <= |table|
    ensures forall i :: 0 <= i < |r.log| ==> exists k :: k in table && r.log[i] == SweepEntry(rule, k, now)
    decreases |table|
  {
    if |table| == 0 then Sweep(g0, [], true)
    else
      var front := table[..|table| - 1];
      var k := table[|table| - 1];
      var prev := Swept(rule, g0, front, now);
      if !prev.ok || prev.gear[k].status != rule.from then prev
      else if prev.gear[k].dueDay.None? then Sweep(prev.gear, prev.log, false)
      else if now > prev.gear[k].dueDay.value + rule.grace then
        Sweep(prev.gear[k := prev.gear[k].(status := Target(rule.mark))], prev.log + [SweepEntry(rule, k, now)], true)
      else prev
  }

  /**
   * A sweep logs only under the system rfid, so it keeps a log's authorizers
   * authorised, whatever the member table.
   */
  lemma SweptLogAuthorized(rule: Rule, g0: map<string, Gear>, table: seq<string>, now: int,
                           log0: seq<T.Transaction>, members: map<string, MemberView>)
    requires forall k :: k in table ==> k in g0
    ensures forall i :: 0 <= i < |Swept(rule, g0, table, now).log| ==>
              Swept(rule, g0, table, now).log[i].authorizer == SystemRfid
    ensures LogAuthorized(log0 + Swept(rule, g0, table, now).log, members) <==> LogAuthorized(log0, members)
  {
    var log := Swept(rule, g0, table, now).log;
    forall i | 0 <= i < |log|
      ensures log[i].authorizer == SystemRfid
    {
      var k :| k in table && log[i] == SweepEntry(rule, k, now);
    }
    forall i | 0 <= i < |log0 + log|
      ensures (log0 + log)[i] == if i < |log0| then log0[i] else log[i - |log0|]
    {
    }
  }

  /**
   * Rows not in the table are untouched and every row ends as it was or as
   * the rule makes it; the sweep ends normally exactly when no selected row
   * lacks a due day, and then every row of the table is as the rule makes it.
   */
  lemma {:induction false} SweptOutcome(rule: Rule, g0: map<string, Gear>, table: seq<string>, now: int)
    requires WellFormed(rule)
    requires forall k :: k in table ==> k in g0
    ensures var r := Swept(rule, g0, table, now);
            forall k :: k in g0 && k !in table ==> r.gear[k] == g0[k]
    ensures var r := Swept(rule, g0, table, now);
            forall k :: k in g0 ==> r.gear[k] == g0[k] || r.gear[k] == Applied(rule, g0[k], now)
    ensures Swept(rule, g0, table, now).ok <==> forall k :: k in table ==> !Raises(rule, g0[k])
    ensures var r := Swept(rule, g0, table, now);
            r.ok ==> forall k :: k in table ==> r.gear[k] == Applied(rule, g0[k], now)
  {
    SweptRows(rule, g0, table, now);
    SweptOk(rule, g0, table, now);
    SweptApplied(rule, g0, table, now);
  }

  /** Rows not in the table are untouched; every row ends as it was or as the rule makes it. */
  lemma {:induction false} SweptRows(rule: Rule, g0: map<string, Gear>, table: seq<string>, now: int)
    requires WellFormed(rule)
    requires forall k :: k in table ==> k in g0
    ensures var r := Swept(rule, g0, table, now);
            forall k :: k in g0 && k !in table ==> r.gear[k] == g0[k]
    ensures var r := Swept(rule, g0, table, now);
            forall k :: k in g0 ==> r.gear[k] == g0[k] || r.gear[k] == Applied(rule, g0[k], now)
    decreases |table|
  {
    if |table| > 0 {
      var front := table[..|table| - 1];
      assert forall j :: j in front ==> j in table;
      SweptRows(rule, g0, front, now);
    }
  }

  /** The sweep ends normally exactly when no selected row lacks a due day. */
  lemma {:induction false} SweptOk(rule: Rule, g0: map<string, Gear>, table: seq<string>, now: int)
    requires WellFormed(rule)
    requires forall k :: k in table ==> k in g0
    ensures Swept(rule, g0, table, now).ok <==> forall k :: k in table ==> !Raises(rule, g0[k])
    decreases |table|
  {
    if |table| > 0 {
      var front := table[..|table| - 1];
      var k := table[|table| - 1];
      assert forall j :: j in table ==> j in front || j == k;
      assert forall j :: j in front ==> j in table;
      SweptOk(rule, g0, front, now);
      SweptRows(rule, g0, front, now);
    }
  }

  /** A sweep that ended normally leaves every row of the table as the rule makes it. */
  lemma {:induction false} SweptApplied(rule: Rule, g0: map<string, Gear>, table: seq<string>, now: int)
    requires WellFormed(rule)
    requires forall k :: k in table ==> k in g0
    ensures var r := Swept(rule, g0, table, now);
            r.ok ==> forall k :: k in table ==> r.gear[k] == Applied(rule, g0[k], now)
    decreases |table|
  {
    if |table| > 0 {
      var front := table[..|table| - 1];
      var k := table[|table| - 1];
      assert forall j :: j in table ==> j in front || j == k;
      assert forall j :: j in front ==> j in table;
      SweptApplied(rule, g0, front, now);
      SweptRows(rule, g0, front, now);
    }
  }

  /** One more row: the sweep so far, extended by that row unless it already raised. */
  lemma SweepAppend(rule: Rule, g0: map<string, Gear>, table: seq<string>, i: nat, now: int)
    requires i < |table| && forall k :: k in table ==> k in g0
    ensures forall k :: k in table[..i] ==> k in g0
    ensures var prev := Swept(rule, g0, table[..i], now);
            var k := table[i];
            Swept(rule, g0, table[..i + 1], now)
            == if !prev.ok || prev.gear[k].status != rule.from then prev
               else if prev.gear[k].dueDay.None? then Sweep(prev.gear, prev.log, false)
               else if now > prev.gear[k].dueDay.value + rule.grace then
                 Sweep(prev.gear[k := prev.gear[k].(status := Target(rule.mark))], prev.log + [SweepEntry(rule, k, now)], true)
               else prev
  {
    assert table[..i + 1][..i] == table[..i];
    assert forall k :: k in table[..i] ==> k in table;
  }

  /** A sweep that raised at `n`, or went through all `n` rows, is the whole sweep. */
  lemma SweepEnds(rule: Rule, g0: map<string, Gear>, table: seq<string>, n: nat, now: int)
    requires n <= |table| && forall k :: k in table ==> k in g0
    requires forall k :: k in table[..n] ==> k in g0
    requires n == |table| || !Swept(rule, g0, table[..n], now).ok
    ensures Swept(rule, g0, table, now) == Swept(rule, g0, table[..n], now)
  {
    if n == |table| {
      assert table[..n] == table;
    } else {
      SweepStops(rule, g0, table, n, now);
    }
  }

  /** Once a sweep has raised, the rest of the table changes nothing. */
  lemma {:induction false} SweepStops(rule: Rule, g0: map<string, Gear>, table: seq<string>, n: nat, now: int)
    requires n <= |table| && forall k :: k in table ==> k in g0
    requires !Swept(rule, g0, table[..n], now).ok
    ensures Swept(rule, g0, table, now) == Swept(rule, g0, table[..n], now)
    decreases |table| - n
  {
    if n < |table| {
      var longer := table[..n + 1];
      assert longer[..n] == table[..n];
      assert Swept(rule, g0, longer, now) == Swept(rule, g0, table[..n], now);
      SweepStops(rule, g0, table, n + 1, now);
    } else {
      assert table[..n] == table;
    }
  }

  /** The sweep's turn at row `i`: the ledger becomes the sweep one row further. */
  method SweepAt(ledger: GearLedger, rule: Rule, table: seq<string>, i: nat, now: int,
                 ghost g0: map<string, Gear>, ghost log0: seq<T.Transaction>)
    returns (ok: bool)
    requires i < |table| && forall k :: k in table ==> k in g0
    requires ledger.Valid()
    requires var r := Swept(rule, g0, table[..i], now);
             r.ok && ledger.gear == r.gear && ledger.transactions == log0 + r.log
    modifies ledger
    ensures ledger.Valid()
    ensures var r := Swept(rule, g0, table[..i + 1], now);
            r.ok == ok && ledger.gear == r.gear && ledger.transactions == log0 + r.log
  {
    SweepAppend(rule, g0, table, i, now);
    ghost var prev := Swept(rule, g0, table[..i], now);
    var k := table[i];
    var item := ledger.gear[k];
    AppendAssoc(log0, prev.log, SweepEntry(rule, k, now));
    ok := true;
    if item.status == rule.from {
      if item.dueDay.None? {
        return false;
      }
      if now > item.dueDay.value + rule.grace {
        var failure;
        if rule.mark == MarkMissing {
          failure := ledger.MissingGear(SystemRfid, k, now);
        } else {
          failure := ledger.ExpireGear(SystemRfid, k, now);
        }
      }
    }
  }

  /** One sweep over the gear table through the manager's `missing_gear` or `expire_gear`. */
  method RunSweep(ledger: GearLedger, rule: Rule, table: seq<string>, now: int) returns (ok: bool)
    requires ledger.Valid() && WellFormed(rule)
    requires forall k :: k in table ==> k in ledger.gear
    modifies ledger
    ensures ledger.Valid()
    ensures var r := Swept(rule, old(ledger.gear), table, now);
            ledger.gear == r.gear && ledger.transactions == old(ledger.transactions) + r.log && ok == r.ok
    ensures forall members :: LogAuthorized(old(ledger.transactions), members) ==> LogAuthorized(ledger.transactions, members)
  {
    ghost var g0 := ledger.gear;
    ghost var log0 := ledger.transactions;
    assert table[..0] == [];
    ok := true;
    var i := 0;
    while i < |table| && ok
      invariant 0 <= i <= |table|
      invariant ledger.Valid()
      invariant var r := Swept(rule, g0, table[..i], now);
                r.ok == ok && ledger.gear == r.gear && ledger.transactions == log0 + r.log
    {
      ok := SweepAt(ledger, rule, table, i, now, g0, log0);
      i := i + 1;
    }
    SweepEnds(rule, g0, table, i, now);
    forall members | LogAuthorized(log0, members)
      ensures LogAuthorized(ledger.transactions, members)
    {
      SweptLogAuthorized(rule, g0, table, now, log0, members);
    }
  }

  /** `identify_missing_gear` */
  method IdentifyMissingGear(ledger: GearLedger, table: seq<string>, now: int) returns (ok: bool)
    requires ledger.Valid() && forall k :: k in table ==> k in ledger.gear
    modifies ledger
    ensures ledger.Valid()
    ensures var r := Swept(MissingRule, old(ledger.gear), table, now);
            ledger.gear == r.gear && ledger.transactions == old(ledger.transactions) + r.log && ok == r.ok
    ensures forall members :: LogAuthorized(old(ledger.transactions), members) ==> LogAuthorized(ledger.transactions, members)
  {
    ok := RunSweep(ledger, MissingRule, table, now);
  }

  /** `expire_gear`: the missing-gear sweep, then, if it ended normally, the broken-gear sweep. */
  method ExpireGear(ledger: GearLedger, table: seq<string>, now: int) returns (ok: bool)
    requires ledger.Valid() && forall k :: k in table ==> k in ledger.gear
    modifies ledger
    ensures ledger.Valid()
    ensures var first := Swept(MissingExpiryRule, old(ledger.gear), table, now);
            !first.ok ==> ledger.gear == first.gear && ledger.transactions == old(ledger.transactions) + first.log && !ok
    ensures var first := Swept(MissingExpiryRule, old(ledger.gear), table, now);
            first.ok ==>
              var second := Swept(BrokenExpiryRule, first.gear, table, now);
              ledger.gear == second.gear && ok == second.ok
              && ledger.transactions == old(ledger.transactions) + first.log + second.log
    ensures forall members :: LogAuthorized(old(ledger.transactions), members) ==> LogAuthorized(ledger.transactions, members)
  {
    ok := RunSweep(ledger, MissingExpiryRule, table, now);
    if ok {
      ok := RunSweep(ledger, BrokenExpiryRule, table, now);
    }
  }

  /** In a consistent table every checked-out row has a due day, so the missing-gear sweep never raises. */
  lemma MissingSweepCompletes(g0: map<string, Gear>, table: seq<string>, now: int)
    requires GearConsistent(g0) && forall k :: k in table ==> k in g0
    ensures Swept(MissingRule, g0, table, now).ok
  {
    SweptOutcome(MissingRule, g0, table, now);
  }

  /**
   * Over the whole table, gear goes missing exactly when it is checked out and
   * the clock is strictly past its due day; every other row is unchanged.
   */
  lemma MissingSweepMarksOverdue(g0: map<string, Gear>, table: seq<string>, now: int, k: string)
    requires GearConsistent(g0) && forall j :: j in table <==> j in g0
    requires k in g0
    ensures var g := Swept(MissingRule, g0, table, now).gear[k];
            (g0[k].status == CheckedOut && now > g0[k].dueDay.value ==> g == g0[k].(status := Missing))
            && (!(g0[k].status == CheckedOut && now > g0[k].dueDay.value) ==> g == g0[k])
  {
    SweptOutcome(MissingRule, g0, table, now);
  }

  /**
   * The expiry sweeps only ever change missing or broken gear, and only to
   * Dormant; gear of any other status is untouched, however they end.
   */
  lemma ExpirySweepsTouchOnlyMissingAndBroken(g0: map<string, Gear>, table: seq<string>, now: int, k: string)
    requires forall j :: j in table ==> j in g0
    requires k in g0
    ensures var first := Swept(MissingExpiryRule, g0, table, now);
            var second := Swept(BrokenExpiryRule, first.gear, table, now);
            (g0[k].status != Missing && g0[k].status != Broken ==> second.gear[k] == g0[k] && first.gear[k] == g0[k])
            && (second.gear[k] != g0[k] ==> second.gear[k] == g0[k].(status := Dormant))
  {
    SweptOutcome(MissingExpiryRule, g0, table, now);
    var first := Swept(MissingExpiryRule, g0, table, now);
    SweptOutcome(BrokenExpiryRule, first.gear, table, now);
  }

  /** Missing gear expires only after 90 days past due; broken gear only after 150. */
  lemma ExpiryThresholds(g: Gear, now: int)
    requires g.dueDay.Some?
    ensures Overdue(MissingExpiryRule, g, now) <==> g.status == Missing && now > g.dueDay.value + 90
    ensures Overdue(BrokenExpiryRule, g, now) <==> g.status == Broken && now > g.dueDay.value + 150
  {
  }

  /** The loop's turn at position `i`: that member is expired if overdue, and nobody else changes. */
  method ExpireIfOverdue(members: seq<Member>, i: nat, now: int)
    requires i < |members|
    requires forall j :: 0 <= j < |members| && j != i ==> members[j] != members[i]
    modifies members[i]
    ensures forall j :: 0 <= j < |members| ==>
              members[j].View()
              == if j == i && old(members[j].IsActiveMemberNow()) && now > old(members[j].dateExpires)
                 then old(members[j].View()).(groups := {Expired}, group := "Expired")
                 else old(members[j].View())
  {
    var member := members[i];
    if member.IsActiveMemberNow() && now > member.dateExpires {
      member.Expire();
    }
  }

  /**
   * `expire_members`, over the members it selects.  The source's selection
   * names a field Member does not have; the model selects the active
   * members, as the comment above it describes.  Each selected member whose
   * expiry is strictly before now is expired: only its group fields change,
   * and nobody else changes.
   */
  method ExpireMembers(members: seq<Member>, now: int)
    requires forall i, j :: 0 <= i < j < |members| ==> members[i] != members[j]
    modifies set m | m in members
    ensures forall m :: m in members ==>
              m.View()
              == if old(m.IsActiveMemberNow()) && now > old(m.dateExpires)
                 then old(m.View()).(groups := {Expired}, group := "Expired")
                 else old(m.View())
  {
    var i := 0;
    while i < |members|
      invariant 0 <= i <= |members|
      invariant forall j :: 0 <= j < |members| ==>
                  members[j].View()
                  == if j < i && old(members[j].IsActiveMemberNow()) && now > old(members[j].dateExpires)
                     then old(members[j].View()).(groups := {Expired}, group := "Expired")
                     else old(members[j].View())
    {
      OthersDiffer(members, i);
      ExpireIfOverdue(members, i, now);
      i := i + 1;
    }
  }

  /** An expired member is no longer an active member, so a second run leaves them alone. */
  lemma ExpiredIsNotActive(isActive: bool)
    ensures !ActiveMember(isActive, {Expired})
  {
    ActiveMemberIffAtLeastMember(isActive, Expired);
  }
}
