// core/CheckoutLogic.py: the older multi-gear checkout.  One return date is
// computed for the whole call and one checkout is issued per gear rfid, in
// argument order; a failing checkout raises, so the later ones are never
// issued while the earlier ones stay done.
module CoreCheckout {
  import opened Common
  import opened Members
  import opened Ledger
  import T = Transactions

  /** The state reached by a run of checkouts, and the failure that stopped it. */
  datatype Run = Run(gear: map<string, Gear>, log: seq<T.Transaction>, failure: Option<Failure>)

  /** The CheckOut transaction one checkout of the call logs. */
  function Entry(now: int, gearRfid: string, renter: string, staffer: string): T.Transaction
  {
    T.Transaction(now, T.CheckOut, gearRfid, Some(renter), staffer)
  }

  /** The checkouts of `rfids`, in order, stopping at the first failure. */
  function CheckoutRun(members: map<string, MemberView>, g0: map<string, Gear>, staffer: string,
                       renter: string, rfids: seq<string>, dueDay: int, now: int): Run
    decreases |rfids|
  {
    if |rfids| == 0 then Run(g0, [], None)
    else
      var front := rfids[..|rfids| - 1];
      var k := rfids[|rfids| - 1];
      var prev := CheckoutRun(members, g0, staffer, renter, front, dueDay, now);
      if prev.failure.Some? then prev
      else
        var f := CheckoutFailure(members, prev.gear, staffer, renter, k);
        if f.Some? then Run(prev.gear, prev.log, f)
        else
          Run(prev.gear[k := RentedTo(prev.gear[k], renter, dueDay)],
              prev.log + [Entry(now, k, renter, staffer)], None)
  }

  /**
   * The checkout of the `i`-th gear: on success the ledger is the run one
   * gear further; on failure it is the whole run, which stopped there.
   */
  method CheckoutAt(ledger: GearLedger, members: map<string, MemberView>, memberRfid: string,
                    stafferRfid: string, gearRfids: seq<string>, i: nat, returnDate: int, now: int,
                    ghost g0: map<string, Gear>, ghost log0: seq<T.Transaction>)
    returns (failure: Option<Failure>)
    requires i < |gearRfids|
    requires ledger.Valid()
    requires var r := CheckoutRun(members, g0, stafferRfid, memberRfid, gearRfids[..i], returnDate, now);
             r.failure.None? && ledger.gear == r.gear && ledger.transactions == log0 + r.log
    modifies ledger
    ensures ledger.Valid()
    ensures var r := CheckoutRun(members, g0, stafferRfid, memberRfid, gearRfids[..i + 1], returnDate, now);
            r.failure == failure && ledger.gear == r.gear && ledger.transactions == log0 + r.log
  {
    RunAppend(members, g0, stafferRfid, memberRfid, gearRfids, i, returnDate, now);
    ghost var prev := CheckoutRun(members, g0, stafferRfid, memberRfid, gearRfids[..i], returnDate, now);
    AppendAssoc(log0, prev.log, Entry(now, gearRfids[i], memberRfid, stafferRfid));
    failure := ledger.MakeCheckout(members, stafferRfid, gearRfids[i], memberRfid, returnDate, now);
  }

  /**
   * `do_checkout(member_rfid, staffer_rfid, *gear_rfids)`: the return date
   * is now + 7 days, shared by every checkout of the call.
   */
  method DoCheckout(ledger: GearLedger, members: map<string, MemberView>, memberRfid: string,
                    stafferRfid: string, gearRfids: seq<string>, now: int)
    returns (failure: Option<Failure>)
    requires ledger.Valid()
    modifies ledger
    ensures ledger.Valid()
    ensures var r := CheckoutRun(members, old(ledger.gear), stafferRfid, memberRfid, gearRfids, now + 7, now);
            ledger.gear == r.gear && ledger.transactions == old(ledger.transactions) + r.log
            && failure == r.failure
  {
    var returnDate := now + 7;
    ghost var g0 := ledger.gear;
    ghost var log0 := ledger.transactions;
    failure := None;
    var i := 0;
    while i < |gearRfids| && failure.None?
      invariant 0 <= i <= |gearRfids|
      invariant ledger.Valid()
      invariant var r := CheckoutRun(members, g0, stafferRfid, memberRfid, gearRfids[..i], returnDate, now);
                r.failure == failure && ledger.gear == r.gear && ledger.transactions == log0 + r.log
    {
      failure := CheckoutAt(ledger, members, memberRfid, stafferRfid, gearRfids, i, returnDate, now, g0, log0);
      i := i + 1;
    }
    RunEnds(members, g0, stafferRfid, memberRfid, gearRfids, i, returnDate, now);
  }

  /**
   * The table keeps its keys, and the log holds one entry per checkout
   * issued, in argument order, each with the same renter and staffer; the
   * run is complete exactly when every rfid was checked out.
   */
  lemma {:induction false} RunLog(members: map<string, MemberView>, g0: map<string, Gear>, staffer: string,
                                  renter: string, rfids: seq<string>, dueDay: int, now: int)
    ensures var r := CheckoutRun(members, g0, staffer, renter, rfids, dueDay, now);
            r.gear.Keys == g0.Keys
            && |r.log| <= |rfids|
            && (forall i :: 0 <= i < |r.log| ==> r.log[i] == Entry(now, rfids[i], renter, staffer))
            && (r.failure.None? <==> |r.log| == |rfids|)
    decreases |rfids|
  {
    if |rfids| > 0 {
      RunLog(members, g0, staffer, renter, rfids[..|rfids| - 1], dueDay, now);
    }
  }

  /** One more rfid: the run so far, extended by that rfid's checkout unless it already failed. */
  lemma RunAppend(members: map<string, MemberView>, g0: map<string, Gear>, staffer: string,
                  renter: string, rfids: seq<string>, i: nat, dueDay: int, now: int)
    requires i < |rfids|
    ensures var prev := CheckoutRun(members, g0, staffer, renter, rfids[..i], dueDay, now);
            var k := rfids[i];
            var f := CheckoutFailure(members, prev.gear, staffer, renter, k);
            CheckoutRun(members, g0, staffer, renter, rfids[..i + 1], dueDay, now)
            == if prev.failure.Some? then prev
               else if f.Some? then Run(prev.gear, prev.log, f)
               else Run(prev.gear[k := RentedTo(prev.gear[k], renter, dueDay)],
                        prev.log + [Entry(now, k, renter, staffer)], None)
  {
    assert rfids[..i + 1][..i] == rfids[..i];
  }

  /**
   * Gear not listed is left alone, and when every checkout went through,
   * every listed gear was in the table and is now rented to the renter
   * until the shared due day.
   */
  lemma {:induction false} RunRentsListed(members: map<string, MemberView>, g0: map<string, Gear>, staffer: string,
                                          renter: string, rfids: seq<string>, dueDay: int, now: int)
    ensures var r := CheckoutRun(members, g0, staffer, renter, rfids, dueDay, now);
            forall k :: k in g0 && k !in rfids ==> k in r.gear && r.gear[k] == g0[k]
    ensures var r := CheckoutRun(members, g0, staffer, renter, rfids, dueDay, now);
            r.failure.None? ==> forall k :: k in rfids ==> k in g0 && k in r.gear && r.gear[k] == RentedTo(g0[k], renter, dueDay)
    decreases |rfids|
  {
    RunLog(members, g0, staffer, renter, rfids, dueDay, now);
    if |rfids| > 0 {
      var front := rfids[..|rfids| - 1];
      var k := rfids[|rfids| - 1];
      RunRentsListed(members, g0, staffer, renter, front, dueDay, now);
      RunLog(members, g0, staffer, renter, front, dueDay, now);
      assert forall j :: j in rfids ==> j in front || j == k;
      assert forall j :: j in front ==> j in rfids;
    }
  }

  /** Once a run has failed, later rfids change nothing. */
  lemma {:induction false} RunStops(members: map<string, MemberView>, g0: map<string, Gear>, staffer: string,
                                    renter: string, rfids: seq<string>, n: nat, dueDay: int, now: int)
    requires n <= |rfids|
    requires CheckoutRun(members, g0, staffer, renter, rfids[..n], dueDay, now).failure.Some?
    ensures CheckoutRun(members, g0, staffer, renter, rfids, dueDay, now)
            == CheckoutRun(members, g0, staffer, renter, rfids[..n], dueDay, now)
    decreases |rfids| - n
  {
    if n < |rfids| {
      var longer := rfids[..n + 1];
      assert longer[..n] == rfids[..n];
      assert CheckoutRun(members, g0, staffer, renter, longer, dueDay, now)
             == CheckoutRun(members, g0, staffer, renter, rfids[..n], dueDay, now);
      RunStops(members, g0, staffer, renter, rfids, n + 1, dueDay, now);
    } else {
      assert rfids[..n] == rfids;
    }
  }

  /** A run that failed at `n`, or went through all `n` rfids, is the whole run. */
  lemma RunEnds(members: map<string, MemberView>, g0: map<string, Gear>, staffer: string,
                renter: string, rfids: seq<string>, n: nat, dueDay: int, now: int)
    requires n <= |rfids|
    requires n == |rfids| || CheckoutRun(members, g0, staffer, renter, rfids[..n], dueDay, now).failure.Some?
    ensures CheckoutRun(members, g0, staffer, renter, rfids, dueDay, now)
            == CheckoutRun(members, g0, staffer, renter, rfids[..n], dueDay, now)
  {
    if n == |rfids| {
      assert rfids[..n] == rfids;
    } else {
      RunStops(members, g0, staffer, renter, rfids, n, dueDay, now);
    }
  }

  /** No rfid, no checkout: the ledger is left as it was. */
  lemma EmptyRunIssuesNothing(members: map<string, MemberView>, g0: map<string, Gear>, staffer: string,
                              renter: string, dueDay: int, now: int)
    ensures CheckoutRun(members, g0, staffer, renter, [], dueDay, now) == Run(g0, [], None)
  {
  }

  /** Listing the same gear twice fails on the second checkout, which finds it rented. */
  lemma RepeatedGearFails(members: map<string, MemberView>, g0: map<string, Gear>, staffer: string,
                          renter: string, k: string, dueDay: int, now: int)
    requires CheckoutFailure(members, g0, staffer, renter, k).None?
    ensures CheckoutRun(members, g0, staffer, renter, [k, k], dueDay, now).failure == Some(Unavailable)
    ensures |CheckoutRun(members, g0, staffer, renter, [k, k], dueDay, now).log| == 1
  {
    assert [k, k][..1] == [k];
    assert [k][..0] == [];
    assert CheckoutRun(members, g0, staffer, renter, [], dueDay, now) == Run(g0, [], None);
    var first := CheckoutRun(members, g0, staffer, renter, [k], dueDay, now);
    assert first.failure.None? && |first.log| == 1;
  }
}
