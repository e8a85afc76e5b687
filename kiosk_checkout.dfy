// kiosk/CheckoutLogic.py: the kiosk's single-gear checkout and checkin.  The
// lemmas below state the outcomes that kiosk/tests/test_checkout_logic.py
// expects, over any member table and gear table.
module KioskCheckout {
  import opened Common
  import opened Groups
  import opened Members
  import opened Ledger
  import T = Transactions

  /** The rental period the kiosk gives every checkout. */
  const RentalDays: int := 7

  /** `do_checkout`: gear is due back a week from today. */
  method DoCheckout(ledger: GearLedger, members: map<string, MemberView>,
                    stafferRfid: string, memberRfid: string, gearRfid: string, today: int)
    returns (failure: Option<Failure>)
    requires ledger.Valid()
    modifies ledger
    ensures ledger.Valid()
    ensures failure == CheckoutFailure(members, old(ledger.gear), stafferRfid, memberRfid, gearRfid)
    ensures failure.Some? ==> ledger.gear == old(ledger.gear) && ledger.transactions == old(ledger.transactions)
    ensures failure.None? ==>
              ledger.gear == old(ledger.gear)[gearRfid := RentedTo(old(ledger.gear)[gearRfid], memberRfid, today + 7)]
              && ledger.transactions == old(ledger.transactions)
                 + [T.Transaction(today, T.CheckOut, gearRfid, Some(memberRfid), stafferRfid)]
  {
    var returnDate := today + RentalDays;
    failure := ledger.MakeCheckout(members, stafferRfid, gearRfid, memberRfid, returnDate, today);
  }

  /** `do_checkin` */
  method DoCheckin(ledger: GearLedger, members: map<string, MemberView>,
                   stafferRfid: string, gearRfid: string, today: int)
    returns (failure: Option<Failure>)
    requires ledger.Valid()
    modifies ledger
    ensures ledger.Valid()
    ensures failure == CheckinFailure(members, old(ledger.gear), stafferRfid, gearRfid)
    ensures failure.Some? || old(ledger.gear)[gearRfid].status == InStock ==>
              ledger.gear == old(ledger.gear) && ledger.transactions == old(ledger.transactions)
    ensures failure.None? && old(ledger.gear)[gearRfid].status != InStock ==>
              ledger.gear == old(ledger.gear)[gearRfid := Returned(old(ledger.gear)[gearRfid])]
              && ledger.transactions == old(ledger.transactions)
                 + [T.Transaction(today, T.CheckIn, gearRfid, old(ledger.gear)[gearRfid].holder, stafferRfid)]
  {
    failure := ledger.CheckInGear(members, stafferRfid, gearRfid, today);
  }

  /**
   * A member whose `group` shortcut names `r`.  Both the staffer test and
   * the rent test read the shortcut, so the group relation is left free: the
   * tests' renter is still related to Just Joined only.
   */
  predicate InGroup(m: MemberView, r: Role)
  {
    m.group == Name(r)
  }

  /**
   * Available gear, a staffer authorising, and an active renter of Member or
   * above (the staffer themself included): the checkout goes through.
   */
  lemma CheckoutByStafferSucceeds(members: map<string, MemberView>, gear: map<string, Gear>,
                                  staffer: string, renter: string, gearRfid: string, s: Role, r: Role)
    requires staffer in members && InGroup(members[staffer], s) && AtLeast(s, Staff)
    requires renter in members && InGroup(members[renter], r) && AtLeast(r, Member) && members[renter].isActive
    requires gearRfid in gear && gear[gearRfid].status == InStock
    ensures CheckoutFailure(members, gear, staffer, renter, gearRfid).None?
  {
    StafferIffAtLeastStaff(s);
    MayRentIffAtLeastMember(members[renter], r);
  }

  /** A Just Joined or Expired renter is refused with a ValidationError. */
  lemma CheckoutToNewOrExpiredFails(members: map<string, MemberView>, gear: map<string, Gear>,
                                    staffer: string, renter: string, gearRfid: string, s: Role, r: Role)
    requires staffer in members && InGroup(members[staffer], s) && AtLeast(s, Staff)
    requires renter in members && InGroup(members[renter], r) && (r == JustJoined || r == Expired)
    requires gearRfid in gear
    ensures CheckoutFailure(members, gear, staffer, renter, gearRfid) == Some(MayNotRent)
  {
    StafferIffAtLeastStaff(s);
    MayRentIffAtLeastMember(members[renter], r);
  }

  /** An authorizer below Staff is refused with a ValidationError, whoever rents. */
  lemma CheckoutByNonStafferFails(members: map<string, MemberView>, gear: map<string, Gear>,
                                  staffer: string, renter: string, gearRfid: string, s: Role)
    requires staffer != T.SystemAuthorizer && staffer in members
    requires InGroup(members[staffer], s) && !AtLeast(s, Staff)
    requires renter in members && gearRfid in gear
    ensures CheckoutFailure(members, gear, staffer, renter, gearRfid) == Some(NotAuthorized)
  {
    StafferIffAtLeastStaff(s);
  }

  /** Once rented, gear cannot be checked out again, to anybody, until it is checked in. */
  lemma SecondCheckoutFails(members: map<string, MemberView>, gear: map<string, Gear>,
                            staffer: string, renter: string, other: string, gearRfid: string, dueDay: int)
    requires CheckoutFailure(members, gear, staffer, renter, gearRfid).None?
    requires other in members && MayRent(members[other])
    ensures CheckoutFailure(members, gear[gearRfid := RentedTo(gear[gearRfid], renter, dueDay)],
                            staffer, other, gearRfid) == Some(Unavailable)
  {
  }

  /** Unknown rfids give the DoesNotExist of the table they were looked up in. */
  lemma UnknownRfidsNotFound(members: map<string, MemberView>, gear: map<string, Gear>,
                             staffer: string, renter: string, gearRfid: string)
    ensures staffer != T.SystemAuthorizer && staffer !in members ==>
              CheckoutFailure(members, gear, staffer, renter, gearRfid) == Some(MemberDoesNotExist)
              && CheckinFailure(members, gear, staffer, gearRfid) == Some(MemberDoesNotExist)
    ensures renter !in members ==> CheckoutFailure(members, gear, staffer, renter, gearRfid) == Some(MemberDoesNotExist)
    ensures (staffer == T.SystemAuthorizer || staffer in members) && renter in members && gearRfid !in gear ==>
              CheckoutFailure(members, gear, staffer, renter, gearRfid) == Some(GearDoesNotExist)
  {
  }

  /** After a successful checkout, a staffer's checkin puts the gear back in stock. */
  lemma CheckinAfterCheckout(members: map<string, MemberView>, gear: map<string, Gear>,
                             staffer: string, renter: string, gearRfid: string, dueDay: int)
    requires CheckoutFailure(members, gear, staffer, renter, gearRfid).None?
    ensures CheckinFailure(members, gear[gearRfid := RentedTo(gear[gearRfid], renter, dueDay)], staffer, gearRfid).None?
    ensures Returned(RentedTo(gear[gearRfid], renter, dueDay)).status == InStock
  {
  }

  /** A checkin authorised below Staff is refused, and rented gear stays rented. */
  lemma CheckinByNonStafferFails(members: map<string, MemberView>, gear: map<string, Gear>,
                                 staffer: string, gearRfid: string, s: Role)
    requires staffer != T.SystemAuthorizer && staffer in members
    requires InGroup(members[staffer], s) && !AtLeast(s, Staff)
    requires gearRfid in gear
    ensures CheckinFailure(members, gear, staffer, gearRfid) == Some(NotAuthorized)
  {
    StafferIffAtLeastStaff(s);
  }

  /** Checking in gear that is in stock is accepted by a staffer. */
  lemma CheckinOfStockedGearAccepted(members: map<string, MemberView>, gear: map<string, Gear>,
                                     staffer: string, gearRfid: string, s: Role)
    requires staffer in members && InGroup(members[staffer], s) && AtLeast(s, Staff)
    requires gearRfid in gear && gear[gearRfid].status == InStock
    ensures CheckinFailure(members, gear, staffer, gearRfid).None?
  {
    StafferIffAtLeastStaff(s);
  }
}
