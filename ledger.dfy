// The gear ledger behind `Transaction.objects`: the gear table (status code,
// holder, due day) and the append-only transaction log.  The manager's own
// bodies are not part of this model; what it does is fixed here only as far
// as kiosk/tests/test_checkout_logic.py, the permission build and the callers
// in kiosk/CheckoutLogic.py, core/CheckoutLogic.py and core/DatabaseUpdates.py
// determine it.  Days are integers.
module Ledger {
  import opened Common
  import opened Groups
  import opened Codenames
  import opened Permissions
  import opened Members
  import T = Transactions

  /** core/models/GearModels.py `status_choices`. */
  datatype Status = InStock | CheckedOut | Broken | Missing | Dormant | Removed

  function Code(s: Status): (c: int)
    ensures 0 <= c <= 5
  {
    match s
    case InStock => 0
    case CheckedOut => 1
    case Broken => 2
    case Missing => 3
    case Dormant => 4
    case Removed => 5
  }

  /** The status stored under an integer, if it is one of the six choices. */
  function StatusOf(c: int): (s: Option<Status>)
    ensures s.Some? <==> 0 <= c <= 5
    ensures s.Some? ==> Code(s.value) == c
  {
    if c == 0 then Some(InStock)
    else if c == 1 then Some(CheckedOut)
    else if c == 2 then Some(Broken)
    else if c == 3 then Some(Missing)
    else if c == 4 then Some(Dormant)
    else if c == 5 then Some(Removed)
    else None
  }

  /** Distinct statuses have distinct codes, and every code reads back. */
  lemma StatusCodeRoundTrip(s: Status)
    ensures StatusOf(Code(s)) == Some(s)
  {
  }

  /** One gear row. */
  datatype Gear = Gear(name: string, status: Status, holder: Option<string>, dueDay: Option<int>)

  /** Rented-out gear has a holder and a due day; gear in stock has no holder. */
  predicate GearConsistent(gear: map<string, Gear>)
  {
    forall k :: k in gear ==>
      (gear[k].status == CheckedOut ==> gear[k].holder.Some? && gear[k].dueDay.Some?)
      && (gear[k].status == InStock ==> gear[k].holder.None?)
  }

  /** Why a checkout or checkin fails: the two DoesNotExist errors, or a ValidationError. */
  datatype Failure = GearDoesNotExist | MemberDoesNotExist | NotAuthorized | MayNotRent | Unavailable

  predicate IsValidationError(f: Failure)
  {
    f == NotAuthorized || f == MayNotRent || f == Unavailable
  }

  /**
   * The renter may rent: active (Django grants only to active users) and
   * with the `group` shortcut naming Member or a group above it, the groups
   * the permission build gives `rent_gear` (`MayRentIffHoldsRentGear`).
   * Like `is_staffer`, the decision reads the shortcut, not the group
   * relation: the kiosk tests' renter keeps the relation {Just Joined} from
   * `create_member` and has only its shortcut set to "Member", and renting
   * to it succeeds (`ShortcutDecidesRenting`).
   */
  predicate MayRent(m: MemberView)
  {
    m.isActive && (m.group == "Member" || IsStafferName(m.group))
  }

  /** May rent exactly when active and the group the shortcut names holds `rent_gear`. */
  lemma MayRentIffHoldsRentGear(m: MemberView)
    ensures MayRent(m) <==>
              m.isActive && RoleNamed(m.group).Some? && RentGear in Granted(RoleNamed(m.group).value)
  {
    match RoleNamed(m.group)
    case None =>
    case Some(r) =>
      RentGearFromMember(r);
      assert Name(r) == m.group;
  }

  /** A member whose shortcut names group `r` may rent exactly when active and Member or above. */
  lemma MayRentIffAtLeastMember(m: MemberView, r: Role)
    requires m.group == Name(r)
    ensures MayRent(m) <==> m.isActive && AtLeast(r, Member)
  {
  }

  /**
   * The kiosk tests' renter: still related to Just Joined only, but with the
   * shortcut set to "Member", it may rent; with the shortcut set to Just
   * Joined or Expired it may not, whatever the relation holds.
   */
  lemma ShortcutDecidesRenting(m: MemberView)
    requires m.isActive && m.groups == {JustJoined}
    ensures m.group == "Member" ==> MayRent(m)
    ensures m.group == "Just Joined" || m.group == "Expired" ==> !MayRent(m)
  {
  }

  /**
   * The failure of `make_checkout`, or None: both members are looked up,
   * then the gear, then the authorizer must pass `validate_auth`, the renter
   * may rent by its shortcut, and the gear must be in stock.
   */
  function CheckoutFailure(members: map<string, MemberView>, gear: map<string, Gear>,
                           staffer: string, renter: string, gearRfid: string): (f: Option<Failure>)
    ensures f.None? <==>
              T.ValidateAuth(staffer, members) == T.Authorized && renter in members
              && gearRfid in gear && MayRent(members[renter]) && gear[gearRfid].status == InStock
    ensures f == Some(MemberDoesNotExist) <==>
              T.ValidateAuth(staffer, members) == T.UnknownAuthorizer || renter !in members
    ensures f.Some? && f != Some(MemberDoesNotExist) && f != Some(GearDoesNotExist) ==> IsValidationError(f.value)
  {
    var auth := T.ValidateAuth(staffer, members);
    if auth == T.UnknownAuthorizer || renter !in members then Some(MemberDoesNotExist)
    else if gearRfid !in gear then Some(GearDoesNotExist)
    else if auth != T.Authorized then Some(NotAuthorized)
    else if !MayRent(members[renter]) then Some(MayNotRent)
    else if gear[gearRfid].status != InStock then Some(Unavailable)
    else None
  }

  /** The row after a checkout. */
  function RentedTo(g: Gear, renter: string, dueDay: int): (h: Gear)
    ensures h.status == CheckedOut && h.holder == Some(renter) && h.dueDay == Some(dueDay)
    ensures h.name == g.name
  {
    g.(status := CheckedOut, holder := Some(renter), dueDay := Some(dueDay))
  }

  /**
   * The failure of `check_in_gear`, or None: the authorizer is looked up and
   * must pass `validate_auth`, the gear must exist, and gear that is broken
   * or removed cannot be checked in.
   */
  function CheckinFailure(members: map<string, MemberView>, gear: map<string, Gear>,
                          staffer: string, gearRfid: string): (f: Option<Failure>)
    ensures f.None? <==>
              T.ValidateAuth(staffer, members) == T.Authorized && gearRfid in gear
              && gear[gearRfid].status != Broken && gear[gearRfid].status != Removed
    ensures f == Some(MemberDoesNotExist) <==> T.ValidateAuth(staffer, members) == T.UnknownAuthorizer
  {
    var auth := T.ValidateAuth(staffer, members);
    if auth == T.UnknownAuthorizer then Some(MemberDoesNotExist)
    else if gearRfid !in gear then Some(GearDoesNotExist)
    else if auth != T.Authorized then Some(NotAuthorized)
    else if gear[gearRfid].status == Broken || gear[gearRfid].status == Removed then Some(Unavailable)
    else None
  }

  /** The row after a checkin: in stock, with no holder and no due day. */
  function Returned(g: Gear): (h: Gear)
    ensures h.status == InStock && h.holder.None? && h.dueDay.None? && h.name == g.name
  {
    g.(status := InStock, holder := None, dueDay := None)
  }

  /** The system rfid the scheduled sweeps authorise with. */
  const SystemRfid: string := "1111111111"

  /**
   * Who may stand in a transaction's authorizer column: the sweeps' system
   * rfid, or an authorizer `validate_auth` accepts, that is "System" or the
   * rfid of a staffer.
   */
  predicate LoggedBy(authorizer: string, members: map<string, MemberView>)
  {
    authorizer == SystemRfid || T.ValidateAuth(authorizer, members) == T.Authorized
  }

  /** Every transaction of `log` has such an authorizer. */
  predicate LogAuthorized(log: seq<T.Transaction>, members: map<string, MemberView>)
  {
    forall i :: 0 <= i < |log| ==> LoggedBy(log[i].authorizer, members)
  }

  /**
   * Such an authorizer fits the 10-character authorizer column whenever the
   * member rfids do; the member form admits only 10-digit rfids.
   */
  lemma AuthorizerFits(authorizer: string, members: map<string, MemberView>)
    requires forall k :: k in members ==> |k| <= T.AuthorizerWidth
    requires LoggedBy(authorizer, members)
    ensures |authorizer| <= T.AuthorizerWidth
    ensures authorizer == SystemRfid || authorizer == T.SystemAuthorizer
            || (authorizer in members && IsStafferName(members[authorizer].group))
  {
    if authorizer != SystemRfid && authorizer != T.SystemAuthorizer {
      assert authorizer in members;
    }
  }

  /** A log stays authorised exactly when the entry appended to it is. */
  lemma LogAuthorizedAppend(log: seq<T.Transaction>, t: T.Transaction, members: map<string, MemberView>)
    ensures LogAuthorized(log + [t], members) <==> LogAuthorized(log, members) && LoggedBy(t.authorizer, members)
  {
    if LogAuthorized(log + [t], members) {
      forall i | 0 <= i < |log|
        ensures LoggedBy(log[i].authorizer, members)
      {
        assert (log + [t])[i] == log[i];
      }
      assert (log + [t])[|log|] == t;
    }
  }

  class GearLedger {
    var gear: map<string, Gear>
    var transactions: seq<T.Transaction>

    /** Consistent rows, and every transaction names gear of the table. */
    ghost predicate Valid()
      reads this
    {
      GearConsistent(gear) && forall i :: 0 <= i < |transactions| ==> transactions[i].gearRfid in gear
    }

    constructor (gear: map<string, Gear>)
      requires GearConsistent(gear)
      ensures this.gear == gear && transactions == [] && Valid()
    {
      this.gear := gear;
      transactions := [];
    }

    /**
     * With member rfids no longer than the authorizer column, every authorizer
     * of an authorised log fits that column.
     */
    lemma LoggedAuthorizersFit(members: map<string, MemberView>)
      requires forall k :: k in members ==> |k| <= T.AuthorizerWidth
      requires LogAuthorized(transactions, members)
      ensures forall i :: 0 <= i < |transactions| ==> |transactions[i].authorizer| <= T.AuthorizerWidth
    {
      forall i | 0 <= i < |transactions|
        ensures |transactions[i].authorizer| <= T.AuthorizerWidth
      {
        AuthorizerFits(transactions[i].authorizer, members);
      }
    }

    /**
     * `make_checkout`: on success the gear is rented to the renter until
     * `dueDay` and one CheckOut transaction is appended; on failure nothing
     * changes.
     */
    method MakeCheckout(members: map<string, MemberView>, staffer: string, gearRfid: string,
                        renter: string, dueDay: int, now: int)
      returns (failure: Option<Failure>)
      requires Valid()
      modifies this
      ensures Valid()
      ensures failure == CheckoutFailure(members, old(gear), staffer, renter, gearRfid)
      ensures failure.Some? ==> gear == old(gear) && transactions == old(transactions)
      ensures failure.None? ==>
                gear == old(gear)[gearRfid := RentedTo(old(gear)[gearRfid], renter, dueDay)]
                && transactions == old(transactions)
                   + [T.Transaction(now, T.CheckOut, gearRfid, Some(renter), staffer)]
      ensures LogAuthorized(old(transactions), members) ==> LogAuthorized(transactions, members)
    {
      failure := CheckoutFailure(members, gear, staffer, renter, gearRfid);
      if failure.None? {
        gear := gear[gearRfid := RentedTo(gear[gearRfid], renter, dueDay)];
        transactions := transactions + [T.Transaction(now, T.CheckOut, gearRfid, Some(renter), staffer)];
      }
    }

    /**
     * `check_in_gear`: gear already in stock stays as it is and nothing is
     * logged; other gear returns to stock with one CheckIn transaction.
     */
    method CheckInGear(members: map<string, MemberView>, staffer: string, gearRfid: string, now: int)
      returns (failure: Option<Failure>)
      requires Valid()
      modifies this
      ensures Valid()
      ensures failure == CheckinFailure(members, old(gear), staffer, gearRfid)
      ensures failure.Some? || old(gear)[gearRfid].status == InStock ==>
                gear == old(gear) && transactions == old(transactions)
      ensures failure.None? && old(gear)[gearRfid].status != InStock ==>
                gear == old(gear)[gearRfid := Returned(old(gear)[gearRfid])]
                && transactions == old(transactions)
                   + [T.Transaction(now, T.CheckIn, gearRfid, old(gear)[gearRfid].holder, staffer)]
      ensures LogAuthorized(old(transactions), members) ==> LogAuthorized(transactions, members)
    {
      failure := CheckinFailure(members, gear, staffer, gearRfid);
      if failure.None? && gear[gearRfid].status != InStock {
        var holder := gear[gearRfid].holder;
        gear := gear[gearRfid := Returned(gear[gearRfid])];
        transactions := transactions + [T.Transaction(now, T.CheckIn, gearRfid, holder, staffer)];
      }
    }

    /** `missing_gear`: the gear's status becomes Missing and one Missing transaction is logged. */
    method MissingGear(authorizer: string, gearRfid: string, now: int) returns (failure: Option<Failure>)
      requires Valid()
      modifies this
      ensures Valid()
      ensures failure.Some? <==> gearRfid !in old(gear)
      ensures failure.Some? ==> failure == Some(GearDoesNotExist) && gear == old(gear) && transactions == old(transactions)
      ensures failure.None? ==>
                gear == old(gear)[gearRfid := old(gear)[gearRfid].(status := Missing)]
                && transactions == old(transactions) + [T.Transaction(now, T.Missing, gearRfid, None, authorizer)]
      ensures forall members :: LogAuthorized(old(transactions), members) && LoggedBy(authorizer, members) ==>
                LogAuthorized(transactions, members)
    {
      if gearRfid !in gear {
        return Some(GearDoesNotExist);
      }
      gear := gear[gearRfid := gear[gearRfid].(status := Missing)];
      transactions := transactions + [T.Transaction(now, T.Missing, gearRfid, None, authorizer)];
      failure := None;
    }

    /** `expire_gear`: the gear's status becomes Dormant and one Expire transaction is logged. */
    method ExpireGear(authorizer: string, gearRfid: string, now: int) returns (failure: Option<Failure>)
      requires Valid()
      modifies this
      ensures Valid()
      ensures failure.Some? <==> gearRfid !in old(gear)
      ensures failure.Some? ==> failure == Some(GearDoesNotExist) && gear == old(gear) && transactions == old(transactions)
      ensures failure.None? ==>
                gear == old(gear)[gearRfid := old(gear)[gearRfid].(status := Dormant)]
                && transactions == old(transactions) + [T.Transaction(now, T.Expire, gearRfid, None, authorizer)]
      ensures forall members :: LogAuthorized(old(transactions), members) && LoggedBy(authorizer, members) ==>
                LogAuthorized(transactions, members)
    {
      if gearRfid !in gear {
        return Some(GearDoesNotExist);
      }
      gear := gear[gearRfid := gear[gearRfid].(status := Dormant)];
      transactions := transactions + [T.Transaction(now, T.Expire, gearRfid, None, authorizer)];
      failure := None;
    }
  }
}
