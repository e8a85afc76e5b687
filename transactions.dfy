// core/models/TransactionModels.py: the transaction record, its closed set of
// types, and `validate_auth`, which decides who may authorise a transaction.
// Members are looked up by rfid, which is unique (core/models/fields/RFIDField.py).
module Transactions {
  import opened Common
  import opened Groups
  import opened Codenames
  import opened Permissions
  import opened Members

  /** The ten values of `transaction_types`. */
  datatype Kind = CheckOut | CheckIn | Inventory | Create | Delete | ReTag | Break | Fix | Missing | Expire

  /** The value stored in the `type` column. */
  function KindCode(k: Kind): string
  {
    match k
    case CheckOut => "CheckOut"
    case CheckIn => "CheckIn"
    case Inventory => "Inventory"
    case Create => "Create"
    case Delete => "Delete"
    case ReTag => "ReTag"
    case Break => "Break"
    case Fix => "Fix"
    case Missing => "Missing"
    case Expire => "Expire"
  }

  /** Reads a `type` column back; anything outside the choices is None. */
  function KindNamed(code: string): (k: Option<Kind>)
    ensures k.Some? ==> KindCode(k.value) == code
  {
    if code == "CheckOut" then Some(CheckOut)
    else if code == "CheckIn" then Some(CheckIn)
    else if code == "Inventory" then Some(Inventory)
    else if code == "Create" then Some(Create)
    else if code == "Delete" then Some(Delete)
    else if code == "ReTag" then Some(ReTag)
    else if code == "Break" then Some(Break)
    else if code == "Fix" then Some(Fix)
    else if code == "Missing" then Some(Missing)
    else if code == "Expire" then Some(Expire)
    else None
  }

  /** Every type is stored under a code that reads back as that type. */
  lemma KindCodeRoundTrip(k: Kind)
    ensures KindNamed(KindCode(k)) == Some(k)
  {
  }

  /** Every stored code fits the column's 20 characters. */
  lemma KindCodeFits(k: Kind)
    ensures |KindCode(k)| <= 20
  {
  }

  /**
   * One transaction: when, what type, the gear it is about (always present),
   * the member it concerns (optional), and who authorised it.
   */
  datatype Transaction = Transaction(
    timestamp: int,
    kind: Kind,
    gearRfid: string,
    memberRfid: Option<string>,
    authorizer: string)

  /** The authorizer column's `max_length`. */
  const AuthorizerWidth: nat := 10

  const SystemAuthorizer: string := "System"

  /** The outcome of an authorisation check. */
  datatype Auth = Authorized | Refused | UnknownAuthorizer | Raised

  /**
   * `validate_auth` as written: "System" passes without a lookup; any other
   * authorizer is looked up (DoesNotExist when absent) and then
   * `is_staff()` is called, but `is_staff` is a property whose value is
   * True, so the call raises TypeError for every member found.
   */
  function ValidateAuthAsWritten(authorizer: string, members: map<string, MemberView>): (a: Auth)
    ensures a == Authorized <==> authorizer == SystemAuthorizer
    ensures a == UnknownAuthorizer <==> authorizer != SystemAuthorizer && authorizer !in members
    ensures a != Refused
  {
    if authorizer == SystemAuthorizer then Authorized
    else if authorizer !in members then UnknownAuthorizer
    else Raised
  }

  /** Even a staffer's rfid cannot authorise anything as written. */
  lemma StafferCannotAuthorizeAsWritten(members: map<string, MemberView>)
    requires "0000000000" in members && members["0000000000"].group == "Admin"
    ensures IsStafferName(members["0000000000"].group)
    ensures ValidateAuthAsWritten("0000000000", members) == Raised
  {
  }

  /**
   * `validate_auth` as evidently intended: "System", or the rfid of an
   * existing member who is a staffer (`is_staffer`).
   */
  function ValidateAuth(authorizer: string, members: map<string, MemberView>): (a: Auth)
    ensures a == Authorized <==>
              authorizer == SystemAuthorizer
              || (authorizer in members && IsStafferName(members[authorizer].group))
    ensures a == UnknownAuthorizer <==> authorizer != SystemAuthorizer && authorizer !in members
    ensures a != Raised
  {
    if authorizer == SystemAuthorizer then Authorized
    else if authorizer !in members then UnknownAuthorizer
    else if IsStafferName(members[authorizer].group) then Authorized
    else Refused
  }

  /**
   * For a member whose group relation and shortcut agree, passing the check
   * is the same as holding `authorize_transactions`.
   */
  lemma AuthorizedIffHoldsAuthorize(authorizer: string, members: map<string, MemberView>, r: Role)
    requires authorizer != SystemAuthorizer && authorizer in members
    requires members[authorizer].groups == {r} && members[authorizer].group == Name(r)
    ensures ValidateAuth(authorizer, members) == Authorized <==> AuthorizeTransactions in Granted(r)
  {
    StafferIffAtLeastStaff(r);
    AuthorizeFromStaff(r);
  }
}
