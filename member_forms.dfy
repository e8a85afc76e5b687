// core/forms/MemberForms.py: the cleaners of the signup form, the staffer
// data form and the member change form.  Django runs them field by field; a
// cleaner either returns the cleaned value or raises ValidationError.
module MemberForms {
  import opened Common
  import opened Strings
  import opened Groups
  import opened Rfids
  import Members

  /**
   * What a cleaner does: return a value, raise ValidationError with a
   * message, or raise some other exception.
   */
  datatype Cleaned<T> = Valid(value: T) | Invalid(message: string) | Raised

  const RfidInUse: string := "This RFID is already in use!"
  const RfidNotTenDigits: string := "This is not a valid 10 digit RFID!"
  const PasswordRequired: string := "Password is required when you're signing up"
  const PasswordsDiffer: string := "Passwords don't match"
  const InvalidChoice: string := "Invalid membership choice!"
  const AlreadyExists: string :=
    "A member with this email already exists! Make sure you selected the right membership!"
  const NotFound: string :=
    "Could not find the member! Please make sure you typed the email correctly!"
  const NotOneGroup: string := "Each member must be in exactly one group!"

  /** The index of the first member with this email (`filter(email=...)[0]`), if any. */
  function FirstWithEmail(emails: seq<string>, email: string): (found: Option<nat>)
    ensures found.Some? ==> found.value < |emails| && emails[found.value] == email
                            && email !in emails[..found.value]
    ensures found.None? <==> email !in emails
  {
    if |emails| == 0 then None
    else if emails[0] == email then Some(0)
    else
      var rest := FirstWithEmail(emails[1..], email);
      assert emails == [emails[0]] + emails[1..];
      if rest.None? then None else Some(rest.value + 1)
  }

  /**
   * `clean_rfid`, where `renewing` says whether `clean_username` found a
   * member.  A renewing member's bad length raises the bare ValidationError
   * class, which cannot be built without a message (`Raised`).
   */
  function CleanRfid(rfid: string, inUse: seq<string>, renewing: bool): (c: Cleaned<string>)
    ensures c.Valid? <==> rfid !in inUse && (if renewing then |rfid| == 0 || |rfid| == 10 else |rfid| == 10)
    ensures c.Valid? ==> c.value == rfid
    ensures rfid in inUse ==> c == Invalid(RfidInUse)
    ensures rfid !in inUse && !renewing && |rfid| != 10 ==> c == Invalid(RfidNotTenDigits)
    ensures c.Raised? <==> rfid !in inUse && renewing && |rfid| != 0 && |rfid| != 10
  {
    if rfid in inUse then Invalid(RfidInUse)
    else if renewing && !(|rfid| == 0 || |rfid| == 10) then Raised
    else if !renewing && |rfid| != 10 then Invalid(RfidNotTenDigits)
    else Valid(rfid)
  }

  /** An accepted rfid is carried by no member and no gear item. */
  lemma AcceptedRfidIsFree(rfid: string, memberRfids: seq<string>, gearRfids: seq<string>, renewing: bool)
    requires CleanRfid(rfid, AllRfids(memberRfids, gearRfids), renewing).Valid?
    ensures rfid !in memberRfids && rfid !in gearRfids
  {
    AllRfidsMembership(memberRfids, gearRfids, rfid);
  }

  /** `clean_password1`: a password is required only of a new member. */
  function CleanPassword1(password: string, renewing: bool): (c: Cleaned<string>)
    ensures c.Invalid? <==> !renewing && password == ""
    ensures c.Invalid? ==> c.message == PasswordRequired
    ensures !c.Invalid? ==> c == Valid(password)
  {
    if !renewing && password == "" then Invalid(PasswordRequired) else Valid(password)
  }

  /**
   * `clean_password2`: an error only when both entries are present,
   * non-empty and different.
   */
  function CleanPassword2(password1: Option<string>, password2: Option<string>): (c: Cleaned<Option<string>>)
    ensures c.Invalid? <==> password1.Some? && password2.Some? && password1.value != ""
                            && password2.value != "" && password1.value != password2.value
    ensures c.Invalid? ==> c.message == PasswordsDiffer
    ensures !c.Invalid? ==> c == Valid(password2)
  {
    if password1.Some? && password1.value != "" && password2.Some? && password2.value != ""
       && password1.value != password2.value
    then Invalid(PasswordsDiffer)
    else Valid(password2)
  }

  /** Two equal entries always pass. */
  lemma EqualPasswordsPass(p: Option<string>)
    ensures CleanPassword2(p, p).Valid?
  {
  }

  /** The membership selection's length in days: a year, a quarter, or invalid. */
  function MembershipDays(selection: string): (days: Option<int>)
    ensures Contains(selection, "year") ==> days == Some(365)
    ensures !Contains(selection, "year") && Contains(selection, "quarter") ==> days == Some(90)
    ensures days.None? <==> !Contains(selection, "year") && !Contains(selection, "quarter")
  {
    if Contains(selection, "year") then Some(365)
    else if Contains(selection, "quarter") then Some(90)
    else None
  }

  /** `is_new_membership` */
  predicate IsNewMembership(selection: string)
  {
    Contains(selection, "new")
  }

  /** "year_new": a new membership of 365 days. */
  lemma YearNewChoice()
    ensures MembershipDays("year_new") == Some(365) && IsNewMembership("year_new")
  {
    PrefixContained("year_new", "year");
    assert "new" <= "year_new"[5..];
  }

  /** "year_return": a returning membership of 365 days. */
  lemma YearReturnChoice()
    ensures MembershipDays("year_return") == Some(365) && !IsNewMembership("year_return")
  {
    PrefixContained("year_return", "year");
    NotContainedWithout("year_return", "new", 'w');
  }

  /** "quarter_new": a new membership of 90 days. */
  lemma QuarterNewChoice()
    ensures MembershipDays("quarter_new") == Some(90) && IsNewMembership("quarter_new")
  {
    NotContainedWithout("quarter_new", "year", 'y');
    PrefixContained("quarter_new", "quarter");
    assert "new" <= "quarter_new"[8..];
  }

  /** "quarter_return" lasts 90 days. */
  lemma QuarterReturnDays()
    ensures MembershipDays("quarter_return") == Some(90)
  {
    PrefixContained("quarter_return", "quarter");
    NotContainedWithout("quarter_return", "year", 'y');
  }

  /** "quarter_return" is a returning membership. */
  lemma QuarterReturnNotNew()
    ensures !IsNewMembership("quarter_return")
  {
    NotContainedWithout("quarter_return", "new", 'w');
  }

  /** The signup form's state that later cleaners read. */
  class MemberCreationForm {
    var referencedMember: Option<nat>
    var membershipDuration: int

    constructor ()
      ensures referencedMember.None? && membershipDuration == 0
    {
      referencedMember := None;
      membershipDuration := 0;
    }

    /** Whether `clean_username` found an existing member to renew. */
    predicate Renewing()
      reads this
    {
      referencedMember.Some?
    }

    /**
     * `clean_username`: remembers the first member with this email, leaves
     * the reference alone when there is none, and returns the email.
     */
    method CleanUsername(email: string, memberEmails: seq<string>) returns (cleaned: string)
      modifies this`referencedMember
      ensures cleaned == email
      ensures email in memberEmails ==> referencedMember == FirstWithEmail(memberEmails, email)
      ensures email !in memberEmails ==> referencedMember == old(referencedMember)
    {
      var current := FirstWithEmail(memberEmails, email);
      if current.Some? {
        referencedMember := current;
      }
      cleaned := email;
    }

    /**
     * `clean_membership`: stores the duration, then checks that a new
     * membership has no existing member and a returning one has one.  On
     * success it returns nothing, so the cleaned value is None.
     */
    method CleanMembership(selection: string) returns (c: Cleaned<Option<string>>)
      modifies this`membershipDuration
      ensures MembershipDays(selection).None? ==> c == Invalid(InvalidChoice)
                                                  && membershipDuration == old(membershipDuration)
      ensures MembershipDays(selection).Some? ==> membershipDuration == MembershipDays(selection).value
      ensures (MembershipDays(selection).Some? && IsNewMembership(selection) && Renewing())
              ==> c == Invalid(AlreadyExists)
      ensures (MembershipDays(selection).Some? && !IsNewMembership(selection) && !Renewing())
              ==> c == Invalid(NotFound)
      ensures c.Valid? <==> MembershipDays(selection).Some? && (IsNewMembership(selection) <==> !Renewing())
      ensures c.Valid? ==> c.value.None?
    {
      var days := MembershipDays(selection);
      if days.None? {
        return Invalid(InvalidChoice);
      }
      membershipDuration := days.value;
      if IsNewMembership(selection) && referencedMember.Some? {
        c := Invalid(AlreadyExists);
      } else if !IsNewMembership(selection) && referencedMember.None? {
        c := Invalid(NotFound);
      } else {
        c := Valid(None);
      }
    }
  }

  /** `clean_exc_email` as written: the old club's domain is appended. */
  function CleanExcEmail(staffName: string): (email: string)
    ensures staffName <= email && email[|staffName|..] == "@excursionclubucsb.org"
  {
    staffName + "@excursionclubucsb.org"
  }

  /** The address the form stores differs from the one `upgrade_to_staffer` builds. */
  lemma ExcEmailDisagrees(staffName: string)
    ensures CleanExcEmail(staffName) != staffName + Members.ClubEmail
  {
    var a := CleanExcEmail(staffName);
    var b := staffName + Members.ClubEmail;
    assert a[|staffName| + 1] == 'e' && b[|staffName| + 1] == 'c';
  }

  /** The evidently intended cleaner: the configured club domain. */
  function CleanExcEmailClub(staffName: string): (email: string)
    ensures staffName <= email && email[|staffName|..] == Members.ClubEmail
  {
    staffName + Members.ClubEmail
  }

  /**
   * `clean_groups`: exactly one group is accepted, and its name is recorded
   * for the `move_to_group` that `save` performs.
   */
  function CleanGroups(groups: seq<Role>): (c: Cleaned<(seq<Role>, string)>)
    ensures c.Valid? <==> |groups| == 1
    ensures c.Valid? ==> c.value.0 == groups && c.value.1 == Name(groups[0])
    ensures !c.Valid? ==> c == Invalid(NotOneGroup)
  {
    if |groups| != 1 then Invalid(NotOneGroup) else Valid((groups, Name(groups[0])))
  }

  /** The recorded name always moves the member into exactly the chosen group. */
  lemma CleanGroupsNameFindsGroup(groups: seq<Role>)
    requires CleanGroups(groups).Valid?
    ensures RoleNamed(CleanGroups(groups).value.1) == Some(groups[0])
  {
    NameRoundTrip(groups[0]);
  }
}
