# ExCSystem core, modelled in Dafny

ExCSystem runs a club's gear room. Members are placed in one of six groups, in
ascending order of power: Just Joined, Expired, Member, Staff, Board and Admin.
Each group holds the permissions of every group below it, plus its own. Staff
check gear out and in at a kiosk, a door gate admits active members by rfid,
and scheduled sweeps mark overdue gear missing and expire members and gear.
Helper scripts build the permission groups and port members from the old
database.

This project models those parts as Dafny modules, one or two per source file,
and proves what each promises:

- the permission builders are classes over the accumulating permission list
  (`Permissions`, `LegacyPermissions`);
- the member record is a class whose methods change its group, expiry, rfid
  and password (`Members`);
- the signup and change form cleaners (`MemberForms`), the rfid list
  (`Rfids`) and the gate check with its log (`GateCheck`);
- the transaction record and the authoriser check (`Transactions`);
- the gear table and transaction log kept by the transaction manager, as a
  class (`Ledger`);
- the two checkout front ends (`KioskCheckout`, `CoreCheckout`);
- the scheduled sweeps (`DatabaseUpdates`, `Tasks`);
- the time-plus-random id (`PrimaryKey`) and the image grouping (`Widgets`);
- the member port scripts (`PortMembers`, `LegacyPort`), the active-flag
  reconciliation (`Listserv`) and the listing padding (`RemoveMember`).

Time is an integer. It is a day number in the member and gear modules,
milliseconds in `PrimaryKey`, and seconds since the epoch in the port scripts.
Clocks, random bits, database lookups and the outcomes of foreign calls are
parameters. The database is modelled by the values and maps it holds: groups
by name, members by rfid, gear by rfid.

## Model

| member | source | states |
|---|---|---|
| Groups.RoleNamed | core/models/MemberModels.py:324 | Looking up a group by name finds a group with that name, or none when no group has it |
| Groups.NameRoundTrip | helper_scripts/build_permissions.py:36-43 | The six groups have distinct names, so each is found again by its own name |
| Hierarchy.AccumulatedMonotonic | helper_scripts/build_permissions.py:15-18 | Whatever each builder adds, the list snapshot of a higher group contains that of every lower group |
| Hierarchy.AccumulatedIff | helper_scripts/build_permissions.py:322-333 | A group's snapshot holds a permission exactly when a builder at or below that group added it |
| Hierarchy.FirstAddedAt | helper_scripts/build_permissions.py:36-43 | A permission only one builder adds is held from that group upwards, and only there |
| Permissions.GrantedMonotonic | helper_scripts/build_permissions.py:36-43 | A higher group holds every permission of every lower group |
| Permissions.FirstGrantedAt | helper_scripts/build_permissions.py:46-306 | A permission added by one builder only is held exactly from that group upwards |
| Permissions.ExpiredSameAsJustJoined | helper_scripts/build_permissions.py:61-63 | Expired's permission set equals Just Joined's |
| Permissions.ActiveMemberFromMember | helper_scripts/build_permissions.py:66-96 | `is_active_member` is held exactly by Member and above |
| Permissions.RentGearFromMember | helper_scripts/build_permissions.py:66-96 | `rent_gear` is held exactly by Member and above |
| Permissions.AddGearFromStaff | helper_scripts/build_permissions.py:99-157 | `add_gear` is held exactly by Staff and above |
| Permissions.ChangeGearFromStaff | helper_scripts/build_permissions.py:99-157 | `change_gear` is held exactly by Staff and above |
| Permissions.AuthorizeFromStaff | helper_scripts/build_permissions.py:99-157 | `authorize_transactions` is held exactly by Staff and above |
| Permissions.RemoveGearFromBoard | helper_scripts/build_permissions.py:160-237 | `remove_gear` is held exactly by Board and above |
| Permissions.DeleteGearOnlyAdmin | helper_scripts/build_permissions.py:240-306 | `delete_gear` is held by Admin only |
| Permissions.PermissionBuilder.AddPermission | helper_scripts/build_permissions.py:322-333 | Adding a permission appends exactly one codename to the list, whether it was new or existed, stores it, and leaves the groups alone |
| Permissions.PermissionBuilder.AddGroup | helper_scripts/build_permissions.py:309-319 | A group is created only if its name is new; either way its permission set is replaced by the given list, not merged |
| Permissions.PermissionBuilder.BuildJustJoined | helper_scripts/build_permissions.py:46-58 | Appends Just Joined's codenames and gives the group the whole list so far |
| Permissions.PermissionBuilder.BuildExpired | helper_scripts/build_permissions.py:61-63 | Adds nothing and gives Expired the list so far |
| Permissions.PermissionBuilder.BuildMember | helper_scripts/build_permissions.py:66-96 | Appends Member's codenames and gives the group the list so far |
| Permissions.PermissionBuilder.BuildStaffer | helper_scripts/build_permissions.py:99-157 | Appends Staff's codenames and gives the group the list so far |
| Permissions.PermissionBuilder.BuildBoard | helper_scripts/build_permissions.py:160-237 | Appends Board's codenames and gives the group the list so far |
| Permissions.PermissionBuilder.BuildAdmin | helper_scripts/build_permissions.py:240-306 | Appends Admin's codenames and gives the group the list so far |
| Permissions.PermissionBuilder.BuildAll | helper_scripts/build_permissions.py:19-43 | After the six builders every group holds what the never-reset module list held before the run plus its own accumulated set, groups with other names are kept, the list gains Admin's snapshot and the table gains exactly Admin's permissions |
| Permissions.BuiltGroups | helper_scripts/build_permissions.py:36-43 | In the groups `build_all` leaves, each of the six names holds the earlier list plus its role's snapshot, no group is lost, and other groups keep their permissions |
| Permissions.BuiltRerunFresh | helper_scripts/build_permissions.py:309-319 | Because `add_group` replaces rather than creates, a second `build_all` in a fresh process leaves the groups as the first left them |
| Permissions.BuiltRerunInProcess | helper_scripts/build_permissions.py:19-43 | A second `build_all` in the same process starts from Admin's snapshot, so every one of the six groups ends up with Admin's permissions |
| Permissions.GrantedAdminParts | helper_scripts/build_permissions.py:240-306 | Admin holds exactly the union of what the five non-empty builders add |
| LegacyPermissions.LegacyExpiredSameAsJustJoined | buildPermissions.py:51-56 | Expired's set equals Just Joined's |
| LegacyPermissions.LegacyGrantedMonotonic | buildPermissions.py:26-34 | Among the groups below Admin, a higher group holds every permission of a lower one |
| LegacyPermissions.LegacyRentAndViewFromMember | buildPermissions.py:58-71 | `rent_gear` and `view_gear` are held exactly from Member upwards |
| LegacyPermissions.LegacyNoActiveMemberPermission | buildPermissions.py:36-139 | No group of this version holds `is_active_member` |
| LegacyPermissions.LegacyCheckoutCheckinFromStaff | buildPermissions.py:73-114 | `checkout_gear` and `checkin_gear` are held exactly from Staff upwards |
| LegacyPermissions.LegacyChangeMemberFromBoard | buildPermissions.py:116-137 | `change_member` is held exactly from Board upwards |
| LegacyPermissions.LegacyBuilder.AddPermission | buildPermissions.py:146-156 | Appends the codename and stores it |
| LegacyPermissions.LegacyBuilder.CreateGroup | buildPermissions.py:38 | Creating an existing group fails; a new group starts empty |
| LegacyPermissions.LegacyBuilder.SetPermissions | buildPermissions.py:47 | A group's permission set is replaced by the given set; the list and table are unchanged |
| LegacyPermissions.LegacyBuilder.BuildJustJoined | buildPermissions.py:36-48 | Fails with no change when Just Joined exists; otherwise appends its codenames, stores them and gives the group the whole list |
| LegacyPermissions.LegacyBuilder.BuildExpired | buildPermissions.py:51-55 | Fails with no change when Expired exists; otherwise gives it the list so far |
| LegacyPermissions.LegacyBuilder.BuildMember | buildPermissions.py:58-70 | Fails with no change when Member exists; otherwise appends its codenames, stores them and gives the group the whole list |
| LegacyPermissions.LegacyBuilder.BuildStaffer | buildPermissions.py:73-113 | Fails with no change when Staff exists; otherwise appends its codenames, stores them and gives the group the whole list |
| LegacyPermissions.LegacyBuilder.BuildBoard | buildPermissions.py:116-136 | Fails with no change when Board exists; otherwise appends its codenames, stores them and gives the group the whole list |
| LegacyPermissions.LegacyBuilder.BuildAdmin | buildPermissions.py:139-143 | Fails with no change when Admin exists; otherwise Admin gets the whole Permission table, not the list |
| LegacyPermissions.LegacyBuilder.BuildAll | buildPermissions.py:17-34 | The run succeeds exactly when none of the six groups exists; then each group below Admin holds the never-reset module list plus its accumulated set and Admin the whole table. When it stops at the lowest existing group, the groups built before it stay created and their codenames appended and stored |
| LegacyPermissions.LegacyBoardParts | buildPermissions.py:36-136 | Board holds exactly the union of what the four non-empty builders below it add |
| LegacyPermissions.LegacyBuiltGroups | buildPermissions.py:139-144 | After a successful run, Admin holds the whole table and every other of the six groups the earlier list plus its accumulated set |
| LegacyPermissions.LegacyBuiltKeeps | buildPermissions.py:26-34 | A successful run leaves a group with any other name as it was |
| LegacyPermissions.LegacyStoppedGroups | buildPermissions.py:26-34 | When the run stops, the group it stopped at existed; each group below it holds the earlier list plus its accumulated set, and every other name is as it was |
| LegacyPermissions.LegacyNotRerunnable | buildPermissions.py:38 | After a successful run all six names exist, so a second run fails |
| Members.ExpiryAfter | core/models/MemberModels.py:45-49 | The expiry is now plus the duration, or the largest date when that overflows |
| Members.FullName | core/models/MemberModels.py:182-189 | With both names known the full name is first, a space, then last; otherwise "New Member" |
| Members.Display | core/models/MemberModels.py:202-209 | A member shows as the full name when known, otherwise as the email |
| Members.DisplayIsFullName | core/models/MemberModels.py:202-209 | Unless the email is "New Member", a member shows as the full name exactly when both names are known |
| Members.StafferIffAtLeastStaff | core/models/MemberModels.py:160-163 | The `is_staffer` name test agrees with the hierarchy: exactly Staff and above |
| Members.ActiveMemberIffAtLeastMember | core/models/MemberModels.py:148-151 | A member of one group is an active member exactly when active and in Member or above |
| Members.Member.MoveToGroup | core/models/MemberModels.py:318-327 | The group relation becomes the named group and the shortcut its name; an unknown name empties the relation and raises before the shortcut is set |
| Members.Member.Expire | core/models/MemberModels.py:215-217 | The member ends in Expired alone and is no staffer |
| Members.Member.PromoteToActive | core/models/MemberModels.py:219-224 | Staff, Board and Admin are left alone; anyone else becomes Member |
| Members.Member.ExtendMembership | core/models/MemberModels.py:226-242 | Back to Just Joined; a lapsed membership restarts today, a running one is lengthened; a given rfid or password replaces the old one |
| Members.CreateMember | core/models/MemberModels.py:37-59 | An empty email gives no member; otherwise a fresh Just Joined member with the given email, rfid, password and expiry, no first or last name, and active |
| Members.UpgradeAutobiographyAsWritten | core/models/MemberModels.py:98-101 | As written, a given autobiography is replaced by None and a missing one gets the default |
| Members.UpgradeLosesAutobiography | core/models/MemberModels.py:100-101 | An autobiography passed in is lost |
| Members.UpgradeAutobiography | core/models/MemberModels.py:98-101 | A given autobiography is kept, a missing one gets the default |
| Members.UpgradeToStaffer | core/models/MemberModels.py:84-106 | The member moves to Staff with the largest expiry, and its email, rfid, password, names and active flag are unchanged; the profile's email is the staff name plus the club domain |
| Members.FavTripList | core/models/MemberModels.py:369-375 | The trips are the lines of the text, which join back to it, or the stock line when there is no text |
| Rfids.AllRfids | core/convinience.py:6-14 | The list is the member rfids followed by the gear rfids |
| Rfids.AllRfidsMembership | core/convinience.py:6-14 | An rfid is in use exactly when a member or a gear item carries it |
| MemberForms.FirstWithEmail | core/forms/MemberForms.py:66-68 | Finds the first member with the email, or none exactly when no member has it |
| MemberForms.CleanRfid | core/forms/MemberForms.py:72-86 | An rfid in use is refused; a renewal accepts an empty or 10-digit rfid and otherwise raises a bare error; a new member needs 10 digits |
| MemberForms.AcceptedRfidIsFree | core/forms/MemberForms.py:72-86 | An accepted rfid is carried by no member and no gear |
| MemberForms.CleanPassword1 | core/forms/MemberForms.py:88-93 | A password is required exactly of a new member |
| MemberForms.CleanPassword2 | core/forms/MemberForms.py:95-101 | An error exactly when both entries are non-empty and differ |
| MemberForms.EqualPasswordsPass | core/forms/MemberForms.py:95-101 | Two equal entries always pass |
| MemberForms.MembershipDays | core/forms/MemberForms.py:103-115 | "year" gives 365 days, else "quarter" gives 90, else the choice is invalid |
| MemberForms.YearNewChoice | core/forms/MemberForms.py:103-128 | "year_new" is a new membership of 365 days |
| MemberForms.YearReturnChoice | core/forms/MemberForms.py:103-128 | "year_return" is a returning membership of 365 days |
| MemberForms.QuarterNewChoice | core/forms/MemberForms.py:103-128 | "quarter_new" is a new membership of 90 days |
| MemberForms.QuarterReturnDays | core/forms/MemberForms.py:103-115 | "quarter_return" lasts 90 days |
| MemberForms.QuarterReturnNotNew | core/forms/MemberForms.py:126-128 | "quarter_return" is not a new membership |
| MemberForms.MemberCreationForm.CleanUsername | core/forms/MemberForms.py:62-70 | Remembers the first member with the email when there is one and returns the email |
| MemberForms.MemberCreationForm.CleanMembership | core/forms/MemberForms.py:103-124 | Stores the duration; a new membership for an existing member, or a return for an unknown one, is refused |
| MemberForms.CleanExcEmail | core/forms/MemberForms.py:355-360 | As written, the old club's domain is appended to the staff name |
| MemberForms.ExcEmailDisagrees | core/forms/MemberForms.py:355-360 | The form's address never equals the one `upgrade_to_staffer` builds |
| MemberForms.CleanExcEmailClub | core/forms/MemberForms.py:355-360 | The configured club domain is appended to the staff name |
| MemberForms.CleanGroups | core/forms/MemberForms.py:386-391 | Exactly one group is accepted and its name recorded |
| MemberForms.CleanGroupsNameFindsGroup | core/forms/MemberForms.py:386-395 | The recorded name moves the member into exactly the chosen group |
| GateCheck.Matching | api/models.py:11 | The members found are exactly those carrying the rfid |
| GateCheck.RfidCheckLog.Create | api/models.py:9-32 | The verdict is the outcome of the scan, and exactly one entry is appended to the log |
| GateCheck.UnknownRfidRefused | api/models.py:17-19 | An rfid no member carries is refused as "Not a member RFID" |
| GateCheck.SharedRfidRefused | api/models.py:14-16 | An rfid two members carry is refused |
| GateCheck.SoleHolderAdmittedIffMember | api/models.py:20-26 | The sole holder of an rfid is let in exactly when active and in Member or above |
| Transactions.KindNamed | core/models/TransactionModels.py:12-32 | A stored type reads back as the type stored under it |
| Transactions.KindCodeRoundTrip | core/models/TransactionModels.py:12-32 | Every type reads back from its stored value |
| Transactions.KindCodeFits | core/models/TransactionModels.py:38 | Every stored type fits the 20-character column |
| Transactions.ValidateAuthAsWritten | core/models/TransactionModels.py:52-58 | As written, "System" is authorised, an unknown rfid is not found, and any member raises |
| Transactions.StafferCannotAuthorizeAsWritten | core/models/TransactionModels.py:58 | Even an Admin's rfid raises instead of authorising |
| Transactions.ValidateAuth | core/models/TransactionModels.py:52-58 | "System" or the rfid of a Staff, Board or Admin member is authorised; an unknown rfid is not found; nothing raises |
| Transactions.AuthorizedIffHoldsAuthorize | core/models/TransactionModels.py:52-58 | A member is authorised exactly when its group holds `authorize_transactions` |
| Ledger.Code | core/models/GearModels.py:15-22 | Every status is stored as one of 0 to 5 |
| Ledger.StatusOf | core/models/GearModels.py:15-23 | An integer reads as a status exactly when it is 0 to 5, and reads back as that value |
| Ledger.StatusCodeRoundTrip | core/models/GearModels.py:15-22 | Every status reads back from its stored value |
| Ledger.MayRentIffAtLeastMember | kiosk/tests/test_checkout_logic.py:88-110 | A member whose group shortcut names one group may rent exactly when active and in Member or above |
| Ledger.MayRentIffHoldsRentGear | kiosk/tests/test_checkout_logic.py:88-110 | May rent exactly when active and the group its shortcut names holds `rent_gear` |
| Ledger.ShortcutDecidesRenting | kiosk/tests/test_checkout_logic.py:31-110 | With the group relation left at Just Joined, as the tests leave it, an active renter whose shortcut is "Member" may rent and one whose shortcut is "Just Joined" or "Expired" may not |
| Ledger.CheckoutFailure | kiosk/tests/test_checkout_logic.py:72-144 | A checkout goes through exactly when the authoriser and renter exist, the gear exists, the authoriser is a staffer, the renter is active with a shortcut of Member or above, and the gear is in stock; unknown rfids give DoesNotExist, the rest ValidationError |
| Ledger.RentedTo | kiosk/tests/test_checkout_logic.py:72-78 | Rented gear is checked out to the renter until the due day |
| Ledger.CheckinFailure | kiosk/tests/test_checkout_logic.py:146-175 | A checkin goes through exactly when the authoriser exists and is a staffer and the gear exists and can be returned |
| Ledger.Returned | kiosk/tests/test_checkout_logic.py:146-151 | Returned gear is in stock with no holder and no due day |
| Ledger.GearLedger.MakeCheckout | kiosk/tests/test_checkout_logic.py:72-144 | A refused checkout changes nothing; a granted one rents the gear and logs one CheckOut; a log whose authorizers are all accepted stays so |
| Ledger.GearLedger.CheckInGear | kiosk/tests/test_checkout_logic.py:146-175 | A refused checkin, or one of gear in stock, changes nothing; otherwise the gear is returned and one CheckIn logged; a log whose authorizers are all accepted stays so |
| Ledger.GearLedger.MissingGear | core/DatabaseUpdates.py:27 | Known gear becomes Missing with one Missing transaction logged; unknown gear is not found; with an accepted authorizer, an authorised log stays authorised |
| Ledger.GearLedger.ExpireGear | core/DatabaseUpdates.py:40 | Known gear becomes Dormant with one Expire transaction logged; unknown gear is not found; with an accepted authorizer, an authorised log stays authorised |
| Ledger.AuthorizerFits | core/models/TransactionModels.py:46-47 | An authorizer the log accepts is the sweeps' rfid, "System" or a staffer's rfid, and fits the 10-character column when member rfids do |
| Ledger.LogAuthorizedAppend | core/models/TransactionModels.py:46-47 | A log with one entry appended is authorised exactly when the log and the entry's authorizer are |
| Ledger.GearLedger.LoggedAuthorizersFit | core/models/TransactionModels.py:46-47 | With member rfids of at most 10 characters, every authorizer of an authorised log fits the 10-character column |
| KioskCheckout.DoCheckout | kiosk/CheckoutLogic.py:5-8 | The checkout is the ledger's, due a week from today |
| KioskCheckout.DoCheckin | kiosk/CheckoutLogic.py:11-12 | The checkin is the ledger's |
| KioskCheckout.CheckoutByStafferSucceeds | kiosk/tests/test_checkout_logic.py:72-86 | A staffer checks available gear out to an active member, or to themself, whatever their group relation holds: both tests read the group shortcut |
| KioskCheckout.CheckoutToNewOrExpiredFails | kiosk/tests/test_checkout_logic.py:88-110 | A Just Joined or Expired renter is refused |
| KioskCheckout.CheckoutByNonStafferFails | kiosk/tests/test_checkout_logic.py:112-119 | An authoriser below Staff is refused |
| KioskCheckout.SecondCheckoutFails | kiosk/tests/test_checkout_logic.py:121-129 | Rented gear cannot be checked out again |
| KioskCheckout.UnknownRfidsNotFound | kiosk/tests/test_checkout_logic.py:131-144 | Unknown gear, renter or authoriser gives the DoesNotExist of its table |
| KioskCheckout.CheckinAfterCheckout | kiosk/tests/test_checkout_logic.py:146-151 | After a checkout, a staffer's checkin puts the gear back in stock |
| KioskCheckout.CheckinByNonStafferFails | kiosk/tests/test_checkout_logic.py:153-159 | A checkin authorised below Staff is refused |
| KioskCheckout.CheckinOfStockedGearAccepted | kiosk/tests/test_checkout_logic.py:169-175 | A staffer may check in gear already in stock |
| CoreCheckout.RunLog | core/CheckoutLogic.py:20-23 | One CheckOut per listed gear is logged, in order, until the first refusal; the gear table keeps its keys; the run is complete exactly when every gear was checked out |
| CoreCheckout.DoCheckout | core/CheckoutLogic.py:8-23 | The ledger ends as the run of checkouts, all due a week from now, leaves it |
| CoreCheckout.RunRentsListed | core/CheckoutLogic.py:22-23 | Unlisted gear is untouched; after a complete run every listed gear is rented to the member until the shared due day |
| CoreCheckout.RunStops | core/CheckoutLogic.py:22-23 | After a refusal, later gear changes nothing |
| CoreCheckout.EmptyRunIssuesNothing | core/CheckoutLogic.py:22-23 | No gear, no change |
| CoreCheckout.RepeatedGearFails | core/CheckoutLogic.py:22-23 | Listing the same gear twice rents it once and then fails as unavailable |
| DatabaseUpdates.Swept | core/DatabaseUpdates.py:20-48 | A sweep keeps the gear table's keys and logs only entries for listed gear |
| DatabaseUpdates.SweptOutcome | core/DatabaseUpdates.py:20-48 | Unlisted gear is untouched, every listed row is kept or marked, the sweep completes exactly when no selected row lacks a due day, and a complete sweep marks exactly the overdue rows |
| DatabaseUpdates.SweptRows | core/DatabaseUpdates.py:20-48 | Unlisted gear is untouched and every listed row ends as it was or as the rule makes it |
| DatabaseUpdates.SweptOk | core/DatabaseUpdates.py:24-27 | The sweep ends normally exactly when no selected row lacks a due day |
| DatabaseUpdates.SweptApplied | core/DatabaseUpdates.py:20-48 | A sweep that ended normally leaves every selected row as the rule makes it |
| DatabaseUpdates.SweepStops | core/DatabaseUpdates.py:24-27 | After a row raises, the rest of the table changes nothing |
| DatabaseUpdates.SweptLogAuthorized | core/DatabaseUpdates.py:20-48 | Every entry a sweep logs carries the system rfid, so appending a sweep's log keeps a log authorised exactly when it was |
| DatabaseUpdates.RunSweep | core/DatabaseUpdates.py:20-48 | The ledger ends as the sweep leaves it, and an authorised log stays authorised |
| DatabaseUpdates.IdentifyMissingGear | core/DatabaseUpdates.py:20-27 | The ledger ends as the missing-gear sweep leaves it, and an authorised log stays authorised |
| DatabaseUpdates.ExpireGear | core/DatabaseUpdates.py:30-48 | The missing-gear expiry sweep runs, then the broken-gear one if the first completed; an authorised log stays authorised |
| DatabaseUpdates.MissingSweepCompletes | core/DatabaseUpdates.py:20-27 | In a consistent table every checked-out row has a due day, so the sweep completes |
| DatabaseUpdates.MissingSweepMarksOverdue | core/DatabaseUpdates.py:20-27 | Checked-out gear past its due day becomes Missing; everything else is unchanged |
| DatabaseUpdates.ExpirySweepsTouchOnlyMissingAndBroken | core/DatabaseUpdates.py:30-48 | The expiry sweeps change only Missing and Broken gear |
| DatabaseUpdates.ExpiryThresholds | core/DatabaseUpdates.py:35-47 | Missing gear expires only 90 days past due, broken gear only 150 |
| DatabaseUpdates.ExpireMembers | core/DatabaseUpdates.py:9-15 | Every active member past the expiry is moved to Expired and only its group fields change (email, rfid, password, names, active flag and expiry kept); the other members are unchanged |
| DatabaseUpdates.ExpiredIsNotActive | core/DatabaseUpdates.py:9-15 | An expired member is no longer an active member |
| Tasks.WarnedEmails | core/tasks.py:37-39 | At most one address per member is warned |
| Tasks.WarnedEmailsExact | core/tasks.py:28-39 | An address is warned exactly when an active member with it expires within the coming week and not before now |
| Tasks.WarnedEmailsSound | core/tasks.py:35-39 | Every address in the list belongs to a member the task warns |
| Tasks.WarnedEmailsComplete | core/tasks.py:35-39 | Every member the task warns has its address in the list |
| Tasks.ExpiredOrWarned | core/tasks.py:33-39 | No member is both expired and warned; one expiring later than a week is neither |
| Tasks.InactiveGroupsIgnored | core/tasks.py:31 | Just Joined and Expired members are neither expired nor warned |
| Tasks.AfterTask | core/tasks.py:31-35 | An expired member ends in Expired with every other field kept; anyone else is unchanged |
| Tasks.ExpireOrWarn | core/tasks.py:30-39 | One member is expired or reported for a warning, as the task decides |
| Tasks.ExpireMembers | core/tasks.py:23-39 | Every member's fields, password included, end as the task leaves them, and the warned addresses are those of the members warned, in order |
| PrimaryKey.MakeId | core/models/fields/PrimaryKeyField.py:8-18 | The id is the milliseconds since the start time times 2^23, plus the random part |
| PrimaryKey.MakeIdFits | core/models/fields/PrimaryKeyField.py:8-27 | An id fits in w bits exactly when the milliseconds since the start time fit in w - 23; for the signed 64-bit column (w = 63) that is below 2^40 |
| PrimaryKey.ReverseMakeId | core/models/fields/PrimaryKeyField.py:21-24 | Reversing an id gives back its creation time |
| PrimaryKey.LowBitsAreRandomPart | core/models/fields/PrimaryKeyField.py:15-17 | The low 23 bits of an id are its random part |
| PrimaryKey.LaterIdIsLarger | core/models/fields/PrimaryKeyField.py:15-17 | An id from a later millisecond is larger, whatever the random bits |
| PrimaryKey.SameMillisecond | core/models/fields/PrimaryKeyField.py:12 | Two ids of one millisecond coincide exactly when their random parts do |
| PrimaryKey.RandomPartCount | core/models/fields/PrimaryKeyField.py:12-16 | There are 8388608 random parts |
| Widgets.GetAvailableImages | core/forms/widgets.py:43-75 | The result is the grouping of the images, with no entry for the empty sub_type |
| Widgets.EmptyTypeStored | core/forms/widgets.py:70-73 | The empty sub_type always has an entry before it is deleted |
| Widgets.OfType | core/forms/widgets.py:60-67 | The images of one sub_type are images of the input with that sub_type |
| Widgets.OfTypeEmpty | core/forms/widgets.py:60-67 | A sub_type has no images exactly when no image has it |
| Widgets.ScanInvariant | core/forms/widgets.py:60-67 | On sorted input, the loop keeps each stored sub_type's images and the current run complete |
| Widgets.AvailableImagesGroups | core/forms/widgets.py:43-75 | On input sorted by sub_type, the keys are exactly the non-empty sub_types present, each holding its images in input order |
| Widgets.NoImagesNoOptions | core/forms/widgets.py:56-75 | No image gives no key |
| Widgets.SplitRunKeepsLast | core/forms/widgets.py:64-67 | A sub_type split into two runs keeps only its last run |
| PortMembers.ClassifyCases | helper_scripts/port_member_data.py:72-88 | Each group, and exactly the rows that reach it; a "member" row with another status, or active and expiring exactly now, assigns nothing; other rows are skipped |
| PortMembers.NamePartsRejoin | helper_scripts/port_member_data.py:58-65 | The first name is the first space-separated token and the last name the rest; rejoined with a space they give the full name, so there is always a first name |
| PortMembers.Certifications | helper_scripts/port_member_data.py:90-97 | Column 2 gives the SUP certification and column 3 Kayaking |
| PortMembers.PortMemberData | helper_scripts/port_member_data.py:41-140 | The counters and lists end as the row-by-row port leaves them |
| PortMembers.PortStops | helper_scripts/port_member_data.py:92-93 | After a row raises out of the loop, later rows change nothing |
| PortMembers.PortAccounting | helper_scripts/port_member_data.py:43-140 | The counters equal the lengths of their lists; every row handled is ported or skipped, except one that raised; only ported members are upgraded |
| PortMembers.StepCreates | helper_scripts/port_member_data.py:99-117 | A created member carries the row's data, and its group is the row's own, or the previous row's when the row assigns none |
| PortMembers.FirstUnassignedSkipped | helper_scripts/port_member_data.py:99-117 | A row that assigns no group before any group is set is skipped |
| PortMembers.StaffRowFirst | helper_scripts/port_member_data.py:80-117 | An active staff row, first in the table, is created as a Staff member and sets the current group to Staff |
| PortMembers.UnknownStatusInheritsGroup | helper_scripts/port_member_data.py:74-84 | A "member" row with an unknown status after a staff row is ported as Staff |
| LegacyPort.Selected | portMemberData.py:23-24 | The rows read are exactly those expiring after the cutoff |
| LegacyPort.ClassifySkipsUnassigned | portMemberData.py:64-77 | The flat chain places the same rows in the same groups as the nested one, and skips every other row |
| LegacyPort.PortUser | portMemberData.py:36-106 | One row is skipped, raises, or creates the member its classification and data give |
| LegacyPort.PortMemberData | portMemberData.py:34-106 | The counter and lists end as the row-by-row port of the selected rows leaves them |
| LegacyPort.PortStops | portMemberData.py:82 | After a row raises out of the loop, later rows change nothing |
| LegacyPort.PortAccounting | portMemberData.py:88-106 | The counter equals the number of created members; every row handled is ported or skipped, except one that raised |
| LegacyPort.GroupsFromOwnRow | portMemberData.py:64-77 | Every created member's group is its own row's classification |
| Listserv.TallyAsWritten | get_listser_email_file.py:19-37 | At most one count per member |
| Listserv.TallyIntended | get_listser_email_file.py:19-37 | At most one count per member |
| Listserv.TallyCounts | get_listser_email_file.py:27-37 | Both tallies count each mismatched member once, and the total counts the members whose group makes them active; the as-written tally swaps activated and deactivated |
| Listserv.ExpiredButActiveReportedActivated | get_listser_email_file.py:33-37 | An Expired member still flagged active is counted as activated |
| Listserv.UpdateActiveGroupBasedAsWritten | get_listser_email_file.py:15-42 | As written: the counters are the as-written tally and no member changes |
| Listserv.Reconcile | get_listser_email_file.py:25-39 | One member's flag is set from its group; its other fields, password included, are unchanged |
| Listserv.UpdateActiveGroupBased | get_listser_email_file.py:15-42 | Every member's flag is set from its group and all its other fields, password included, are unchanged; the counters say which way each flag moved |
| Listserv.ReconciledHasNoMismatch | get_listser_email_file.py:33 | After reconciliation no member's flag disagrees with its group |
| RemoveMember.WrapStr | helper_scripts/remove_member.py:9-13 | A shorter input is padded with spaces to exactly the width; a longer one is returned unchanged; the result starts with the input |
| RemoveMember.WrapLength | helper_scripts/remove_member.py:9-13 | The result's length is the larger of the input's and the width |
| RemoveMember.WrapIdempotent | helper_scripts/remove_member.py:9-13 | Wrapping twice is wrapping once |
| RemoveMember.WrapRecoverable | helper_scripts/remove_member.py:9-13 | The input is the prefix of its own length |
| RemoveMember.ListingLine | helper_scripts/remove_member.py:24-26 | A listing line is at least 65 characters and starts with two spaces |
| RemoveMember.ListingAligned | helper_scripts/remove_member.py:24-26 | With names and emails under 20 characters, both column separators sit at fixed positions |

## Left out

- Django, the ORM and the mail, file, photo and console I/O are not modelled. Queries are the values they return, and printed summaries are not modelled.
- Clocks (`now()`, `time()`) and `getrandbits` are parameters. Dates are integers, and time zones are not modelled.
- The transaction manager's `make_checkout`, `check_in_gear`, `missing_gear` and `expire_gear` are not part of this model's source. `Ledger` gives them the behaviour the kiosk tests and their callers pin down. The check order is: the authoriser and renter lookups, then the gear lookup, then the staffer test, then the rent test, then availability. Both tests read the member's group shortcut, as `is_staffer` does, not the group relation: the kiosk tests rent to members whose relation is Just Joined and whose shortcut is "Member". Checking in gear already in stock changes nothing and logs nothing. Broken or Removed gear cannot be checked in. Missing gear becomes Missing and expired gear Dormant. Transaction comments are not modelled.
- The `Break`, `Fix`, `ReTag`, `Create`, `Delete` and `Inventory` transactions exist only as types; no operation issues them.
- Ledger.GearLedger.MissingGear: the sweeps' authoriser "1111111111" is passed on but not validated. The log counts it as accepted (Ledger.LoggedBy), beside "System" and staffer rfids.
- Ledger.GearLedger.ExpireGear: same as MissingGear.
- Ledger.AuthorizerFits: the authorizer column's 10-character limit is not enforced on the log; the lemma shows it holds when member rfids have at most 10 characters, which the member form (core/forms/MemberForms.py:78-84) ensures for new members but the model does not impose on the member table.
- DatabaseUpdates.ExpireMembers: the source filters on a `status` field that members do not have, so the call cannot run. The model selects the active members, which the function's documentation describes.
- DatabaseUpdates.Swept: a selected row without a due date raises TypeError in the comparison and ends the sweep. The model keeps that behaviour rather than skipping the row.
- Tasks.ExpireMembers: the expiring-soon email is modelled as the list of addresses written to. As written, core/tasks.py:34 compares the `date_expires` date with the `datetime` built at line 25, which Python refuses with TypeError, so the task stops at the first active member. The model gives the documented intent, comparing days, and does not model that raise.
- Members.CreateMember: `normalize_email` (lower-casing the domain) is not modelled, and the email is stored as given.
- Members.UpgradeToStaffer: the welcome email is not modelled. The autobiography follows the corrected rule (see Findings).
- Members.MoveToGroup: `save()` is the identity on the model. The six groups are assumed to exist in the database, so a known name always finds its group; a database missing one of them would raise IndexError, which the model gives only for unknown names.
- PrimaryKey.MakeId: a clock earlier than the start time would give a negative id. That case is excluded by the precondition. The id is stored in a signed 64-bit column. PrimaryKey.MakeIdFits states when it fits, but the model does not bound or wrap an id that does not.
- PortMembers.PortMemberData: the photo copying is left out. Whether creating the member or upgrading the staffer raises is an input of the row.
- PortMembers.PortMemberData: the summary line "n out of m detected staffers" is printed output and is not modelled. Both numbers count successful upgrades only (PortMembers.PortAccounting).
- LegacyPort.PortMemberData: whether creating the member raises is an input of the row.
- Listserv.UpdateActiveGroupBasedAsWritten: get_listser_email_file.py:25 reads `member.group.name`. Against today's `Member`, where `group` is a plain string field (core/models/MemberModels.py:137), that raises AttributeError at the first member. The model assumes a `group` that is a Group with a name, as when the script was written, and does not model that raise.
- RemoveMember: the confirmation prompt and the deletion are interactive I/O and are not modelled.
- The superuser creation, `update_admin`, `get_short_name` and the certification helpers of `Member` are outside the modelled core.

## Findings

| source | as written | input that shows it | evidently intended | confidence | as-written member | corrected member |
|---|---|---|---|---|---|---|
| core/models/MemberModels.py:100-101 | a given autobiography is overwritten with None | `upgrade_to_staffer(m, "x", "Climber")` stores no autobiography | keep the autobiography that was passed | high, not executed | Members.UpgradeLosesAutobiography | Members.UpgradeAutobiography |
| core/forms/MemberForms.py:360 | the staff email gets the "@excursionclubucsb.org" domain | staff name "x" gives "x@excursionclubucsb.org", but `upgrade_to_staffer` builds "x@climbingclubuw.org" | append the configured club domain | medium, not executed | MemberForms.ExcEmailDisagrees | MemberForms.CleanExcEmailClub |
| core/models/TransactionModels.py:58 | `is_staff` is a property returning True, so calling it raises TypeError | authoriser = an Admin's rfid | accept "System" or a staffer's rfid | high, not executed | Transactions.StafferCannotAuthorizeAsWritten | Transactions.ValidateAuth |
| get_listser_email_file.py:26-39 | with `group` a Group, as the script assumes (see Left out), the new flag is never stored, and a mismatched member is counted by its old flag, so activations and deactivations are swapped | one Expired member flagged active is reported "Activated 1, deactivated 0" and stays active | store the flag and count the direction it moved | high, not executed | Listserv.ExpiredButActiveReportedActivated | Listserv.UpdateActiveGroupBased |
| helper_scripts/port_member_data.py:74-82 | a "member" row with another status assigns no group and reuses the previous row's | an active staff row, then a "member" row with status "honorary": the second member is ported into Staff | skip the row as unclassified, as the older script does | medium, not executed | PortMembers.UnknownStatusInheritsGroup | LegacyPort.ClassifySkipsUnassigned |
