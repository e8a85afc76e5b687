// The permission codenames that helper_scripts/build_permissions.py and the
// older buildPermissions.py create.  Django identifies a permission by its
// codename (`Permission.objects.get(codename=...)`), so each permission is
// one constructor here and `Codename` gives the string stored in the table.
module Codenames {

  datatype Perm =
    // created for Just Joined
    | ViewStaffer | CheckAvailabilityGear
    // created for Member
    | IsActiveMember | RentGear | ViewGear | ViewDepartment | ViewCertification | ViewTransaction
    // created for Staff
    | AddGear | ChangeGear | ViewGeneralGear | AuthorizeTransactions | ViewMember | ViewAllMembers
    | ViewAllTransactions | AddMember | ChangeMember | ViewGearType | AddAlreadyUploadedImage
    | ViewMemberRfidCheck
    // created for Board
    | ViewAllGear | RemoveGear | AddGearType | DeleteGearType | AddCustomDataField
    | ChangeCustomDataField | DeleteCustomDataField | AddStaffer | ChangeStaffer | AddDepartment
    | ChangeDepartment | DeleteDepartment | AddCertification | ChangeCertification
    | DeleteCertification
    // created for Admin
    | AddGroup | ChangeGroup | DeleteGroup | DeleteGear | DeleteStaffer | AddQuestion
    | ChangeQuestion | DeleteQuestion | AddAnswer | ChangeAnswer | DeleteAnswer
    | DeleteAlreadyUploadedImage | ChangeAlreadyUploadedImage | DeleteMember
    // created only by the older buildPermissions.py
    | CheckoutGear | CheckinGear | ChangeInfoMember | ChangeMembership

  function Codename(p: Perm): string
  {
    match p
    case ViewStaffer => "view_staffer"
    case CheckAvailabilityGear => "check_availability_gear"
    case IsActiveMember => "is_active_member"
    case RentGear => "rent_gear"
    case ViewGear => "view_gear"
    case ViewDepartment => "view_department"
    case ViewCertification => "view_certification"
    case ViewTransaction => "view_transaction"
    case AddGear => "add_gear"
    case ChangeGear => "change_gear"
    case ViewGeneralGear => "view_general_gear"
    case AuthorizeTransactions => "authorize_transactions"
    case ViewMember => "view_member"
    case ViewAllMembers => "view_all_members"
    case ViewAllTransactions => "view_all_transactions"
    case AddMember => "add_member"
    case ChangeMember => "change_member"
    case ViewGearType => "view_gear_type"
    case AddAlreadyUploadedImage => "add_alreadyuploadedimage"
    case ViewMemberRfidCheck => "view_memberrfidcheck"
    case ViewAllGear => "view_all_gear"
    case RemoveGear => "remove_gear"
    case AddGearType => "add_gear_type"
    case DeleteGearType => "delete_gear_type"
    case AddCustomDataField => "add_customdatafield"
    case ChangeCustomDataField => "change_customdatafield"
    case DeleteCustomDataField => "delete_customdatafield"
    case AddStaffer => "add_staffer"
    case ChangeStaffer => "change_staffer"
    case AddDepartment => "add_department"
    case ChangeDepartment => "change_department"
    case DeleteDepartment => "delete_department"
    case AddCertification => "add_certification"
    case ChangeCertification => "change_certification"
    case DeleteCertification => "delete_certification"
    case AddGroup => "add_group"
    case ChangeGroup => "change_group"
    case DeleteGroup => "delete_group"
    case DeleteGear => "delete_gear"
    case DeleteStaffer => "delete_staffer"
    case AddQuestion => "add_question"
    case ChangeQuestion => "change_question"
    case DeleteQuestion => "delete_question"
    case AddAnswer => "add_answer"
    case ChangeAnswer => "change_answer"
    case DeleteAnswer => "delete_answer"
    case DeleteAlreadyUploadedImage => "delete_alreadyuploadedimage"
    case ChangeAlreadyUploadedImage => "change_alreadyuploadedimage"
    case DeleteMember => "delete_member"
    case CheckoutGear => "checkout_gear"
    case CheckinGear => "checkin_gear"
    case ChangeInfoMember => "change_info_member"
    case ChangeMembership => "change_membership"
  }
}
