/** The employee form: its zod schema, the privilege select and its Clear
    button, and the create/update split of `_onSubmit`. */
module EmployeeForm {
  import opened Forms
  import Phone
  import Privileges

  /** The `privilege` entry of the form state: `undefined`, `null` or a name. */
  datatype PrivilegeValue = Undefined | Null | Chosen(name: string)

  /** The form's values. A date of birth is a day number, absent until one
      is picked. */
  datatype EmployeeFormValues = EmployeeFormValues(
    firstName: string,
    lastName: string,
    dateOfBirth: Option<int>,
    email: string,
    address: string,
    phoneNumber: string,
    position: string,
    username: string,
    department: string,
    gender: string,
    active: bool,
    privilege: PrivilegeValue)

  datatype Field =
    | FirstName | LastName | DateOfBirth | Email | Address | PhoneNumber
    | Position | Username | Department | Gender | Privilege

  /** The schema's rule for one field. The e-mail check belongs to zod and
      the list of genders to a module outside this model: both are
      parameters. */
  predicate FieldAccepted(v: EmployeeFormValues, f: Field, isEmail: string -> bool, genders: set<string>)
  {
    match f
    case FirstName => NonEmpty(v.firstName)
    case LastName => NonEmpty(v.lastName)
    case DateOfBirth => v.dateOfBirth.Some?
    case Email => isEmail(v.email)
    case Address => NonEmpty(v.address)
    case PhoneNumber => Phone.MatchesPhoneRegex(v.phoneNumber)
    case Position => NonEmpty(v.position)
    case Username => NonEmpty(v.username)
    case Department => NonEmpty(v.department)
    case Gender => v.gender in genders
    case Privilege =>
      match v.privilege
      case Undefined => false
      case Null => true
      case Chosen(p) => p in Privileges.EmployeePrivileges
  }

  /** `formSchema` accepts the values. */
  function Valid(v: EmployeeFormValues, isEmail: string -> bool, genders: set<string>): (valid: bool)
    ensures valid ==> && v.dateOfBirth.Some? && isEmail(v.email) && v.gender in genders
                      && v.privilege != Undefined
  {
    var valid := forall f :: FieldAccepted(v, f, isEmail, genders);
    assert valid ==> && FieldAccepted(v, DateOfBirth, isEmail, genders) && FieldAccepted(v, Email, isEmail, genders)
                     && FieldAccepted(v, Gender, isEmail, genders) && FieldAccepted(v, Privilege, isEmail, genders);
    valid
  }

  /** What the schema guarantees of an accepted record: the six text fields
      are filled, the phone is a Serbian mobile number, and the privilege is
      an employee privilege or `null`. */
  lemma AcceptedRecord(v: EmployeeFormValues, isEmail: string -> bool, genders: set<string>)
    requires Valid(v, isEmail, genders)
    ensures NonEmpty(v.firstName) && NonEmpty(v.lastName) && NonEmpty(v.address)
    ensures NonEmpty(v.position) && NonEmpty(v.username) && NonEmpty(v.department)
    ensures Phone.IsSerbianMobile(v.phoneNumber)
    ensures v.privilege == Null || (v.privilege.Chosen? && v.privilege.name in Privileges.EmployeePrivileges)
  {
    assert FieldAccepted(v, FirstName, isEmail, genders) && FieldAccepted(v, LastName, isEmail, genders);
    assert FieldAccepted(v, Address, isEmail, genders) && FieldAccepted(v, Position, isEmail, genders);
    assert FieldAccepted(v, Username, isEmail, genders) && FieldAccepted(v, Department, isEmail, genders);
    assert FieldAccepted(v, PhoneNumber, isEmail, genders);
    Phone.PhoneRegexExact(v.phoneNumber);
    assert FieldAccepted(v, Privilege, isEmail, genders);
  }

  /** The select's options: `none`, then the employee privileges. */
  const SelectOptions: seq<string> := ["none"] + Privileges.EmployeePrivileges

  /** The select's change handler: `none` stores `undefined`, anything else
      is stored as chosen. */
  function SelectPrivilege(value: string): (p: PrivilegeValue)
    ensures p == Undefined <==> value == "none"
    ensures p != Undefined ==> p == Chosen(value)
  {
    if value == "none" then Undefined else Chosen(value)
  }

  /** The Clear button stores `null`. */
  function ClearPrivilege(): (p: PrivilegeValue)
    ensures p.Null?
  {
    Null
  }

  /** The Clear button is shown when the stored value is truthy. */
  function ClearShown(p: PrivilegeValue): (shown: bool)
    ensures shown <==> p.Chosen? && p.name != ""
  {
    match p
    case Chosen(name) => name != ""
    case _ => false
  }

  /** Clear hides its own button; choosing an option of the select shows
      the button exactly when the option is not `none`. */
  lemma ClearButtonFollowsHandlers(value: string)
    requires value in SelectOptions
    ensures !ClearShown(ClearPrivilege())
    ensures ClearShown(SelectPrivilege(value)) <==> value != "none"
  {
    if value != "none" {
      assert value in Privileges.EmployeePrivileges;
    }
  }

  /** Choosing `none` stores `undefined`, which the nullable but required
      `privilege` rejects; Clear stores `null`, which it accepts; any other
      option of the select is accepted. */
  lemma PrivilegeChoices(v: EmployeeFormValues, value: string, isEmail: string -> bool, genders: set<string>)
    requires value in SelectOptions
    ensures !FieldAccepted(v.(privilege := SelectPrivilege("none")), Privilege, isEmail, genders)
    ensures FieldAccepted(v.(privilege := ClearPrivilege()), Privilege, isEmail, genders)
    ensures FieldAccepted(v.(privilege := SelectPrivilege(value)), Privilege, isEmail, genders)
            <==> value != "none"
  {
    if value != "none" {
      assert value in Privileges.EmployeePrivileges;
    }
  }

  /** `_onSubmit`: an update sends the dirty subset with `update: true`, a
      create the whole validated record with `update: false`. */
  function OnSubmit<DirtyFields, Dirty>(
    isUpdate: bool, data: EmployeeFormValues, isEmail: string -> bool, genders: set<string>,
    dirtyFields: DirtyFields, getDirtyValues: (DirtyFields, EmployeeFormValues) -> Dirty)
    : (a: SubmitAction<EmployeeFormValues, Dirty>)
    requires Valid(data, isEmail, genders)
    ensures a.Update? <==> isUpdate
    ensures a.Create? ==> a.data == data && Valid(a.data, isEmail, genders)
    ensures a.Update? ==> a.dirty == getDirtyValues(dirtyFields, data)
  {
    Dispatch(isUpdate, data, dirtyFields, getDirtyValues)
  }
}
