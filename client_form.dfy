/** The client form: its zod schema (with the defaults it fills in) and the
    create/update split of `_onSubmit`. */
module ClientForm {
  import opened Forms
  import Phone
  import Privileges

  /** The form's own, shorter privilege list. */
  const ClientFormPrivileges: seq<string> := ["FILTER", "SEARCH", "TRADE_STOCKS", "VIEW_STOCKS"]

  const Genders: seq<string> := ["male", "female"]

  /** The form state handed to the schema; `linkedAccounts` and `active` may
      be missing. */
  datatype ClientFormInput = ClientFormInput(
    firstName: string,
    lastName: string,
    dateOfBirth: Option<int>,
    email: string,
    phoneNumber: string,
    address: string,
    gender: string,
    privilege: seq<string>,
    linkedAccounts: Option<seq<string>>,
    active: Option<bool>)

  /** The schema's output: the defaults are filled in. */
  datatype ClientFormValues = ClientFormValues(
    firstName: string,
    lastName: string,
    dateOfBirth: int,
    email: string,
    phoneNumber: string,
    address: string,
    gender: string,
    privilege: seq<string>,
    linkedAccounts: seq<string>,
    active: bool)

  /** The schema's rules; the e-mail check belongs to zod and is a parameter.
      `privilege` is the empty tuple or an array over the form's list, so
      any array of listed names, repeats included. */
  predicate Accepts(input: ClientFormInput, isEmail: string -> bool)
  {
    && NonEmpty(input.firstName)
    && NonEmpty(input.lastName)
    && input.dateOfBirth.Some?
    && isEmail(input.email)
    && Phone.MatchesPhoneRegex(input.phoneNumber)
    && NonEmpty(input.address)
    && input.gender in Genders
    && forall i :: 0 <= i < |input.privilege| ==> input.privilege[i] in ClientFormPrivileges
  }

  /** Parsing: the values with `linkedAccounts` defaulting to `[]` and
      `active` to `true`, or nothing when a rule fails. */
  function Parse(input: ClientFormInput, isEmail: string -> bool): (r: Option<ClientFormValues>)
    ensures r.Some? <==> Accepts(input, isEmail)
    ensures r.Some? ==> r.value.linkedAccounts == (if input.linkedAccounts.Some? then input.linkedAccounts.value else [])
    ensures r.Some? ==> r.value.active == (input.active != Some(false))
    ensures r.Some? ==> && r.value.firstName == input.firstName && r.value.lastName == input.lastName
                        && Some(r.value.dateOfBirth) == input.dateOfBirth && r.value.email == input.email
                        && r.value.phoneNumber == input.phoneNumber && r.value.address == input.address
                        && r.value.gender == input.gender && r.value.privilege == input.privilege
  {
    if !Accepts(input, isEmail) then None
    else
      Some(ClientFormValues(
        input.firstName, input.lastName, input.dateOfBirth.value, input.email,
        input.phoneNumber, input.address, input.gender, input.privilege,
        match input.linkedAccounts case Some(accounts) => accounts case None => [],
        match input.active case Some(active) => active case None => true))
  }

  /** Every privilege the form accepts is a privilege of the catalogue, and
      the catalogue's `ADMIN` is not accepted here. */
  lemma FormPrivilegesAreCatalogued(input: ClientFormInput, isEmail: string -> bool)
    requires Accepts(input, isEmail)
    ensures forall p :: p in input.privilege ==> Privileges.IsValidPrivilege(p) && p != "ADMIN"
  {
  }

  /** Only the lower-case spellings are genders here; the employee form's
      `MALE` is rejected. */
  lemma GenderIsLowerCase(input: ClientFormInput, isEmail: string -> bool)
    requires input.gender in {"MALE", "FEMALE", "Male"}
    ensures !Accepts(input, isEmail)
  {
  }

  /** `_onSubmit`, which react-hook-form calls with the parsed values of an
      accepted input: an update sends the dirty subset, a create the whole
      parsed record, defaults included. */
  function OnSubmit<DirtyFields, Dirty>(
    isUpdate: bool, input: ClientFormInput, isEmail: string -> bool,
    dirtyFields: DirtyFields, getDirtyValues: (DirtyFields, ClientFormValues) -> Dirty)
    : (a: SubmitAction<ClientFormValues, Dirty>)
    requires Accepts(input, isEmail)
    ensures a.Update? <==> isUpdate
    ensures a.Create? ==> Parse(input, isEmail) == Some(a.data)
    ensures a.Update? ==> a.dirty == getDirtyValues(dirtyFields, Parse(input, isEmail).value)
  {
    Dispatch(isUpdate, Parse(input, isEmail).value, dirtyFields, getDirtyValues)
  }
}
