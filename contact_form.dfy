/** The contact form: its zod schema, default values taken from the contact
    being edited, edit mode, and the create/update split of `_onSubmit`. */
module ContactForm {
  import opened Forms

  datatype ContactFormValues = ContactFormValues(nickname: string, accountNumber: string)

  datatype Field = Nickname | AccountNumber

  /** The fields `contactSchema` rejects. */
  function Issues(v: ContactFormValues): (r: set<Field>)
    ensures Nickname in r <==> v.nickname == ""
    ensures AccountNumber in r <==> v.accountNumber == ""
  {
    (if NonEmpty(v.nickname) then {} else {Nickname})
    + (if NonEmpty(v.accountNumber) then {} else {AccountNumber})
  }

  /** `contact?.nickname || ''` and `contact?.accountNumber || ''`: the
      contact's fields when one is given (an empty field stays empty),
      empty strings otherwise. */
  function DefaultValues(contact: Option<ContactFormValues>): (v: ContactFormValues)
    ensures contact.Some? ==> v == contact.value
    ensures contact.None? ==> v.nickname == "" && v.accountNumber == ""
  {
    match contact
    case Some(c) => c
    case None => ContactFormValues("", "")
  }

  /** `Boolean(contact)`: a contact object is always truthy. */
  function IsEdit(contact: Option<ContactFormValues>): (edit: bool)
    ensures edit <==> contact.Some?
  {
    contact.Some?
  }

  /** A new-contact form fails until both fields are filled, and then passes. */
  lemma NewContactNeedsBothFields(v: ContactFormValues)
    ensures Issues(DefaultValues(None)) == {Nickname, AccountNumber}
    ensures Issues(v) == {} <==> v.nickname != "" && v.accountNumber != ""
  {
  }

  /** Opening the form on a stored contact starts from a record the schema
      accepts whenever the contact itself would pass. */
  lemma EditStartsFromContact(c: ContactFormValues)
    requires Issues(c) == {}
    ensures Issues(DefaultValues(Some(c))) == {}
    ensures IsEdit(Some(c))
  {
  }

  /** `_onSubmit`: in edit mode the dirty subset with `update: true`,
      otherwise the whole record with `update: false`. */
  function OnSubmit<DirtyFields, Dirty>(
    contact: Option<ContactFormValues>, data: ContactFormValues,
    dirtyFields: DirtyFields, getDirtyValues: (DirtyFields, ContactFormValues) -> Dirty)
    : (a: SubmitAction<ContactFormValues, Dirty>)
    requires Issues(data) == {}
    ensures a.Update? <==> contact.Some?
    ensures a.Create? ==> a.data == data && a.data.nickname != "" && a.data.accountNumber != ""
    ensures a.Update? ==> a.dirty == getDirtyValues(dirtyFields, data)
  {
    Dispatch(IsEdit(contact), data, dirtyFields, getDirtyValues)
  }
}
