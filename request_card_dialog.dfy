/** The card-request dialog: a choice between requesting a card for oneself
    or for an authorised user of a business account, the authorised user's
    details entered field by field, and what Confirm hands to `onConfirm`. */
module RequestCardDialog {
  import opened Forms

  /** `Partial<AuthorizedUserDto>`: every field may be missing. */
  datatype AuthorizedUserDraft = AuthorizedUserDraft(
    firstName: Option<string>,
    lastName: Option<string>,
    dateOfBirth: Option<string>,
    gender: Option<string>,
    email: Option<string>,
    phoneNumber: Option<string>,
    address: Option<string>)

  datatype DraftField = FirstName | LastName | DateOfBirth | Gender | Email | PhoneNumber | Address

  const EmptyDraft := AuthorizedUserDraft(None, None, None, None, None, None, None)

  /** The only account type for which the dialog offers an authorised user. */
  const BusinessAccountType := "CheckingBusiness"

  /** The values the gender select offers, stored as they are. */
  const GenderOptions: seq<string> := ["M", "F"]

  function Get(d: AuthorizedUserDraft, f: DraftField): Option<string>
  {
    match f
    case FirstName => d.firstName
    case LastName => d.lastName
    case DateOfBirth => d.dateOfBirth
    case Gender => d.gender
    case Email => d.email
    case PhoneNumber => d.phoneNumber
    case Address => d.address
  }

  /** `{...authorizedUser, [f]: value}`: one field replaced, the others kept. */
  function WithField(d: AuthorizedUserDraft, f: DraftField, value: string): (r: AuthorizedUserDraft)
    ensures Get(r, f) == Some(value)
    ensures forall g :: g != f ==> Get(r, g) == Get(d, g)
  {
    match f
    case FirstName => d.(firstName := Some(value))
    case LastName => d.(lastName := Some(value))
    case DateOfBirth => d.(dateOfBirth := Some(value))
    case Gender => d.(gender := Some(value))
    case Email => d.(email := Some(value))
    case PhoneNumber => d.(phoneNumber := Some(value))
    case Address => d.(address := Some(value))
  }

  /** A draft is determined by its fields. */
  lemma {:induction false} DraftExtensionality(a: AuthorizedUserDraft, b: AuthorizedUserDraft)
    requires forall f :: Get(a, f) == Get(b, f)
    ensures a == b
  {
    assert Get(a, FirstName) == Get(b, FirstName) && Get(a, LastName) == Get(b, LastName);
    assert Get(a, DateOfBirth) == Get(b, DateOfBirth) && Get(a, Gender) == Get(b, Gender);
    assert Get(a, Email) == Get(b, Email) && Get(a, PhoneNumber) == Get(b, PhoneNumber);
    assert Get(a, Address) == Get(b, Address);
  }

  /** Edits of different fields commute, and the last edit of a field wins. */
  lemma {:induction false} EditsCommute(d: AuthorizedUserDraft, f: DraftField, g: DraftField, x: string, y: string)
    ensures f != g ==> WithField(WithField(d, f, x), g, y) == WithField(WithField(d, g, y), f, x)
    ensures WithField(WithField(d, f, x), f, y) == WithField(d, f, y)
  {
    if f != g {
      DraftExtensionality(WithField(WithField(d, f, x), g, y), WithField(WithField(d, g, y), f, x));
    }
    DraftExtensionality(WithField(WithField(d, f, x), f, y), WithField(d, f, y));
  }

  /** The gender select stores `M` or `F` as chosen; neither is one of the
      `MALE`/`FEMALE` spellings the value is cast to. */
  lemma GenderSelectStoresOption(d: AuthorizedUserDraft, choice: string)
    requires choice in GenderOptions
    ensures Get(WithField(d, Gender, choice), Gender) == Some(choice)
    ensures choice != "MALE" && choice != "FEMALE"
  {
  }

  /** The authorised-user inputs are on screen only for a business account
      when "Request for Authorized User" is selected. */
  predicate DetailsShown(accountType: string, requestForSelf: bool)
  {
    accountType == BusinessAccountType && !requestForSelf
  }

  /** `handleConfirm`'s choice: the draft, exactly as entered, iff the
      details are shown; `undefined` otherwise. No field is checked. */
  function ConfirmPayload(accountType: string, requestForSelf: bool, draft: AuthorizedUserDraft)
    : (user: Option<AuthorizedUserDraft>)
    ensures user.Some? <==> DetailsShown(accountType, requestForSelf)
    ensures user.Some? ==> user.value == draft
  {
    if accountType == BusinessAccountType && !requestForSelf then Some(draft) else None
  }

  /** For any other account type, Confirm passes `undefined` whatever was
      toggled or typed. */
  lemma NonBusinessNeverPassesUser(accountType: string, requestForSelf: bool, draft: AuthorizedUserDraft)
    requires accountType != BusinessAccountType
    ensures ConfirmPayload(accountType, requestForSelf, draft).None?
  {
  }

  /** The dialog's component state. `open` and `accountType` are props the
      caller may change on any render; the other two are component state,
      which survives a close and a reopen because the caller keeps the
      dialog mounted. */
  class Dialog {
    var open: bool
    var accountType: string
    var requestForSelf: bool
    var authorizedUser: AuthorizedUserDraft

    /** Mounting: "Request for Self" selected and nothing entered. */
    constructor (open: bool, accountType: string)
      ensures this.open == open && this.accountType == accountType
      ensures requestForSelf && authorizedUser == EmptyDraft
    {
      this.open := open;
      this.accountType := accountType;
      requestForSelf := true;
      authorizedUser := EmptyDraft;
    }

    /** A render with new props (the caller toggling `open`, or selecting
      another account): the component state is kept. */
    method ReceiveProps(open: bool, accountType: string)
      modifies this
      ensures this.open == open && this.accountType == accountType
      ensures requestForSelf == old(requestForSelf) && authorizedUser == old(authorizedUser)
    {
      this.open := open;
      this.accountType := accountType;
    }

    /** The two toggle buttons: `setRequestForSelf(true)` and
        `setRequestForSelf(false)`. The details are left as they are. */
    method SetRequestForSelf(forSelf: bool)
      modifies this
      ensures requestForSelf == forSelf
      ensures authorizedUser == old(authorizedUser)
      ensures open == old(open) && accountType == old(accountType)
    {
      requestForSelf := forSelf;
    }

    /** One input's change handler: that field takes the typed value (for
        the gender select, `M` or `F`). */
    method EditField(f: DraftField, value: string)
      modifies this
      ensures authorizedUser == WithField(old(authorizedUser), f, value)
      ensures requestForSelf == old(requestForSelf)
      ensures open == old(open) && accountType == old(accountType)
    {
      authorizedUser := WithField(authorizedUser, f, value);
    }

    /** `handleConfirm`: the value passed to `onConfirm`. */
    method HandleConfirm() returns (user: Option<AuthorizedUserDraft>)
      ensures user == ConfirmPayload(accountType, requestForSelf, authorizedUser)
    {
      user := ConfirmPayload(accountType, requestForSelf, authorizedUser);
    }
  }

  /** Confirming a freshly mounted dialog passes `undefined`; after choosing
      an authorised user on a business account and typing a first name, it
      passes a draft holding only that name. */
  method ConfirmScenarios(name: string) returns (first: Option<AuthorizedUserDraft>, second: Option<AuthorizedUserDraft>)
    ensures first.None?
    ensures second == Some(EmptyDraft.(firstName := Some(name)))
  {
    var d := new Dialog(true, BusinessAccountType);
    first := d.HandleConfirm();
    d.SetRequestForSelf(false);
    d.EditField(FirstName, name);
    second := d.HandleConfirm();
  }

  /** The caller keeps the dialog mounted: a draft entered before the dialog
      was closed is confirmed again after it is reopened. Selecting a
      non-business account meanwhile hides it (Confirm passes `undefined`),
      and selecting the business account again brings it back. */
  method ReopenScenario(name: string)
    returns (reopened: Option<AuthorizedUserDraft>, otherAccount: Option<AuthorizedUserDraft>,
             backAgain: Option<AuthorizedUserDraft>)
    ensures reopened == Some(EmptyDraft.(firstName := Some(name)))
    ensures otherAccount.None?
    ensures backAgain == reopened
  {
    var d := new Dialog(true, BusinessAccountType);
    d.SetRequestForSelf(false);
    d.EditField(FirstName, name);
    d.ReceiveProps(false, BusinessAccountType);
    d.ReceiveProps(true, BusinessAccountType);
    reopened := d.HandleConfirm();
    d.ReceiveProps(true, "");
    otherAccount := d.HandleConfirm();
    d.ReceiveProps(true, BusinessAccountType);
    backAgain := d.HandleConfirm();
  }
}
