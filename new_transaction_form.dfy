/** The new-payment form: its zod schema, the merged default values, the
    saved-recipient select (with its "New recipient" entry), and the rule
    that disables the save-recipient switch. */
module NewTransactionForm {
  import opened Forms

  datatype NewTransactionFormValues = NewTransactionFormValues(
    recipientName: string,
    recipientAccount: string,
    amount: real,
    referenceNumber: string,
    paymentCode: string,
    paymentPurpose: string,
    payerAccount: string,
    saveRecipient: bool)

  /** Values a caller may supply; a missing one keeps the form's default. */
  datatype SuppliedValues = SuppliedValues(
    recipientName: Option<string>,
    recipientAccount: Option<string>,
    amount: Option<real>,
    referenceNumber: Option<string>,
    paymentCode: Option<string>,
    paymentPurpose: Option<string>,
    payerAccount: Option<string>,
    saveRecipient: Option<bool>)

  datatype Field =
    | RecipientName | RecipientAccount | Amount | ReferenceNumber
    | PaymentCode | PaymentPurpose | PayerAccount | SaveRecipient

  function OrElse<T>(supplied: Option<T>, default: T): (x: T)
    ensures supplied.Some? ==> x == supplied.value
    ensures supplied.None? ==> x == default
  {
    match supplied
    case Some(v) => v
    case None => default
  }

  /** `{recipientName: '', ..., amount: 0, paymentCode: '289', saveRecipient: true,
      ...(defaultValues || {})}`. */
  function FinalDefaultValues(supplied: Option<SuppliedValues>): (v: NewTransactionFormValues)
    ensures supplied.None? ==> v == NewTransactionFormValues("", "", 0.0, "", "289", "", "", true)
    ensures supplied.Some? ==> && v.amount == OrElse(supplied.value.amount, 0.0)
                               && v.paymentCode == OrElse(supplied.value.paymentCode, "289")
                               && v.saveRecipient == OrElse(supplied.value.saveRecipient, true)
                               && v.recipientName == OrElse(supplied.value.recipientName, "")
                               && v.recipientAccount == OrElse(supplied.value.recipientAccount, "")
                               && v.referenceNumber == OrElse(supplied.value.referenceNumber, "")
                               && v.paymentPurpose == OrElse(supplied.value.paymentPurpose, "")
                               && v.payerAccount == OrElse(supplied.value.payerAccount, "")
  {
    match supplied
    case None => NewTransactionFormValues("", "", 0.0, "", "289", "", "", true)
    case Some(s) =>
      NewTransactionFormValues(
        OrElse(s.recipientName, ""), OrElse(s.recipientAccount, ""), OrElse(s.amount, 0.0),
        OrElse(s.referenceNumber, ""), OrElse(s.paymentCode, "289"), OrElse(s.paymentPurpose, ""),
        OrElse(s.payerAccount, ""), OrElse(s.saveRecipient, true))
  }

  /** `formSchema`; the payment codes are the keys of a map outside this
      model, so they are a parameter. `amount` is coerced to a number first. */
  function Valid(v: NewTransactionFormValues, paymentCodes: set<string>): (valid: bool)
    ensures valid ==> SaveSwitchDisabled(v)
    ensures valid ==> v.paymentCode in paymentCodes && v.amount >= 1.0
  {
    && NonEmpty(v.recipientName)
    && NonEmpty(v.recipientAccount)
    && v.amount >= 1.0
    && v.paymentCode in paymentCodes
    && NonEmpty(v.paymentPurpose)
    && NonEmpty(v.payerAccount)
  }

  /** The default amount 0 fails `amount >= 1`: a form opened without an
      amount cannot be submitted as it stands. */
  lemma DefaultAmountRejected(supplied: Option<SuppliedValues>, paymentCodes: set<string>)
    requires supplied.None? || supplied.value.amount.None?
    ensures FinalDefaultValues(supplied).amount == 0.0
    ensures !Valid(FinalDefaultValues(supplied), paymentCodes)
  {
  }

  /** A saved contact. */
  datatype Recipient = Recipient(nickname: string, accountNumber: string)

  const NewRecipientLabel := "New recipient"

  /** The select's first entry, which starts a fresh recipient. */
  const Sentinel := Recipient(NewRecipientLabel, "")

  /** The select's entries: the sentinel, then the saved contacts in order. */
  function UpdatedRecipients(recipients: seq<Recipient>): (r: seq<Recipient>)
    ensures |r| == |recipients| + 1
    ensures r[0] == Sentinel && r[1..] == recipients
  {
    [Sentinel] + recipients
  }

  /** `find`: the position of the first entry with that nickname. */
  function FindIndex(list: seq<Recipient>, nickname: string): (i: Option<nat>)
    ensures i.Some? ==> i.value < |list| && list[i.value].nickname == nickname
    ensures i.Some? ==> forall j :: 0 <= j < i.value ==> list[j].nickname != nickname
    ensures i.None? ==> forall j :: 0 <= j < |list| ==> list[j].nickname != nickname
  {
    if list == [] then None
    else if list[0].nickname == nickname then Some(0)
    else
      match FindIndex(list[1..], nickname)
      case None => None
      case Some(k) => Some(k + 1)
  }

  /** The values after `handleRecipientChange(nickname)`: the first matching
      entry fills the recipient's name (empty for the sentinel) and account;
      no match changes nothing. */
  function AfterRecipientChange(v: NewTransactionFormValues, recipients: seq<Recipient>, nickname: string)
    : (w: NewTransactionFormValues)
    ensures w.(recipientName := v.recipientName, recipientAccount := v.recipientAccount) == v
    ensures FindIndex(UpdatedRecipients(recipients), nickname).None? ==> w == v
  {
    var entries := UpdatedRecipients(recipients);
    match FindIndex(entries, nickname)
    case None => v
    case Some(i) =>
      v.(recipientName := if entries[i].nickname == NewRecipientLabel then "" else entries[i].nickname,
         recipientAccount := entries[i].accountNumber)
  }

  /** Choosing "New recipient" empties the recipient's name and account;
      nothing else changes. */
  lemma {:induction false} NewRecipientClears(v: NewTransactionFormValues, recipients: seq<Recipient>)
    ensures AfterRecipientChange(v, recipients, NewRecipientLabel)
            == v.(recipientName := "", recipientAccount := "")
  {
    assert UpdatedRecipients(recipients)[0] == Sentinel;
  }

  /** Choosing a saved contact copies its nickname and the account of the
      first contact with that nickname. A contact itself named
      "New recipient" is shadowed by the sentinel. */
  lemma {:induction false} ContactSelected(v: NewTransactionFormValues, recipients: seq<Recipient>, i: nat)
    requires i < |recipients|
    requires recipients[i].nickname != NewRecipientLabel
    requires forall j :: 0 <= j < i ==> recipients[j].nickname != recipients[i].nickname
    ensures AfterRecipientChange(v, recipients, recipients[i].nickname)
            == v.(recipientName := recipients[i].nickname, recipientAccount := recipients[i].accountNumber)
  {
    var entries := UpdatedRecipients(recipients);
    var found := FindIndex(entries, recipients[i].nickname);
    assert entries[i + 1] == recipients[i];
    assert found.Some?;
    forall j | 1 <= j < i + 1 ensures entries[j].nickname != recipients[i].nickname {
      assert entries[j] == recipients[j - 1];
    }
    assert found.value == i + 1;
  }

  /** A value that names no entry leaves the form as it was. */
  lemma {:induction false} UnknownValueIgnored(v: NewTransactionFormValues, recipients: seq<Recipient>, nickname: string)
    requires nickname != NewRecipientLabel
    requires forall j :: 0 <= j < |recipients| ==> recipients[j].nickname != nickname
    ensures AfterRecipientChange(v, recipients, nickname) == v
  {
    var entries := UpdatedRecipients(recipients);
    forall j | 0 <= j < |entries| ensures entries[j].nickname != nickname {
      if j > 0 {
        assert entries[j] == recipients[j - 1];
      }
    }
  }

  /** The form, whose values and error set the library updates in place. */
  class TransactionForm {
    var values: NewTransactionFormValues
    var errors: set<Field>
    const recipients: seq<Recipient>

    constructor (supplied: Option<SuppliedValues>, recipients: seq<Recipient>)
      ensures values == FinalDefaultValues(supplied) && errors == {}
      ensures this.recipients == recipients
    {
      values := FinalDefaultValues(supplied);
      errors := {};
      this.recipients := recipients;
    }

    /** `handleRecipientChange`: set the two recipient fields from the chosen
        entry and clear their errors; an unknown value changes nothing. */
    method HandleRecipientChange(nickname: string)
      modifies this
      ensures values == AfterRecipientChange(old(values), recipients, nickname)
      ensures errors == if FindIndex(UpdatedRecipients(recipients), nickname).Some?
                        then old(errors) - {RecipientName, RecipientAccount}
                        else old(errors)
    {
      var entries := UpdatedRecipients(recipients);
      var found := FindIndex(entries, nickname);
      if found.Some? {
        var selected := entries[found.value];
        values := values.(recipientName := if selected.nickname == NewRecipientLabel then "" else selected.nickname);
        values := values.(recipientAccount := selected.accountNumber);
        errors := errors - {RecipientName, RecipientAccount};
      }
    }
  }

  /** The save-recipient switch is disabled iff a recipient name is
      entered. */
  function SaveSwitchDisabled(v: NewTransactionFormValues): (disabled: bool)
    ensures disabled <==> NonEmpty(v.recipientName)
  {
    v.recipientName != ""
  }

  /** Choosing "New recipient" enables the save switch; choosing a saved
      contact with a name disables it. */
  lemma SaveSwitchFollowsSelection(v: NewTransactionFormValues, recipients: seq<Recipient>, i: nat)
    requires i < |recipients|
    requires recipients[i].nickname != "" && recipients[i].nickname != NewRecipientLabel
    requires forall j :: 0 <= j < i ==> recipients[j].nickname != recipients[i].nickname
    ensures !SaveSwitchDisabled(AfterRecipientChange(v, recipients, NewRecipientLabel))
    ensures SaveSwitchDisabled(AfterRecipientChange(v, recipients, recipients[i].nickname))
  {
    NewRecipientClears(v, recipients);
    ContactSelected(v, recipients, i);
  }
}
