# Banking front-end: masking, privileges, route guard, forms and dialogs

A Dafny model of the self-contained logic inside a multi-role (client and
employee) banking web front-end:

- **Card-number masking** (`CardNumber`): a 16-character number keeps its
  first and last four characters and the eight between them become `*`.
  Any other length is an error.
- **Privilege catalogue** (`Privileges`): the employee and client privilege
  lists, their concatenation, and the exact, case-sensitive membership test.
- **Route guard** (`GuardBlock`): the ordered decision between "loading",
  a redirect to the login page, "loading user", a redirect to `/`, and
  rendering the guarded page. Rendering needs every required privilege
  among the user's privileges.
- **Form schemas and submit dispatch** (`EmployeeForm`, `ClientForm`,
  `LoanForm`, `NewTransactionForm`, `ContactForm`, with `Forms` and `Phone`
  shared by them):
  - the zod rules of each form, and the Serbian mobile-number expression
    `^(\+3816|06)(\d{7,8}|(77|78)\d{5,6})$`, proved equal to "prefix, then 7
    or 8 digits";
  - default values and their merging with the caller's values;
  - the employee form's privilege select, the loan form's repayment periods
    and currency filter over accounts, and the saved-recipient select of the
    payment form;
  - the create/update split: an update sends the changed fields, a create
    the whole record.
- **Two dialogs** as classes:
  - `RequestCardDialog.Dialog`: the self/authorised-user toggle, field edits
    and what Confirm passes on.
  - `OrderCreationDialog.Dialog`: the preview request, and a Confirm that
    does nothing until a preview exists.

Callbacks the components receive (`onSubmit`, `onPreview`, `onConfirm`,
`onOpenChange`) are not run. Their answers are parameters. The order
dialog records, in order, the values its callbacks were called with; the
card dialog's Confirm returns the value it would pass to `onConfirm`.

Helpers outside the modelled files are parameters, and their behaviour is
not assumed:
- `getDirtyValues`, a function of the dirty-field record and the values;
- zod's e-mail check;
- the gender list of the employee form;
- the payment codes;
- the order directions, order types and currencies.

Amounts are exact reals, not floating point. In the employee and client
forms, dates of birth are opaque day numbers; in the card dialog the date
of birth is the free text typed into its input.

One consequence of the code as written is stated as a lemma
(`OrderCreationDialog.InputsAloneNeverAccepted`). The order dialog has
inputs only for the asset, order type, direction and account. Quantity,
limit, stop and currency have no input and no default. So the schema
rejects every form the dialog can produce, and the preview step is never
reached from the dialog itself.

## Model

| member | source | states |
|---|---|---|
| CardNumber.FormatCardNumber | src/lib/card-number-utils.ts:6-16 | an error exactly when the length is not 16; otherwise 16 characters, the first 4 and last 4 of the input, `*` at positions 4..11 |
| CardNumber.MiddleNeverLeaks | src/lib/card-number-utils.ts:11-15 | two numbers that agree on their first and last four characters mask to the same result |
| CardNumber.FormatIdempotent | src/lib/card-number-utils.ts:6-16 | masking a masked number returns it unchanged |
| CardNumber.OnlyLengthIsChecked | src/lib/card-number-utils.ts:7-9 | a 16-letter string is accepted and masked; a 15-digit number is an error |
| Privileges.IsValidPrivilege | src/types/privileges.ts:38-42 | true iff the string is in the employee list or the client list |
| Privileges.ListedPrivilegesValid | src/types/privileges.ts:4-42 | every element of either list passes the test |
| Privileges.ListsCoincide | src/types/privileges.ts:4-22 | the two lists are the same seven distinct names in the same order |
| Privileges.AllPrivilegesTwice | src/types/privileges.ts:24-30 | the concatenated catalogue has 14 entries and each privilege occurs in it exactly twice |
| Privileges.CaseSensitive | src/types/privileges.ts:38-42 | `admin`, `none` and the empty string are not privileges |
| GuardBlock.QueryEnabled | src/components/GuardBlock.tsx:33 | the user query is enabled iff authentication has loaded and the user is logged in |
| GuardBlock.UserPrivileges | src/components/GuardBlock.tsx:62 | missing user data counts as an empty privilege list |
| GuardBlock.HasPermissions | src/components/GuardBlock.tsx:65-67 | an empty requirement passes; a passing requirement's first privilege is held by the user |
| GuardBlock.HasPermissionsIffContained | src/components/GuardBlock.tsx:65-67 | `every`/`includes` holds iff every required privilege is among the user's privileges |
| GuardBlock.Decide | src/components/GuardBlock.tsx:44-75 | loading auth shows loading; not logged in redirects to login; a loading query shows "loading user"; a failed query redirects to login; otherwise render iff all required privileges are held, else redirect to `/` |
| GuardBlock.DecideAsWritten | src/components/GuardBlock.tsx:44-75 | with `requiredPrivileges` omitted, a TypeError exactly once the user has loaded, and otherwise the outcome of the chain with an empty requirement; with it supplied, exactly `Decide` |
| GuardBlock.OmittedRequirementThrows | src/components/GuardBlock.tsx:62-67 | a loaded, logged-in user on a page without `requiredPrivileges` gets a TypeError, where an empty requirement would render |
| GuardBlock.DecideOptional | src/components/GuardBlock.tsx:44-75 | never throws; agrees with the component wherever the component does not throw (so loading, login redirect and "loading user" are unchanged); without a requirement, renders iff the user is logged in and loaded |
| GuardBlock.QueryConsultedOnlyWhenEnabled | src/components/GuardBlock.tsx:27-34 | "loading user", rendering and the redirect to `/` happen only while the user query is enabled |
| GuardBlock.QueryIgnoredWhenDisabled | src/components/GuardBlock.tsx:27-59 | while the query is disabled, the outcome is the same whatever the query reports |
| GuardBlock.EmptyRequirementPasses | src/components/GuardBlock.tsx:65-75 | with no required privileges an authenticated, loaded user always sees the page |
| GuardBlock.MissingDataRedirectsHome | src/components/GuardBlock.tsx:62-73 | missing user data with a non-empty requirement redirects to `/` |
| GuardBlock.Monotone | src/components/GuardBlock.tsx:65-73 | granting the user more privileges or requiring fewer never turns rendering into a redirect |
| Phone.MatchesPhoneRegex | src/components/employee/employee-form.tsx:50 | the anchored expression, alternative by alternative; an accepted number starts with exactly one of the two prefixes |
| Phone.SubscriberIsSevenOrEightDigits | src/components/employee/employee-form.tsx:50 | the `(77\|78)\d{5,6}` alternative adds nothing to `\d{7,8}` |
| Phone.PhoneRegexExact | src/components/employee/employee-form.tsx:48-50 | the expression accepts exactly `+3816` or `06` followed by 7 or 8 ASCII digits |
| Phone.AcceptedPhoneShape | src/components/employee/employee-form.tsx:50 | an accepted number has length 9-10 with prefix `06` or 12-13 with prefix `+3816` |
| Phone.RejectedExamples | src/components/client/client-form.tsx:44-46 | `+381` and a spaced number are rejected, `0641234567` accepted |
| Phone.DigitsAfterDigitPrefix | src/components/employee/employee-form.tsx:50 | two leading digits followed by digits form a string of digits (the step from `77`/`78` to `\d`) |
| EmployeeForm.Valid | src/components/employee/employee-form.tsx:42-57 | every field's rule holds; an accepted record has a date of birth, an e-mail the e-mail check accepts, a listed gender and a privilege that is not `undefined` |
| EmployeeForm.AcceptedRecord | src/components/employee/employee-form.tsx:42-57 | an accepted record has the six text fields non-empty, a Serbian mobile number, and an employee privilege or `null` |
| EmployeeForm.SelectPrivilege | src/components/employee/employee-form.tsx:305-307 | choosing `none` stores `undefined`; any other choice is stored as chosen |
| EmployeeForm.ClearPrivilege | src/components/employee/employee-form.tsx:326 | the Clear button stores `null` |
| EmployeeForm.ClearShown | src/components/employee/employee-form.tsx:322 | the Clear button is shown iff a non-empty privilege name is stored |
| EmployeeForm.ClearButtonFollowsHandlers | src/components/employee/employee-form.tsx:304-330 | Clear hides its own button; choosing an option shows the button iff the option is not `none` |
| EmployeeForm.PrivilegeChoices | src/components/employee/employee-form.tsx:304-330 | after `none` the privilege rule rejects; after Clear it accepts; any other offered option is accepted |
| EmployeeForm.OnSubmit | src/components/employee/employee-form.tsx:89-101 | update iff `isUpdate`; an update carries the dirty values, a create the whole validated record |
| Forms.Dispatch | src/components/contacts/contact-form.tsx:55-64 | the shared split: `update` equals the flag, an update carries `getDirtyValues(dirtyFields, data)`, a create the data itself |
| ClientForm.Parse | src/components/client/client-form.tsx:39-52 | accepted iff every rule holds; then `linkedAccounts` defaults to `[]`, `active` to `true`, and the other fields are copied |
| ClientForm.FormPrivilegesAreCatalogued | src/components/client/client-form.tsx:32-49 | every privilege the form accepts is in the catalogue, and `ADMIN` is not accepted |
| ClientForm.GenderIsLowerCase | src/components/client/client-form.tsx:48 | `MALE`, `FEMALE` and `Male` are rejected; only lower-case genders pass |
| ClientForm.OnSubmit | src/components/client/client-form.tsx:85-97 | update iff `isUpdate`; a create carries the parsed record with defaults filled in |
| LoanForm.InitialState | src/components/loans/loan-form.tsx:98-106 | loan type `CASH`, interest `FIXED`, currency `RSD` unless the caller supplies them; nothing else changes |
| LoanForm.BlankFormDefaults | src/components/loans/loan-form.tsx:98-106 | without caller values the form starts as `CASH`/`FIXED`/`RSD` with every other field missing, and the schema rejects it |
| LoanForm.Parse | src/components/loans/loan-form.tsx:51-71 | accepted iff all rules hold; the result holds exactly the state's values (round trip), with amount at least 1, non-negative income and employment period, period at least 1, non-empty texts and listed enumeration values |
| LoanForm.OnNumberChange | src/components/loans/loan-form.tsx:228-231 | an empty input stores `undefined`, a number is stored as entered |
| LoanForm.EmptyNumberInputRejected | src/components/loans/loan-form.tsx:54-65 | clearing the amount, income or employment-period input makes the form fail |
| LoanForm.AvailableRepaymentPeriods | src/components/loans/loan-form.tsx:136-137 | the mortgage periods for `MORTGAGE`, the default periods otherwise |
| LoanForm.SelectRepaymentPeriod | src/components/loans/loan-form.tsx:376 | choosing a period stores that period as a number |
| LoanForm.OfferedPeriodsAccepted | src/components/loans/loan-form.tsx:48-68 | every offered period satisfies `repaymentPeriod >= 1` |
| LoanForm.UnofferedPeriodAccepted | src/components/loans/loan-form.tsx:66-68 | the schema does not restrict the period to the offered list: a 12-month mortgage passes |
| LoanForm.FilteredAccounts | src/components/loans/loan-form.tsx:120-123 | the result is no longer than the list and holds only listed accounts of the chosen currency |
| LoanForm.FilterCounts | src/components/loans/loan-form.tsx:120-123 | each account of the chosen currency is kept as often as it occurs, every other account dropped |
| LoanForm.FilterKeepsOrder | src/components/loans/loan-form.tsx:120-123 | the filtered list is a subsequence of the account list (order kept) |
| LoanForm.ClientAccountsByCurrency | src/components/loans/loan-form.tsx:111-123 | the fixed accounts give two for `RSD`, one for `EUR`, none for `USD` |
| LoanForm.OnSubmit | src/components/loans/loan-form.tsx:125-134 | update iff `isUpdate` is given as true (it defaults to false); create carries the values |
| NewTransactionForm.FinalDefaultValues | src/components/client/new-transaction-form.tsx:66-76 | amount 0, payment code `289`, save-recipient on, empty texts, each replaced by a supplied value |
| NewTransactionForm.Valid | src/components/client/new-transaction-form.tsx:38-49 | the schema's rules; a valid form has a listed payment code, amount at least 1, and a recipient name, so its save switch is disabled |
| NewTransactionForm.DefaultAmountRejected | src/components/client/new-transaction-form.tsx:38-76 | without a supplied amount the default 0 fails `amount >= 1` |
| NewTransactionForm.UpdatedRecipients | src/components/client/new-transaction-form.tsx:93-96 | one entry longer: the `New recipient` sentinel, then the contacts in order |
| NewTransactionForm.FindIndex | src/components/client/new-transaction-form.tsx:99-101 | the first entry with the nickname, or none when no entry has it |
| NewTransactionForm.AfterRecipientChange | src/components/client/new-transaction-form.tsx:98-112 | only the recipient's name and account change, and a value naming no entry changes nothing |
| NewTransactionForm.NewRecipientClears | src/components/client/new-transaction-form.tsx:98-112 | choosing `New recipient` empties name and account, even if a contact has that name |
| NewTransactionForm.ContactSelected | src/components/client/new-transaction-form.tsx:98-112 | choosing a contact sets its nickname and the account of the first contact with that nickname |
| NewTransactionForm.UnknownValueIgnored | src/components/client/new-transaction-form.tsx:102 | a value naming no entry leaves the form unchanged |
| NewTransactionForm.TransactionForm.constructor | src/components/client/new-transaction-form.tsx:66-82 | the form starts from the merged defaults with no errors |
| NewTransactionForm.TransactionForm.HandleRecipientChange | src/components/client/new-transaction-form.tsx:98-112 | the values become the selection's result; the two recipient errors are cleared iff an entry matched |
| NewTransactionForm.SaveSwitchDisabled | src/components/client/new-transaction-form.tsx:322 | the save-recipient switch is disabled iff a recipient name is entered |
| NewTransactionForm.SaveSwitchFollowsSelection | src/components/client/new-transaction-form.tsx:98-112 | choosing `New recipient` enables the switch, choosing a named contact disables it |
| ContactForm.Issues | src/components/contacts/contact-form.tsx:21-24 | a field is reported iff it is empty |
| ContactForm.DefaultValues | src/components/contacts/contact-form.tsx:47-50 | the contact's fields when a contact is given, empty strings otherwise |
| ContactForm.IsEdit | src/components/contacts/contact-form.tsx:53 | edit mode iff a contact is given |
| ContactForm.NewContactNeedsBothFields | src/components/contacts/contact-form.tsx:21-50 | a new-contact form fails on both fields; a form passes iff both are filled |
| ContactForm.EditStartsFromContact | src/components/contacts/contact-form.tsx:45-53 | editing a valid contact starts from a valid record, in edit mode |
| ContactForm.OnSubmit | src/components/contacts/contact-form.tsx:55-64 | update iff a contact is given; a create carries the whole, non-empty record |
| RequestCardDialog.WithField | src/components/cards/RequestCardDialog.tsx:84-156 | a field edit sets that field and keeps all others |
| RequestCardDialog.EditsCommute | src/components/cards/RequestCardDialog.tsx:84-156 | edits of different fields commute; the last edit of a field wins |
| RequestCardDialog.GenderSelectStoresOption | src/components/cards/RequestCardDialog.tsx:111-127 | the gender select stores `M` or `F`, neither of which is `MALE` or `FEMALE` |
| RequestCardDialog.ConfirmPayload | src/components/cards/RequestCardDialog.tsx:46-51 | the draft, unchecked, iff the account is `CheckingBusiness` and not for self; `undefined` otherwise |
| RequestCardDialog.NonBusinessNeverPassesUser | src/components/cards/RequestCardDialog.tsx:47-50 | for any other account type Confirm passes `undefined` |
| RequestCardDialog.Dialog.constructor | src/components/cards/RequestCardDialog.tsx:33-44 | mounts with the given props, for self, with an empty draft |
| RequestCardDialog.Dialog.ReceiveProps | src/components/cards/RequestCardDialog.tsx:24-44 | new `open` and `accountType` props replace the old ones; the toggle and the draft are kept |
| RequestCardDialog.Dialog.SetRequestForSelf | src/components/cards/RequestCardDialog.tsx:65-73 | a toggle sets the flag to a constant and keeps the draft and the props |
| RequestCardDialog.Dialog.EditField | src/components/cards/RequestCardDialog.tsx:81-158 | an input replaces one draft field and keeps the flag and the props |
| RequestCardDialog.Dialog.HandleConfirm | src/components/cards/RequestCardDialog.tsx:46-52 | returns the confirm payload of the current state |
| RequestCardDialog.ConfirmScenarios | src/components/cards/RequestCardDialog.tsx:41-51 | a freshly mounted dialog confirms `undefined`; after the toggle and one edit it confirms a draft with that field only |
| RequestCardDialog.ReopenScenario | src/components/cards/RequestCardDialog.tsx:33-51 | a draft entered before closing is confirmed again after reopening; a non-business account hides it and the business account brings it back |
| OrderCreationDialog.Defaults | src/components/orders/OrderCreationDialog.tsx:72-78 | `allOrNothing` and `margin` default to false; quantity, limit, stop and currency are missing |
| OrderCreationDialog.Parse | src/components/orders/OrderCreationDialog.tsx:38-49 | accepted iff all rules hold; the result has quantity at least 1, non-negative limit and stop, non-empty asset and account |
| OrderCreationDialog.InputsAloneNeverAccepted | src/components/orders/OrderCreationDialog.tsx:72-197 | from the defaults, whatever the four inputs hold, the schema rejects the form |
| OrderCreationDialog.PreviewRequest | src/components/orders/OrderCreationDialog.tsx:80-91 | limit and stop become amounts in the order's currency; the form values can be read back unchanged |
| OrderCreationDialog.PreviewRequestInjective | src/components/orders/OrderCreationDialog.tsx:80-91 | different form values give different preview requests |
| OrderCreationDialog.Dialog.constructor | src/components/orders/OrderCreationDialog.tsx:68-71 | no preview shown or held, nothing sent |
| OrderCreationDialog.Dialog.HandleSubmit | src/components/orders/OrderCreationDialog.tsx:80-95 | sends the preview request; on an answer holds it and shows it; on failure changes no state |
| OrderCreationDialog.Dialog.HandleConfirm | src/components/orders/OrderCreationDialog.tsx:97-103 | nothing without a preview; otherwise confirms the current form values, hides the preview and asks to close |
| OrderCreationDialog.Dialog.SetShowPreview | src/components/orders/OrderCreationDialog.tsx:214-232 | the preview dialog's close handlers set the flag |
| OrderCreationDialog.Dialog.Cancel | src/components/orders/OrderCreationDialog.tsx:200-205 | the Cancel button asks the caller to close the dialog |
| OrderCreationDialog.ConfirmedOnlyAfterPreview | src/components/orders/OrderCreationDialog.tsx:80-103 | in every state the dialog's methods reach, a confirmation implies a preview was requested and is held |
| OrderCreationDialog.PreviewThenConfirm | src/components/orders/OrderCreationDialog.tsx:80-103 | Confirm before a preview confirms nothing; after a preview it confirms the current values once |

## Left out

- Rendering, routing, styling and toasts are not modelled. `redirect` is an outcome of `GuardBlock.Decide`, not a thrown navigation.
- The form library's state handling is not modelled: dirty tracking, `mode: 'onBlur'` and the timing of validation. Schemas are predicates or parse functions over the form values.
- `getDirtyValues` lives in `src/lib/form-utils`, which is not part of this model. It is a function parameter, and no property of the dirty subset is assumed.
- Callbacks are not modelled as running code. `onPreview` is awaited. Its answer, or its failure, is a parameter of `HandleSubmit`. Concurrent submissions are not modelled.
- Unseen lists and checks are parameters: zod's e-mail rule, `ALL_GENDERS_`, the keys of `PAYMENT_CODE_MAP`, `ORDER_DIRECTIONS_`, `ORDER_TYPES_` and `ALL_CURRENCIES_`.
- Number inputs: the string-to-number conversion (`+val`, `z.coerce.number`) and NaN/Infinity are not modelled. An input is either empty or a number.
- `LoanForm.InitialState` and `NewTransactionForm.FinalDefaultValues`: a caller value that is present but explicitly `undefined` is not distinguished from a missing one. The spread would let it override the default.
- `SomePartial` lives in `src/types/utils`, which is not part of this model. Supplied defaults are modelled as all-optional.
- `requiredUserType` is passed to `GuardBlock` by five client pages (src/app/c/page.tsx:183, src/app/c/contacts/page.tsx:135, src/app/c/transactions/transfer/page.tsx:87, src/app/c/loans/page.tsx:68, src/app/c/loans/request/page.tsx:39). The component does not declare that prop, so it is not modelled. Those pages omit `requiredPrivileges`: `GuardBlock.Decide` assumes the prop is supplied, and `GuardBlock.DecideAsWritten` models the omission (see Findings).
- CardNumber.FormatCardNumber: lengths and slices count characters (Unicode scalar values), whereas the source counts UTF-16 code units. The two agree only on text inside the Basic Multilingual Plane, which includes every card number. A string of eight emoji has length 16 in the source and is masked there, but the model rejects it.
- The employee form's date picker limit (no future dates) is a widget setting, not a schema rule. A date of birth is only required to be present.

## Findings

| source | as written | input that shows it | evidently intended | confidence | as-written member | corrected member |
|---|---|---|---|---|---|---|
| src/components/GuardBlock.tsx:65 | `requiredPrivileges.every(...)` is called unconditionally, and five client pages render `GuardBlock` without `requiredPrivileges` | a logged-in user whose data has loaded opens src/app/c/page.tsx: `undefined.every` throws a TypeError instead of rendering or redirecting | a page that names no privileges is guarded by login alone | not executed | GuardBlock.DecideAsWritten, GuardBlock.OmittedRequirementThrows | GuardBlock.DecideOptional |
