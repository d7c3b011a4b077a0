/** The loan request form: its zod schema and defaults, the repayment
    periods it offers, the accounts it offers for the chosen currency, the
    number inputs, and the create/update split of `_onSubmit`. */
module LoanForm {
  import opened Forms

  const LoanTypes: seq<string> := ["CASH", "MORTGAGE", "AUTO", "REFINANCING", "STUDENT"]
  const InterestTypes: seq<string> := ["FIXED", "VARIABLE", "COMPOUND"]
  const EmploymentStatuses: seq<string> := ["PERMANENT", "TEMPORARY", "UNEMPLOYED"]
  const Currencies: seq<string> := ["RSD", "EUR", "CHF", "USD", "GBP", "JPY", "CAD", "AUD"]

  /** Repayment periods, in months. */
  const MortgagePeriods: seq<int> := [60, 120, 180, 240, 300, 360]
  const DefaultPeriods: seq<int> := [12, 24, 36, 48, 60, 72, 84]

  /** The form state: any field may be missing (`undefined`). Amounts are
      exact numbers, not floating point. */
  datatype LoanFormState = LoanFormState(
    loanType: Option<string>,
    interestType: Option<string>,
    amount: Option<real>,
    currency: Option<string>,
    purposeOfLoan: Option<string>,
    monthlyIncome: Option<real>,
    employmentStatus: Option<string>,
    employmentPeriod: Option<real>,
    repaymentPeriod: Option<real>,
    contactPhone: Option<string>,
    accountNumber: Option<string>)

  /** The schema's output. */
  datatype LoanFormValues = LoanFormValues(
    loanType: string,
    interestType: string,
    amount: real,
    currency: string,
    purposeOfLoan: string,
    monthlyIncome: real,
    employmentStatus: string,
    employmentPeriod: real,
    repaymentPeriod: real,
    contactPhone: string,
    accountNumber: string)

  /** A form with nothing filled in, the caller's `defaultValues` when none
      are given. */
  const NothingSupplied := LoanFormState(None, None, None, None, None, None, None, None, None, None, None)

  /** `{loanType: 'CASH', interestType: 'FIXED', currency: 'RSD', ...defaultValues}`:
      three defaults, each replaced by a value the caller supplies. */
  function InitialState(supplied: LoanFormState): (s: LoanFormState)
    ensures s.loanType == (if supplied.loanType.Some? then supplied.loanType else Some("CASH"))
    ensures s.interestType == (if supplied.interestType.Some? then supplied.interestType else Some("FIXED"))
    ensures s.currency == (if supplied.currency.Some? then supplied.currency else Some("RSD"))
    ensures s.(loanType := supplied.loanType, interestType := supplied.interestType,
               currency := supplied.currency) == supplied
  {
    supplied.(
      loanType := if supplied.loanType.Some? then supplied.loanType else Some("CASH"),
      interestType := if supplied.interestType.Some? then supplied.interestType else Some("FIXED"),
      currency := if supplied.currency.Some? then supplied.currency else Some("RSD"))
  }

  /** A form opened without caller values starts as a cash loan at a fixed
      rate in dinars, with every other field missing, which the schema
      rejects until the amount and the rest are entered. */
  lemma BlankFormDefaults()
    ensures InitialState(NothingSupplied)
            == NothingSupplied.(loanType := Some("CASH"), interestType := Some("FIXED"), currency := Some("RSD"))
    ensures !Accepts(InitialState(NothingSupplied))
  {
  }

  /** A text rule: present and non-empty. */
  predicate TextGiven(s: Option<string>) {
    s.Some? && NonEmpty(s.value)
  }

  /** A number rule: present and at least `min`. */
  predicate AtLeast(x: Option<real>, min: real) {
    x.Some? && x.value >= min
  }

  /** An enumeration rule: present and one of `allowed`. */
  predicate OneOf(s: Option<string>, allowed: seq<string>) {
    s.Some? && s.value in allowed
  }

  /** `loanFormSchema`. */
  predicate Accepts(s: LoanFormState)
  {
    && OneOf(s.loanType, LoanTypes)
    && OneOf(s.interestType, InterestTypes)
    && AtLeast(s.amount, 1.0)
    && OneOf(s.currency, Currencies)
    && TextGiven(s.purposeOfLoan)
    && AtLeast(s.monthlyIncome, 0.0)
    && OneOf(s.employmentStatus, EmploymentStatuses)
    && AtLeast(s.employmentPeriod, 0.0)
    && AtLeast(s.repaymentPeriod, 1.0)
    && TextGiven(s.contactPhone)
    && TextGiven(s.accountNumber)
  }

  /** Parsing: the values of an accepted state, or nothing. */
  function Parse(s: LoanFormState): (r: Option<LoanFormValues>)
    ensures r.Some? <==> Accepts(s)
    ensures r.Some? ==> && r.value.amount >= 1.0 && r.value.monthlyIncome >= 0.0
                        && r.value.employmentPeriod >= 0.0 && r.value.repaymentPeriod >= 1.0
                        && NonEmpty(r.value.purposeOfLoan) && NonEmpty(r.value.contactPhone)
                        && NonEmpty(r.value.accountNumber)
                        && r.value.loanType in LoanTypes && r.value.currency in Currencies
                        && r.value.interestType in InterestTypes
                        && r.value.employmentStatus in EmploymentStatuses
    ensures r.Some? ==> State(r.value) == s
  {
    if !Accepts(s) then None
    else
      Some(LoanFormValues(
        s.loanType.value, s.interestType.value, s.amount.value, s.currency.value,
        s.purposeOfLoan.value, s.monthlyIncome.value, s.employmentStatus.value,
        s.employmentPeriod.value, s.repaymentPeriod.value, s.contactPhone.value,
        s.accountNumber.value))
  }

  /** The form state holding exactly these values. */
  function State(v: LoanFormValues): LoanFormState
  {
    LoanFormState(
      Some(v.loanType), Some(v.interestType), Some(v.amount), Some(v.currency),
      Some(v.purposeOfLoan), Some(v.monthlyIncome), Some(v.employmentStatus),
      Some(v.employmentPeriod), Some(v.repaymentPeriod), Some(v.contactPhone),
      Some(v.accountNumber))
  }

  /** What a number input holds: nothing, or a number (the browser's
      `type="number"` input gives `''` or a numeric string). */
  datatype NumberInput = Empty | Entered(number: real)

  /** The amount, income and employment-period inputs: an empty input stores
      `undefined`, anything else the number. */
  function OnNumberChange(input: NumberInput): (x: Option<real>)
    ensures x.None? <==> input.Empty?
    ensures input.Entered? ==> x == Some(input.number)
  {
    match input
    case Empty => None
    case Entered(n) => Some(n)
  }

  /** Clearing a required number input makes the form fail validation. */
  lemma EmptyNumberInputRejected(s: LoanFormState)
    ensures !Accepts(s.(amount := OnNumberChange(Empty)))
    ensures !Accepts(s.(monthlyIncome := OnNumberChange(Empty)))
    ensures !Accepts(s.(employmentPeriod := OnNumberChange(Empty)))
  {
  }

  /** The periods offered for the loan type being watched. */
  function AvailableRepaymentPeriods(loanType: Option<string>): (periods: seq<int>)
    ensures loanType == Some("MORTGAGE") ==> periods == MortgagePeriods
    ensures loanType != Some("MORTGAGE") ==> periods == DefaultPeriods
  {
    if loanType == Some("MORTGAGE") then MortgagePeriods else DefaultPeriods
  }

  /** The period select stores `Number(String(period))`, the period itself. */
  function SelectRepaymentPeriod(period: int): (x: Option<real>)
    ensures x == Some(period as real)
  {
    Some(period as real)
  }

  /** Every offered period satisfies the schema's `repaymentPeriod >= 1`. */
  lemma OfferedPeriodsAccepted(loanType: Option<string>, period: int)
    requires period in AvailableRepaymentPeriods(loanType)
    ensures AtLeast(SelectRepaymentPeriod(period), 1.0)
  {
  }

  /** The schema does not tie the period to the offered list: a mortgage
      with a 12-month period passes. */
  lemma UnofferedPeriodAccepted(s: LoanFormState)
    requires Accepts(s) && s.loanType == Some("MORTGAGE")
    ensures 12 !in AvailableRepaymentPeriods(s.loanType)
    ensures Accepts(s.(repaymentPeriod := Some(12.0)))
  {
  }

  /** An account the form may pay into. */
  datatype Account = Account(accountNumber: string, currency: string)

  /** The fixed list of accounts the form offers. */
  const ClientAccounts: seq<Account> := [
    Account("35123456789012345000", "RSD"),
    Account("35123456789012345001", "EUR"),
    Account("35123456789012345002", "RSD")
  ]

  /** `accounts.filter((acc) => acc.currency === currency)`. */
  function FilteredAccounts(accounts: seq<Account>, currency: Option<string>): (r: seq<Account>)
    ensures |r| <= |accounts|
    ensures forall a :: a in r ==> a in accounts && Some(a.currency) == currency
  {
    if accounts == [] then []
    else
      assert accounts == [accounts[0]] + accounts[1..];
      (if Some(accounts[0].currency) == currency then [accounts[0]] else []) + FilteredAccounts(accounts[1..], currency)
  }

  /** Each account of the chosen currency is kept as often as it occurs, and
      no other. */
  lemma {:induction false} FilterCounts(accounts: seq<Account>, currency: Option<string>, a: Account)
    ensures multiset(FilteredAccounts(accounts, currency))[a]
            == if Some(a.currency) == currency then multiset(accounts)[a] else 0
  {
    if accounts != [] {
      FilterCounts(accounts[1..], currency, a);
      assert accounts == [accounts[0]] + accounts[1..];
    }
  }

  /** Filtering keeps the accounts' order: the result is a subsequence of the
      list, taken greedily from the front. */
  predicate IsSubsequence(r: seq<Account>, s: seq<Account>)
    decreases |s|
  {
    if r == [] then true
    else if s == [] then false
    else if r[0] == s[0] then IsSubsequence(r[1..], s[1..])
    else IsSubsequence(r, s[1..])
  }

  lemma {:induction false} FilterKeepsOrder(accounts: seq<Account>, currency: Option<string>)
    ensures IsSubsequence(FilteredAccounts(accounts, currency), accounts)
    decreases |accounts|
  {
    if accounts != [] {
      FilterKeepsOrder(accounts[1..], currency);
      var rest := FilteredAccounts(accounts[1..], currency);
      if Some(accounts[0].currency) == currency {
        assert FilteredAccounts(accounts, currency) == [accounts[0]] + rest;
        assert ([accounts[0]] + rest)[1..] == rest;
      } else {
        assert FilteredAccounts(accounts, currency) == rest;
        SubsequenceOfTail(rest, accounts);
      }
    }
  }

  /** Dropping the head of the list keeps a subsequence of its tail one. */
  lemma {:induction false} SubsequenceOfTail(r: seq<Account>, s: seq<Account>)
    requires s != [] && IsSubsequence(r, s[1..])
    ensures IsSubsequence(r, s)
    decreases |r| + |s|
  {
    if r != [] && r[0] == s[0] {
      SubsequenceDropHead(r, s[1..]);
    }
  }

  lemma {:induction false} SubsequenceDropHead(r: seq<Account>, s: seq<Account>)
    requires r != [] && IsSubsequence(r, s)
    ensures IsSubsequence(r[1..], s)
    decreases |r| + |s|
  {
    if r[0] != s[0] {
      SubsequenceDropHead(r, s[1..]);
    }
    if r[1..] != [] {
      SubsequenceOfTail(r[1..], s);
    }
  }

  lemma FilterCons(x: Account, rest: seq<Account>, currency: Option<string>)
    ensures FilteredAccounts([x] + rest, currency)
            == (if Some(x.currency) == currency then [x] else []) + FilteredAccounts(rest, currency)
  {
    assert ([x] + rest)[1..] == rest;
  }

  /** What the account select offers for each currency of the fixed list. */
  lemma ClientAccountsByCurrency()
    ensures FilteredAccounts(ClientAccounts, Some("RSD")) == [ClientAccounts[0], ClientAccounts[2]]
    ensures FilteredAccounts(ClientAccounts, Some("EUR")) == [ClientAccounts[1]]
    ensures FilteredAccounts(ClientAccounts, Some("USD")) == []
  {
    var a0, a1, a2 := ClientAccounts[0], ClientAccounts[1], ClientAccounts[2];
    assert ClientAccounts == [a0] + [a1, a2] && [a1, a2] == [a1] + [a2] && [a2] == [a2] + [];
    FilterCons(a0, [a1, a2], Some("RSD"));
    FilterCons(a1, [a2], Some("RSD"));
    FilterCons(a2, [], Some("RSD"));
    FilterCons(a0, [a1, a2], Some("EUR"));
    FilterCons(a1, [a2], Some("EUR"));
    FilterCons(a2, [], Some("EUR"));
    FilterCons(a0, [a1, a2], Some("USD"));
    FilterCons(a1, [a2], Some("USD"));
    FilterCons(a2, [], Some("USD"));
  }

  /** `_onSubmit`; `isUpdate` defaults to false when the caller omits it. */
  function OnSubmit<DirtyFields, Dirty>(
    isUpdate: Option<bool>, values: LoanFormValues,
    dirtyFields: DirtyFields, getDirtyValues: (DirtyFields, LoanFormValues) -> Dirty)
    : (a: SubmitAction<LoanFormValues, Dirty>)
    ensures a.Update? <==> isUpdate == Some(true)
    ensures a.Create? ==> a.data == values
    ensures a.Update? ==> a.dirty == getDirtyValues(dirtyFields, values)
  {
    Dispatch(isUpdate == Some(true), values, dirtyFields, getDirtyValues)
  }
}
