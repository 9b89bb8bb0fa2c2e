/**
 * The chart of accounts of assets/js/accounts.js: the balance colour, the
 * per-type totals and the accounting equation shown above the table, the
 * next-code generator, and the account store's add/edit and delete rules.
 */
module Accounts {
  import opened Common
  import opened Text
  import opened Ledger

  // ---------------------------------------------------------------------
  // getBalanceClass

  /** The CSS class of a balance: both branches of the source test only the sign. */
  function BalanceClass(t: AccountType, balance: real): (c: string)
    ensures c == "positive" <==> balance >= 0.0
    ensures c == "positive" || c == "negative"
  {
    if t == Asset || t == Expense then
      (if balance >= 0.0 then "positive" else "negative")
    else
      (if balance >= 0.0 then "positive" else "negative")
  }

  // ---------------------------------------------------------------------
  // renderAccountStats

  /** `totals[type] || 0`: the sum of the balances of the accounts of type `t`. */
  function TypeTotal(s: seq<Account>, t: AccountType): real {
    if s == [] then 0.0
    else (if s[0].accountType == t then s[0].balance else 0.0) + TypeTotal(s[1..], t)
  }

  lemma {:induction false} TypeTotalOfAbsentType(s: seq<Account>, t: AccountType)
    requires forall i :: 0 <= i < |s| ==> s[i].accountType != t
    ensures TypeTotal(s, t) == 0.0
  {
    if s != [] {
      assert forall i :: 0 <= i < |s[1..]| ==> s[1..][i] == s[i + 1];
      TypeTotalOfAbsentType(s[1..], t);
    }
  }

  /** Assets - Liabilities - (Equity + (Revenue - Expense)), which should be zero. */
  function Equation(s: seq<Account>): real {
    TypeTotal(s, Asset) - TypeTotal(s, Liability)
    - (TypeTotal(s, Equity) + (TypeTotal(s, Revenue) - TypeTotal(s, Expense)))
  }

  /** How a balance of type `t` enters the equation: +1 for Asset and Expense, -1 for the other three, 0 otherwise. */
  function SignedBalance(t: AccountType, x: real): real {
    match t
    case Asset => x
    case Expense => x
    case Liability => -x
    case Equity => -x
    case Revenue => -x
    case Other(_) => 0.0
  }

  /** The equation as one sum over the accounts. */
  function SignedSum(s: seq<Account>): real {
    if s == [] then 0.0 else SignedBalance(s[0].accountType, s[0].balance) + SignedSum(s[1..])
  }

  lemma {:induction false} EquationIsSignedSum(s: seq<Account>)
    ensures Equation(s) == SignedSum(s)
  {
    if s != [] {
      EquationIsSignedSum(s[1..]);
    }
  }

  /** What the statistics panel shows. */
  datatype AccountStats = AccountStats(
    assetTotal: real, liabilityTotal: real, equityTotal: real,
    revenueTotal: real, expenseTotal: real,
    netIncome: real, totalEquity: real, equation: real, balanced: bool)

  /** `renderAccountStats(accounts)` without the DOM writes. */
  function Stats(s: seq<Account>): (st: AccountStats)
    ensures st.assetTotal == TypeTotal(s, Asset) && st.liabilityTotal == TypeTotal(s, Liability)
    ensures st.equityTotal == TypeTotal(s, Equity) && st.revenueTotal == TypeTotal(s, Revenue)
    ensures st.expenseTotal == TypeTotal(s, Expense)
    ensures st.netIncome == st.revenueTotal - st.expenseTotal
    ensures st.totalEquity == st.equityTotal + st.netIncome
    ensures st.equation == st.assetTotal - st.liabilityTotal - st.totalEquity == Equation(s)
    ensures st.balanced <==> -0.01 < Equation(s) < 0.01
  {
    var netIncome := TypeTotal(s, Revenue) - TypeTotal(s, Expense);
    var totalEquity := TypeTotal(s, Equity) + netIncome;
    var equation := TypeTotal(s, Asset) - TypeTotal(s, Liability) - totalEquity;
    AccountStats(TypeTotal(s, Asset), TypeTotal(s, Liability), TypeTotal(s, Equity),
                 TypeTotal(s, Revenue), TypeTotal(s, Expense),
                 netIncome, totalEquity, equation, Abs(equation) < 0.01)
  }

  // ---------------------------------------------------------------------
  // generateAccountCode

  /** The leading digit of the codes of a type; the empty string for any other type. */
  function CodePrefix(typeName: string): (p: string)
    ensures TypeOf(typeName).Other? <==> p == ""
    ensures !TypeOf(typeName).Other? ==> |p| == 1 && IsDigit(p[0])
    ensures TypeOf(typeName) == Asset ==> p == "1"
    ensures TypeOf(typeName) == Liability ==> p == "2"
    ensures TypeOf(typeName) == Equity ==> p == "3"
    ensures TypeOf(typeName) == Revenue ==> p == "4"
    ensures TypeOf(typeName) == Expense ==> p == "5"
  {
    if typeName == "Asset" then "1"
    else if typeName == "Liability" then "2"
    else if typeName == "Equity" then "3"
    else if typeName == "Revenue" then "4"
    else if typeName == "Expense" then "5"
    else ""
  }

  /** `parseInt(prefix + '100')`, the code proposed when the type has no eligible code yet. */
  function DefaultCode(typeName: string): nat {
    CodeValue(CodePrefix(typeName) + "100")
  }

  lemma {:induction false} PrefixedDefault(p: string)
    requires |p| == 1
    ensures CodeValue(p + "100") == DigitValue(p[0]) * 1000 + 100
  {
    var s := p + "100";
    assert s[..3] == p + "10" && s[3] == '0';
    assert (p + "10")[..2] == p + "1" && (p + "10")[2] == '0';
    assert (p + "1")[..1] == p && (p + "1")[1] == '1';
    assert p[..0] == [];
    assert DigitValue('0') == 0 && DigitValue('1') == 1;
    assert CodeValue(p) == DigitValue(p[0]);
    assert CodeValue(p + "1") == DigitValue(p[0]) * 10 + 1;
    assert CodeValue(p + "10") == DigitValue(p[0]) * 100 + 10;
  }

  lemma {:induction false} DefaultCodes()
    ensures DefaultCode("Asset") == 1100 && DefaultCode("Liability") == 2100
    ensures DefaultCode("Equity") == 3100 && DefaultCode("Revenue") == 4100
    ensures DefaultCode("Expense") == 5100
  {
    PrefixedDefault("1");
    PrefixedDefault("2");
    PrefixedDefault("3");
    PrefixedDefault("4");
    PrefixedDefault("5");
  }

  /** An account of the type whose numeric code is positive and written with the type's prefix. */
  predicate Eligible(a: Account, typeName: string) {
    && TypeName(a.accountType) == typeName
    && CodeValue(a.code) > 0
    && StartsWith(DecimalString(CodeValue(a.code)), CodePrefix(typeName))
  }

  /** `accounts.filter(a => a.type === accountType)`. */
  function OfType(s: seq<Account>, typeName: string): (r: seq<Account>)
    ensures forall a :: a in r <==> a in s && TypeName(a.accountType) == typeName
  {
    if s == [] then []
    else if TypeName(s[0].accountType) == typeName then [s[0]] + OfType(s[1..], typeName)
    else OfType(s[1..], typeName)
  }

  /** The loop of `generateAccountCode`: the highest eligible code among `s`, 0 when there is none. */
  method HighestEligibleCode(s: seq<Account>, typeName: string) returns (highestCode: nat)
    requires forall a :: a in s ==> TypeName(a.accountType) == typeName
    ensures highestCode == 0 ==> forall a :: a in s ==> !Eligible(a, typeName)
    ensures highestCode != 0 ==> exists a :: a in s && Eligible(a, typeName) && CodeValue(a.code) == highestCode
    ensures forall a :: a in s && Eligible(a, typeName) ==> CodeValue(a.code) <= highestCode
  {
    var prefix := CodePrefix(typeName);
    highestCode := 0;
    var i := 0;
    while i < |s|
      invariant 0 <= i <= |s|
      invariant highestCode == 0 ==> forall a :: a in s[..i] ==> !Eligible(a, typeName)
      invariant highestCode != 0 ==> exists a :: a in s[..i] && Eligible(a, typeName) && CodeValue(a.code) == highestCode
      invariant forall a :: a in s[..i] && Eligible(a, typeName) ==> CodeValue(a.code) <= highestCode
    {
      var code := CodeValue(s[i].code);
      assert s[..i + 1] == s[..i] + [s[i]];
      if code > highestCode && StartsWith(DecimalString(code), prefix) {
        assert Eligible(s[i], typeName) && s[i] in s[..i + 1];
        highestCode := code;
      }
      i := i + 1;
    }
    assert s[..i] == s;
  }

  /**
   * `generateAccountCode()`: no code without a selected type; otherwise ten
   * more than the highest eligible code, or the type's default when none is.
   */
  method GenerateAccountCode(accounts: seq<Account>, typeName: string) returns (r: Option<nat>)
    ensures r.None? <==> typeName == ""
    ensures r.Some? && (forall a :: a in accounts ==> !Eligible(a, typeName)) ==> r.value == DefaultCode(typeName)
    ensures r.Some? && (exists a :: a in accounts && Eligible(a, typeName)) ==>
              && (exists a :: a in accounts && Eligible(a, typeName) && r.value == CodeValue(a.code) + 10)
              && (forall a :: a in accounts && Eligible(a, typeName) ==> CodeValue(a.code) + 10 <= r.value)
  {
    if typeName == "" {
      return None;
    }
    var typeAccounts := OfType(accounts, typeName);
    var highestCode := HighestEligibleCode(typeAccounts, typeName);
    if highestCode != 0 {
      r := Some(highestCode + 10);
    } else {
      r := Some(DefaultCode(typeName));
    }
  }

  // ---------------------------------------------------------------------
  // saveAccount and deleteAccount

  datatype EditMode = Add | Edit

  /** The account form's fields; the type is the selected option's text, "" when none is. */
  datatype AccountForm = AccountForm(mode: EditMode, originalCode: string, typeName: string,
                                     code: string, name: string, description: string, balance: real)

  datatype SaveOutcome = Saved | MissingFields | CodeNotNumeric | DuplicateCode

  datatype DeleteOutcome = Cancelled | Deleted | NonZeroBalance | NotFound

  /** The record the form describes. */
  function NewAccount(form: AccountForm): Account {
    Account(form.code, form.name, TypeOf(form.typeName), form.description, form.balance)
  }

  /** `accounts.findIndex(a => a.code === code)`. */
  function FirstIndexOf(s: seq<Account>, code: string): (r: int)
    ensures -1 <= r < |s|
    ensures r >= 0 ==> s[r].code == code
    ensures forall j :: 0 <= j < |s| && (r < 0 || j < r) ==> s[j].code != code
  {
    if s == [] then -1
    else if s[0].code == code then 0
    else
      var r := FirstIndexOf(s[1..], code);
      if r < 0 then -1 else r + 1
  }

  /** The checks `saveAccount` makes before it touches the list, in their order. */
  function SaveCheck(accounts: seq<Account>, form: AccountForm): (r: SaveOutcome)
    ensures r == MissingFields <==> form.typeName == "" || form.code == "" || form.name == ""
    ensures r == CodeNotNumeric <==> r != MissingFields && !IsDigits(form.code)
    ensures r == DuplicateCode <==>
              && form.typeName != "" && IsDigits(form.code) && form.name != ""
              && form.mode == Add && exists a :: a in accounts && a.code == form.code
  {
    if form.typeName == "" || form.code == "" || form.name == "" then MissingFields
    else if !IsDigits(form.code) then CodeNotNumeric
    else if form.mode == Add && FirstIndexOf(accounts, form.code) >= 0 then DuplicateCode
    else Saved
  }

  function CodeKey(a: Account): int {
    CodeValue(a.code)
  }

  /** The stored `accounts` list. */
  class AccountStore {
    var accounts: seq<Account>

    constructor (initial: seq<Account>)
      ensures accounts == initial
    {
      accounts := initial;
    }

    /**
     * `saveAccount()`: after the checks, add mode appends the new record and
     * edit mode overwrites the first record with the original code, keeping
     * its balance; either way the list is then sorted by numeric code.
     */
    method SaveAccount(form: AccountForm) returns (outcome: SaveOutcome)
      modifies this
      ensures outcome == SaveCheck(old(accounts), form)
      ensures outcome != Saved ==> accounts == old(accounts)
      ensures outcome == Saved ==> SortedBy(accounts, CodeKey)
      ensures outcome == Saved && form.mode == Add ==>
                multiset(accounts) == multiset(old(accounts)) + multiset{NewAccount(form)}
      ensures outcome == Saved && form.mode == Edit ==>
                var i := FirstIndexOf(old(accounts), form.originalCode);
                multiset(accounts) == multiset(if i >= 0 then old(accounts)[i := NewAccount(form).(balance := old(accounts)[i].balance)]
                                               else old(accounts))
    {
      outcome := SaveCheck(accounts, form);
      if outcome != Saved {
        return;
      }
      var account := NewAccount(form);
      var list := accounts;
      if form.mode == Edit {
        var accountIndex := FirstIndexOf(list, form.originalCode);
        if accountIndex >= 0 {
          account := account.(balance := list[accountIndex].balance);
          list := list[accountIndex := account];
        }
      } else {
        list := list + [account];
      }
      accounts := SortBy(list, CodeKey);
    }

    /**
     * `deleteAccount(code)`: once confirmed, removes the first record with
     * the code, but only when its balance is exactly zero.
     */
    method DeleteAccount(code: string, confirmed: bool) returns (outcome: DeleteOutcome)
      modifies this
      ensures !confirmed ==> outcome == Cancelled && accounts == old(accounts)
      ensures confirmed ==>
                var i := FirstIndexOf(old(accounts), code);
                && (i < 0 ==> outcome == NotFound && accounts == old(accounts))
                && (i >= 0 && old(accounts)[i].balance != 0.0 ==> outcome == NonZeroBalance && accounts == old(accounts))
                && (i >= 0 && old(accounts)[i].balance == 0.0 ==>
                      && outcome == Deleted && accounts == old(accounts)[..i] + old(accounts)[i + 1..]
                      && |accounts| == |old(accounts)| - 1
                      && multiset(accounts) == multiset(old(accounts)) - multiset{old(accounts)[i]})
    {
      if !confirmed {
        return Cancelled;
      }
      var accountIndex := FirstIndexOf(accounts, code);
      if accountIndex >= 0 {
        if accounts[accountIndex].balance != 0.0 {
          return NonZeroBalance;
        }
        DeleteRemovesOne(accounts, accountIndex);
        accounts := accounts[..accountIndex] + accounts[accountIndex + 1..];
        return Deleted;
      }
      return NotFound;
    }

    /** `updateAccountBalances` writing its result back to the store. */
    method PostEntry(e: Lines)
      modifies this
      ensures accounts == Posted(old(accounts), e)
    {
      accounts := UpdateAccountBalances(accounts, e);
    }
  }

  /** Deleting removes exactly one record, the one that was found. */
  lemma {:induction false} DeleteRemovesOne(s: seq<Account>, i: nat)
    requires i < |s|
    ensures multiset(s[..i] + s[i + 1..]) == multiset(s) - multiset{s[i]}
    ensures |s[..i] + s[i + 1..]| == |s| - 1
  {
    assert s == s[..i] + [s[i]] + s[i + 1..];
  }
}
