/**
 * The ledger engine of assets/js/utils.js: the account and journal-line
 * records, `updateAccountBalances` (posting one entry to the accounts) and
 * `validateDoubleEntry` (the debit = credit check of a general entry).
 *
 * Amounts are exact reals, so the engine's `+=`/`-=` carry no rounding.
 */
module Ledger {

  /** A type string that is none of the five account-type names. */
  type OtherName = name: string | name !in {"Asset", "Liability", "Equity", "Revenue", "Expense"}
    witness ""

  /**
   * An account's `type` string: one of the five names, or any other text.
   * `Other` never carries one of the five names, so each type string has
   * exactly one representation, as string comparison in the source implies.
   */
  datatype AccountType = Asset | Liability | Equity | Revenue | Expense | Other(name: OtherName)

  /** The type a type string denotes; the five names never become `Other`. */
  function TypeOf(name: string): (t: AccountType)
    ensures t.Other? <==> name !in {"Asset", "Liability", "Equity", "Revenue", "Expense"}
  {
    if name == "Asset" then Asset
    else if name == "Liability" then Liability
    else if name == "Equity" then Equity
    else if name == "Revenue" then Revenue
    else if name == "Expense" then Expense
    else Other(name)
  }

  function TypeName(t: AccountType): string {
    match t
    case Asset => "Asset"
    case Liability => "Liability"
    case Equity => "Equity"
    case Revenue => "Revenue"
    case Expense => "Expense"
    case Other(name) => name
  }

  lemma TypeNameOfTypeOf(name: string)
    ensures TypeName(TypeOf(name)) == name
  {
  }

  /** Writing a type out and reading it back gives the same type: no two types share a name. */
  lemma TypeOfTypeName(t: AccountType)
    ensures TypeOf(TypeName(t)) == t
  {
  }

  /** Debits raise the balance of Asset and Expense accounts and lower the others. */
  predicate DebitNormal(t: AccountType) {
    t == Asset || t == Expense
  }

  datatype Account = Account(code: string, name: string, accountType: AccountType,
                             description: string, balance: real)

  /** A receipt or payment line. */
  datatype AmountLine = AmountLine(account: string, description: string, amount: real)

  /** A transfer line. */
  datatype TransferLine = TransferLine(fromAccount: string, toAccount: string,
                                       description: string, amount: real)

  /** A general-journal line; a side left empty in the form is 0. */
  datatype GeneralLine = GeneralLine(account: string, description: string, debit: real, credit: real)

  datatype JournalType = Receipt | Payment | Transfer | General

  /** The `entries` of a journal entry, tagged by the entry's type. */
  datatype Lines =
    | ReceiptLines(lines: seq<AmountLine>)
    | PaymentLines(lines: seq<AmountLine>)
    | TransferLines(transfers: seq<TransferLine>)
    | GeneralLines(postings: seq<GeneralLine>)
  {
    function Kind(): JournalType {
      match this
      case ReceiptLines(_) => Receipt
      case PaymentLines(_) => Payment
      case TransferLines(_) => Transfer
      case GeneralLines(_) => General
    }
  }

  // ---------------------------------------------------------------------
  // The code map

  function Codes(s: seq<Account>): set<string> {
    if s == [] then {} else {s[0].code} + Codes(s[1..])
  }

  lemma {:induction false} CodesMembership(s: seq<Account>, k: string)
    ensures k in Codes(s) <==> exists i :: 0 <= i < |s| && s[i].code == k
  {
    if s != [] {
      CodesMembership(s[1..], k);
      if k in Codes(s[1..]) {
        var i :| 0 <= i < |s[1..]| && s[1..][i].code == k;
        assert s[i + 1].code == k;
      }
      if exists i :: 0 <= i < |s| && s[i].code == k {
        var i :| 0 <= i < |s| && s[i].code == k;
        if i > 0 {
          assert s[1..][i - 1].code == k;
        }
      }
    }
  }

  predicate DistinctCodes(s: seq<Account>) {
    forall i, j :: 0 <= i < j < |s| ==> s[i].code != s[j].code
  }

  /**
   * `accounts.reduce((map, a) => { map[a.code] = a; ... }, {})`: every code
   * of the list, mapped to the LAST record that carries it.
   */
  function LastByCode(s: seq<Account>): (m: map<string, Account>)
    ensures m.Keys == Codes(s)
    ensures forall k :: k in m ==> m[k].code == k
  {
    if s == [] then map[] else map[s[0].code := s[0]] + LastByCode(s[1..])
  }

  /** The code map holds records of the list only. */
  lemma {:induction false} LastByCodeFromList(s: seq<Account>)
    ensures forall k :: k in LastByCode(s) ==> LastByCode(s)[k] in s
  {
    if s != [] {
      LastByCodeFromList(s[1..]);
      forall k | k in LastByCode(s) ensures LastByCode(s)[k] in s {
        if k != s[0].code {
          assert LastByCode(s)[k] == LastByCode(s[1..])[k];
          assert LastByCode(s[1..])[k] in s[1..];
        }
      }
    }
  }

  lemma {:induction false} LastByCodeSnoc(s: seq<Account>, a: Account)
    ensures LastByCode(s + [a]) == LastByCode(s)[a.code := a]
  {
    if s != [] {
      assert (s + [a])[1..] == s[1..] + [a];
      LastByCodeSnoc(s[1..], a);
    } else {
      assert [] + [a] == [a];
      assert [a][1..] == [];
    }
  }

  /** The record the code map holds for a code is its last occurrence. */
  lemma {:induction false} LastByCodeAt(s: seq<Account>, i: nat)
    requires i < |s|
    requires s[i].code !in Codes(s[i + 1..])
    ensures s[i].code in LastByCode(s) && LastByCode(s)[s[i].code] == s[i]
  {
    if i > 0 {
      assert s[1..][i - 1] == s[i];
      assert s[1..][i..] == s[i + 1..];
      LastByCodeAt(s[1..], i - 1);
    } else {
      assert s[1..] == s[i + 1..];
    }
  }

  /**
   * `Object.values(accountMap)` up to order: one record per distinct code,
   * the last one the list holds, listed in the order of those last
   * occurrences.
   */
  function Dedup(s: seq<Account>): seq<Account> {
    if s == [] then []
    else if s[0].code in Codes(s[1..]) then Dedup(s[1..])
    else [s[0]] + Dedup(s[1..])
  }

  lemma {:induction false} DedupKeepsLastOfEachCode(s: seq<Account>)
    ensures Codes(Dedup(s)) == Codes(s)
    ensures DistinctCodes(Dedup(s))
    ensures forall a :: a in Dedup(s) ==> a.code in LastByCode(s) && LastByCode(s)[a.code] == a
  {
    if s != [] {
      DedupKeepsLastOfEachCode(s[1..]);
      var rest := Dedup(s[1..]);
      if s[0].code !in Codes(s[1..]) {
        assert Dedup(s) == [s[0]] + rest;
        assert ([s[0]] + rest)[1..] == rest;
        forall j | 0 <= j < |rest| ensures rest[j].code != s[0].code {
          CodesMembership(rest, rest[j].code);
        }
        LastByCodeAt(s, 0);
      }
    }
  }

  lemma {:induction false} DedupOfDistinct(s: seq<Account>)
    requires DistinctCodes(s)
    ensures Dedup(s) == s
  {
    if s != [] {
      CodesMembership(s[1..], s[0].code);
      forall i | 0 <= i < |s[1..]| ensures s[1..][i].code != s[0].code {
        assert s[1..][i] == s[i + 1];
      }
      DedupOfDistinct(s[1..]);
    }
  }

  // ---------------------------------------------------------------------
  // What an entry does to one account

  /** Sum of `amount` over the lines that name `code`. */
  function AmountTotalFor(lines: seq<AmountLine>, code: string): real {
    if lines == [] then 0.0
    else
      var last := lines[|lines| - 1];
      AmountTotalFor(lines[..|lines| - 1], code) + (if last.account == code then last.amount else 0.0)
  }

  predicate NonNegativeAmounts(lines: seq<AmountLine>) {
    forall i :: 0 <= i < |lines| ==> lines[i].amount >= 0.0
  }

  /** With no negative amount, no account's total is negative. */
  lemma {:induction false} AmountTotalForNonNegative(lines: seq<AmountLine>, code: string)
    ensures NonNegativeAmounts(lines) ==> AmountTotalFor(lines, code) >= 0.0
    decreases |lines|
  {
    if lines != [] {
      var init := lines[..|lines| - 1];
      assert NonNegativeAmounts(lines) ==> NonNegativeAmounts(init) by {
        if NonNegativeAmounts(lines) {
          forall i | 0 <= i < |init| ensures init[i].amount >= 0.0 {
            assert init[i] == lines[i];
          }
        }
      }
      AmountTotalForNonNegative(init, code);
    }
  }

  lemma AmountTotalForPrefix(lines: seq<AmountLine>, j: int, code: string)
    requires 0 <= j < |lines|
    ensures AmountTotalFor(lines[..j + 1], code) ==
              AmountTotalFor(lines[..j], code) + (if lines[j].account == code then lines[j].amount else 0.0)
  {
    assert lines[..j + 1][..j] == lines[..j];
  }

  /** A transfer moves `entries[0].amount` from `fromAccount` to `toAccount`; later lines are ignored. */
  function TransferDelta(transfers: seq<TransferLine>, code: string): (r: real)
    ensures transfers == [] || transfers[0].fromAccount == transfers[0].toAccount ==> r == 0.0
    ensures transfers != [] && transfers[0].toAccount == code && transfers[0].fromAccount != code ==>
              r == transfers[0].amount
    ensures transfers != [] && transfers[0].fromAccount == code && transfers[0].toAccount != code ==>
              r == -transfers[0].amount
    ensures transfers != [] && transfers[0].fromAccount != code && transfers[0].toAccount != code ==> r == 0.0
  {
    if transfers == [] then 0.0
    else
      var t := transfers[0];
      (if t.toAccount == code then t.amount else 0.0) - (if t.fromAccount == code then t.amount else 0.0)
  }

  /** The change one general line makes to an account of type `t` that it names. */
  function GeneralEffect(line: GeneralLine, t: AccountType): (r: real)
    ensures line.debit <= 0.0 && line.credit <= 0.0 ==> r == 0.0
    ensures line.debit >= 0.0 && line.credit >= 0.0 ==>
              r == (if DebitNormal(t) then line.debit - line.credit else line.credit - line.debit)
  {
    (if line.debit > 0.0 then (if DebitNormal(t) then line.debit else -line.debit) else 0.0)
    + (if line.credit > 0.0 then (if DebitNormal(t) then -line.credit else line.credit) else 0.0)
  }

  /** Sum of the effects of the general lines that name `code`. */
  function GeneralDeltaFor(postings: seq<GeneralLine>, code: string, t: AccountType): real {
    if postings == [] then 0.0
    else
      var last := postings[|postings| - 1];
      GeneralDeltaFor(postings[..|postings| - 1], code, t)
      + (if last.account == code then GeneralEffect(last, t) else 0.0)
  }

  lemma GeneralDeltaForPrefix(postings: seq<GeneralLine>, j: int, code: string, t: AccountType)
    requires 0 <= j < |postings|
    ensures GeneralDeltaFor(postings[..j + 1], code, t) ==
              GeneralDeltaFor(postings[..j], code, t) + (if postings[j].account == code then GeneralEffect(postings[j], t) else 0.0)
  {
    assert postings[..j + 1][..j] == postings[..j];
  }

  /** The change an entry makes to the balance of account `code` of type `t`. */
  function Delta(e: Lines, code: string, t: AccountType): (r: real)
    ensures e.ReceiptLines? && NonNegativeAmounts(e.lines) ==> r >= 0.0
    ensures e.PaymentLines? && NonNegativeAmounts(e.lines) ==> r <= 0.0
  {
    match e
    case ReceiptLines(lines) => AmountTotalForNonNegative(lines, code); AmountTotalFor(lines, code)
    case PaymentLines(lines) => AmountTotalForNonNegative(lines, code); -AmountTotalFor(lines, code)
    case TransferLines(transfers) => TransferDelta(transfers, code)
    case GeneralLines(postings) => GeneralDeltaFor(postings, code, t)
  }

  /** Posting moves the balance by the account's delta and keeps every other field. */
  function Post(a: Account, e: Lines): (r: Account)
    ensures r.code == a.code && r.name == a.name && r.accountType == a.accountType
    ensures r.description == a.description
    ensures r.balance - a.balance == Delta(e, a.code, a.accountType)
  {
    a.(balance := a.balance + Delta(e, a.code, a.accountType))
  }

  function PostAll(s: seq<Account>, e: Lines): (r: seq<Account>)
    ensures |r| == |s|
    ensures forall i :: 0 <= i < |s| ==> r[i] == Post(s[i], e)
  {
    if s == [] then [] else [Post(s[0], e)] + PostAll(s[1..], e)
  }

  /** The accounts `updateAccountBalances` returns and stores. */
  function Posted(accounts: seq<Account>, e: Lines): seq<Account> {
    PostAll(Dedup(accounts), e)
  }

  // ---------------------------------------------------------------------
  // updateAccountBalances

  /** Every record of the map sits under its own code. */
  ghost predicate KeyedByCode(m: map<string, Account>) {
    forall k :: k in m ==> m[k].code == k
  }

  /** The map's records are those of `m0`, each balance moved by what `done` does to it. */
  ghost predicate PostedMap(m: map<string, Account>, m0: map<string, Account>, done: Lines) {
    && m.Keys == m0.Keys
    && forall k :: k in m0 ==> m[k] == Post(m0[k], done)
  }

  /**
   * `updateAccountBalances(entries, entryType)` on the stored `accounts`:
   * build the code map, move the balance of every record a line names
   * (skipping codes the map lacks), and return the map's records.
   */
  method UpdateAccountBalances(accounts: seq<Account>, e: Lines) returns (updated: seq<Account>)
    ensures updated == Posted(accounts, e)
  {
    var m := BuildAccountMap(accounts);
    match e {
      case ReceiptLines(lines) => m := PostReceipt(m, lines);
      case PaymentLines(lines) => m := PostPayment(m, lines);
      case TransferLines(transfers) => m := PostTransfer(m, transfers);
      case GeneralLines(postings) => m := PostGeneral(m, postings);
    }
    updated := MapValues(accounts, m, e);
  }

  method BuildAccountMap(accounts: seq<Account>) returns (m: map<string, Account>)
    ensures m == LastByCode(accounts)
  {
    m := map[];
    var i := 0;
    while i < |accounts|
      invariant 0 <= i <= |accounts|
      invariant m == LastByCode(accounts[..i])
    {
      LastByCodePrefix(accounts, i);
      m := m[accounts[i].code := accounts[i]];
      i := i + 1;
    }
    assert accounts[..i] == accounts;
  }

  lemma LastByCodePrefix(accounts: seq<Account>, i: int)
    requires 0 <= i < |accounts|
    ensures LastByCode(accounts[..i + 1]) == LastByCode(accounts[..i])[accounts[i].code := accounts[i]]
  {
    LastByCodeSnoc(accounts[..i], accounts[i]);
    assert accounts[..i + 1] == accounts[..i] + [accounts[i]];
  }

  /** Receipt: the first line's account and then every other line's account gains its `amount`. */
  method PostReceipt(m0: map<string, Account>, lines: seq<AmountLine>) returns (m: map<string, Account>)
    requires KeyedByCode(m0)
    ensures PostedMap(m, m0, ReceiptLines(lines))
  {
    m := m0;
    if |lines| > 0 {
      assert lines[..0] == [];
      assert PostedMap(m0, m0, ReceiptLines(lines[..0]));
      m := ReceiptLine(m, m0, lines, 0);
      var j := 1;
      while j < |lines|
        invariant 1 <= j <= |lines|
        invariant PostedMap(m, m0, ReceiptLines(lines[..j]))
      {
        m := ReceiptLine(m, m0, lines, j);
        j := j + 1;
      }
      assert lines[..j] == lines;
    }
  }

  /** The account of line `j`, when it is in the map, gains the line's `amount`. */
  method ReceiptLine(m: map<string, Account>, m0: map<string, Account>, lines: seq<AmountLine>, j: int)
      returns (m': map<string, Account>)
    requires KeyedByCode(m0) && 0 <= j < |lines|
    requires PostedMap(m, m0, ReceiptLines(lines[..j]))
    ensures PostedMap(m', m0, ReceiptLines(lines[..j + 1]))
  {
    var account := lines[j].account;
    m' := m;
    if account in m {
      m' := m[account := m[account].(balance := m[account].balance + lines[j].amount)];
    }
    ReceiptStep(m, m', m0, lines, j);
  }

  lemma ReceiptStep(m: map<string, Account>, m': map<string, Account>, m0: map<string, Account>, lines: seq<AmountLine>, j: int)
    requires KeyedByCode(m0) && 0 <= j < |lines|
    requires PostedMap(m, m0, ReceiptLines(lines[..j]))
    requires var a := lines[j].account;
             m' == if a in m then m[a := m[a].(balance := m[a].balance + lines[j].amount)] else m
    ensures PostedMap(m', m0, ReceiptLines(lines[..j + 1]))
  {
    forall k | k in m0 ensures AmountTotalFor(lines[..j + 1], k) ==
        AmountTotalFor(lines[..j], k) + (if lines[j].account == k then lines[j].amount else 0.0) {
      AmountTotalForPrefix(lines, j, k);
    }
  }

  /** Payment: the first line's account and then every other line's account loses its `amount`. */
  method PostPayment(m0: map<string, Account>, lines: seq<AmountLine>) returns (m: map<string, Account>)
    requires KeyedByCode(m0)
    ensures PostedMap(m, m0, PaymentLines(lines))
  {
    m := m0;
    if |lines| > 0 {
      assert lines[..0] == [];
      assert PostedMap(m0, m0, PaymentLines(lines[..0]));
      m := PaymentLine(m, m0, lines, 0);
      var j := 1;
      while j < |lines|
        invariant 1 <= j <= |lines|
        invariant PostedMap(m, m0, PaymentLines(lines[..j]))
      {
        m := PaymentLine(m, m0, lines, j);
        j := j + 1;
      }
      assert lines[..j] == lines;
    }
  }

  /** The account of line `j`, when it is in the map, loses the line's `amount`. */
  method PaymentLine(m: map<string, Account>, m0: map<string, Account>, lines: seq<AmountLine>, j: int)
      returns (m': map<string, Account>)
    requires KeyedByCode(m0) && 0 <= j < |lines|
    requires PostedMap(m, m0, PaymentLines(lines[..j]))
    ensures PostedMap(m', m0, PaymentLines(lines[..j + 1]))
  {
    var account := lines[j].account;
    m' := m;
    if account in m {
      m' := m[account := m[account].(balance := m[account].balance - lines[j].amount)];
    }
    PaymentStep(m, m', m0, lines, j);
  }

  lemma PaymentStep(m: map<string, Account>, m': map<string, Account>, m0: map<string, Account>, lines: seq<AmountLine>, j: int)
    requires KeyedByCode(m0) && 0 <= j < |lines|
    requires PostedMap(m, m0, PaymentLines(lines[..j]))
    requires var a := lines[j].account;
             m' == if a in m then m[a := m[a].(balance := m[a].balance - lines[j].amount)] else m
    ensures PostedMap(m', m0, PaymentLines(lines[..j + 1]))
  {
    forall k | k in m0 ensures AmountTotalFor(lines[..j + 1], k) ==
        AmountTotalFor(lines[..j], k) + (if lines[j].account == k then lines[j].amount else 0.0) {
      AmountTotalForPrefix(lines, j, k);
    }
  }

  /** Transfer: only `entries[0]` is read. */
  method PostTransfer(m0: map<string, Account>, transfers: seq<TransferLine>) returns (m: map<string, Account>)
    requires KeyedByCode(m0)
    ensures PostedMap(m, m0, TransferLines(transfers))
  {
    m := m0;
    if |transfers| > 0 {
      var fromAccount := transfers[0].fromAccount;
      var toAccount := transfers[0].toAccount;
      var amount := transfers[0].amount;
      if fromAccount in m {
        m := m[fromAccount := m[fromAccount].(balance := m[fromAccount].balance - amount)];
      }
      if toAccount in m {
        m := m[toAccount := m[toAccount].(balance := m[toAccount].balance + amount)];
      }
    }
  }

  /** General: each line's positive debit and positive credit, signed by the account's normal side. */
  method PostGeneral(m0: map<string, Account>, postings: seq<GeneralLine>) returns (m: map<string, Account>)
    requires KeyedByCode(m0)
    ensures PostedMap(m, m0, GeneralLines(postings))
  {
    m := m0;
    var j := 0;
    while j < |postings|
      invariant 0 <= j <= |postings|
      invariant PostedMap(m, m0, GeneralLines(postings[..j]))
    {
      var line := postings[j];
      var account := line.account;
      if account in m {
        var balance := m[account].balance;
        var t := m[account].accountType;
        if line.debit > 0.0 {
          if t == Asset || t == Expense {
            balance := balance + line.debit;
          } else {
            balance := balance - line.debit;
          }
        }
        if line.credit > 0.0 {
          if t == Asset || t == Expense {
            balance := balance - line.credit;
          } else {
            balance := balance + line.credit;
          }
        }
        assert balance == m[account].balance + GeneralEffect(line, t);
        GeneralStep(m, m0, postings, j);
        m := m[account := m[account].(balance := balance)];
      } else {
        GeneralStep(m, m0, postings, j);
      }
      j := j + 1;
    }
    assert postings[..j] == postings;
  }

  /** One general line moves only the record it names, by its effect on that record's type. */
  lemma GeneralStep(m: map<string, Account>, m0: map<string, Account>, postings: seq<GeneralLine>, j: int)
    requires KeyedByCode(m0) && 0 <= j < |postings|
    requires PostedMap(m, m0, GeneralLines(postings[..j]))
    ensures var line := postings[j];
            if line.account in m then
              PostedMap(m[line.account := m[line.account].(balance := m[line.account].balance
                                                            + GeneralEffect(line, m[line.account].accountType))],
                        m0, GeneralLines(postings[..j + 1]))
            else PostedMap(m, m0, GeneralLines(postings[..j + 1]))
  {
    forall k | k in m0 ensures GeneralDeltaFor(postings[..j + 1], k, m0[k].accountType) ==
        GeneralDeltaFor(postings[..j], k, m0[k].accountType)
        + (if postings[j].account == k then GeneralEffect(postings[j], m0[k].accountType) else 0.0) {
      GeneralDeltaForPrefix(postings, j, k, m0[k].accountType);
    }
  }

  /** `Object.values(accountMap)`, listed in the order of each code's last occurrence. */
  method MapValues(accounts: seq<Account>, m: map<string, Account>, e: Lines) returns (updated: seq<Account>)
    requires PostedMap(m, LastByCode(accounts), e)
    ensures updated == Posted(accounts, e)
  {
    updated := [];
    var seen: set<string> := {};
    var n := |accounts|;
    while n > 0
      invariant 0 <= n <= |accounts|
      invariant seen == Codes(accounts[n..])
      invariant updated == PostAll(Dedup(accounts[n..]), e)
    {
      n := n - 1;
      var a := accounts[n];
      MapValuesStep(accounts, m, e, n);
      if a.code !in seen {
        updated := [m[a.code]] + updated;
      }
      seen := seen + {a.code};
    }
    assert accounts[0..] == accounts;
  }

  /** One more record from the back: its posted map value joins the front unless a later record has its code. */
  lemma MapValuesStep(accounts: seq<Account>, m: map<string, Account>, e: Lines, n: int)
    requires PostedMap(m, LastByCode(accounts), e)
    requires 0 <= n < |accounts|
    ensures accounts[n].code in m
    ensures Codes(accounts[n..]) == {accounts[n].code} + Codes(accounts[n + 1..])
    ensures PostAll(Dedup(accounts[n..]), e) ==
              if accounts[n].code in Codes(accounts[n + 1..]) then PostAll(Dedup(accounts[n + 1..]), e)
              else [m[accounts[n].code]] + PostAll(Dedup(accounts[n + 1..]), e)
  {
    var a := accounts[n];
    CodesMembership(accounts, a.code);
    assert accounts[n..][1..] == accounts[n + 1..];
    if a.code !in Codes(accounts[n + 1..]) {
      LastByCodeAt(accounts, n);
      var rest := PostAll(Dedup(accounts[n + 1..]), e);
      var whole := PostAll(Dedup(accounts[n..]), e);
      assert Dedup(accounts[n..]) == [a] + Dedup(accounts[n + 1..]);
      assert whole == [m[a.code]] + rest by {
        assert |whole| == 1 + |rest|;
        forall i | 0 <= i < |whole| ensures whole[i] == ([m[a.code]] + rest)[i] {
          if i > 0 {
            assert Dedup(accounts[n..])[i] == Dedup(accounts[n + 1..])[i - 1];
          }
        }
      }
    }
  }

  // ---------------------------------------------------------------------
  // validateDoubleEntry

  function Abs(x: real): real {
    if x < 0.0 then -x else x
  }

  function TotalDebits(postings: seq<GeneralLine>): real {
    if postings == [] then 0.0
    else TotalDebits(postings[..|postings| - 1]) + postings[|postings| - 1].debit
  }

  function TotalCredits(postings: seq<GeneralLine>): real {
    if postings == [] then 0.0
    else TotalCredits(postings[..|postings| - 1]) + postings[|postings| - 1].credit
  }

  /**
   * `validateDoubleEntry(entries, entryType)`: a general entry passes iff
   * its debits and credits differ by less than 0.001; every other entry passes.
   */
  method ValidateDoubleEntry(e: Lines) returns (ok: bool)
    ensures ok <==> (e.GeneralLines? ==> Abs(TotalDebits(e.postings) - TotalCredits(e.postings)) < 0.001)
  {
    if e.GeneralLines? {
      var postings := e.postings;
      var totalDebits := 0.0;
      var totalCredits := 0.0;
      var j := 0;
      while j < |postings|
        invariant 0 <= j <= |postings|
        invariant totalDebits == TotalDebits(postings[..j])
        invariant totalCredits == TotalCredits(postings[..j])
      {
        assert postings[..j + 1][..j] == postings[..j];
        totalDebits := totalDebits + postings[j].debit;
        totalCredits := totalCredits + postings[j].credit;
        j := j + 1;
      }
      assert postings[..j] == postings;
      return Abs(totalDebits - totalCredits) < 0.001;
    }
    return true;
  }
}
