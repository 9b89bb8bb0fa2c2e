/**
 * What `updateAccountBalances` (assets/js/utils.js) does to the accounts,
 * stated over the posting specification `Posted`: one record per code,
 * line-by-line sums for receipts and payments, the single-line transfer,
 * untouched unreferenced accounts, and the accounting equation of
 * assets/js/accounts.js under balanced general entries.
 */
module LedgerFacts {
  import opened Ledger
  import opened Accounts

  // ---------------------------------------------------------------------
  // The shape of the result

  lemma {:induction false} CodesOfPostAll(s: seq<Account>, e: Lines)
    ensures Codes(PostAll(s, e)) == Codes(s)
  {
    if s != [] {
      assert PostAll(s, e)[1..] == PostAll(s[1..], e);
      CodesOfPostAll(s[1..], e);
    }
  }

  lemma {:induction false} DistinctCount(s: seq<Account>)
    requires DistinctCodes(s)
    ensures |Codes(s)| == |s|
  {
    if s != [] {
      CodesMembership(s[1..], s[0].code);
      assert s[0].code !in Codes(s[1..]) by {
        forall i | 0 <= i < |s[1..]| ensures s[1..][i].code != s[0].code {
          assert s[1..][i] == s[i + 1];
        }
      }
      DistinctCount(s[1..]);
    }
  }

  /**
   * The stored list holds one record per distinct code of the input: the
   * last record with that code, with only its balance moved by the entry.
   */
  lemma {:induction false} PostedOnePerCode(s: seq<Account>, e: Lines)
    ensures Codes(Posted(s, e)) == Codes(s)
    ensures DistinctCodes(Posted(s, e))
    ensures |Posted(s, e)| == |Codes(s)|
    ensures forall a :: a in Posted(s, e) ==>
              a.code in LastByCode(s) && a == Post(LastByCode(s)[a.code], e)
  {
    var d := Dedup(s);
    DedupKeepsLastOfEachCode(s);
    CodesOfPostAll(d, e);
    DistinctCount(d);
    forall a | a in Posted(s, e)
      ensures a.code in LastByCode(s) && a == Post(LastByCode(s)[a.code], e)
    {
      var i :| 0 <= i < |d| && Posted(s, e)[i] == a;
      assert d[i] in d;
    }
  }

  // ---------------------------------------------------------------------
  // Receipts and payments

  /** The first line counts exactly like the later ones. */
  lemma {:induction false} AmountTotalForCons(l: AmountLine, rest: seq<AmountLine>, code: string)
    ensures AmountTotalFor([l] + rest, code) == (if l.account == code then l.amount else 0.0) + AmountTotalFor(rest, code)
    decreases |rest|
  {
    if rest == [] {
      assert ([l] + rest)[..0] == [];
    } else {
      var n := |rest| - 1;
      AmountTotalForCons(l, rest[..n], code);
      assert ([l] + rest)[..|[l] + rest| - 1] == [l] + rest[..n];
    }
  }

  /** Receipt lines add up: each account gains the sum over both parts of a split entry. */
  lemma {:induction false} AmountTotalForAppend(a: seq<AmountLine>, b: seq<AmountLine>, code: string)
    ensures AmountTotalFor(a + b, code) == AmountTotalFor(a, code) + AmountTotalFor(b, code)
    decreases |b|
  {
    if b == [] {
      assert a + b == a;
    } else {
      var n := |b| - 1;
      AmountTotalForAppend(a, b[..n], code);
      assert (a + b)[..|a + b| - 1] == a + b[..n];
    }
  }

  // ---------------------------------------------------------------------
  // Accounts no line names

  /** Some line of the entry names `code` (for a transfer, only the first line is read). */
  predicate Names(e: Lines, code: string) {
    match e
    case ReceiptLines(lines) => exists i :: 0 <= i < |lines| && lines[i].account == code
    case PaymentLines(lines) => exists i :: 0 <= i < |lines| && lines[i].account == code
    case TransferLines(transfers) => |transfers| > 0 && (transfers[0].fromAccount == code || transfers[0].toAccount == code)
    case GeneralLines(postings) => exists i :: 0 <= i < |postings| && postings[i].account == code
  }

  lemma {:induction false} AmountTotalForUnnamed(lines: seq<AmountLine>, code: string)
    requires forall i :: 0 <= i < |lines| ==> lines[i].account != code
    ensures AmountTotalFor(lines, code) == 0.0
  {
    if lines != [] {
      AmountTotalForUnnamed(lines[..|lines| - 1], code);
    }
  }

  lemma {:induction false} GeneralDeltaForUnnamed(postings: seq<GeneralLine>, code: string, t: AccountType)
    requires forall i :: 0 <= i < |postings| ==> postings[i].account != code
    ensures GeneralDeltaFor(postings, code, t) == 0.0
  {
    if postings != [] {
      GeneralDeltaForUnnamed(postings[..|postings| - 1], code, t);
    }
  }

  /** An account no line names keeps its balance, whatever the entry type. */
  lemma UnnamedUnchanged(e: Lines, code: string, t: AccountType)
    requires !Names(e, code)
    ensures Delta(e, code, t) == 0.0
  {
    match e
    case ReceiptLines(lines) => AmountTotalForUnnamed(lines, code);
    case PaymentLines(lines) => AmountTotalForUnnamed(lines, code);
    case TransferLines(_) =>
    case GeneralLines(postings) => GeneralDeltaForUnnamed(postings, code, t);
  }

  lemma {:induction false} PostAllUnchanged(d: seq<Account>, e: Lines)
    requires forall i :: 0 <= i < |d| ==> Delta(e, d[i].code, d[i].accountType) == 0.0
    ensures PostAll(d, e) == d
  {
    forall i | 0 <= i < |d| ensures PostAll(d, e)[i] == d[i] {
      assert PostAll(d, e)[i] == d[i].(balance := d[i].balance + 0.0);
    }
  }

  lemma {:induction false} DedupFromList(s: seq<Account>)
    ensures forall a :: a in Dedup(s) ==> a in s
  {
    DedupKeepsLastOfEachCode(s);
    LastByCodeFromList(s);
  }

  /**
   * An entry that names none of the accounts (unknown codes only, or no
   * lines at all) changes no record; it only collapses duplicate codes.
   */
  lemma {:induction false} PostedWithoutNames(s: seq<Account>, e: Lines)
    requires forall i :: 0 <= i < |s| ==> !Names(e, s[i].code)
    ensures Posted(s, e) == Dedup(s)
    ensures DistinctCodes(s) ==> Posted(s, e) == s
  {
    var d := Dedup(s);
    DedupFromList(s);
    forall i | 0 <= i < |d| ensures Delta(e, d[i].code, d[i].accountType) == 0.0 {
      assert d[i] in d;
      UnnamedUnchanged(e, d[i].code, d[i].accountType);
    }
    PostAllUnchanged(d, e);
    if DistinctCodes(s) {
      DedupOfDistinct(s);
    }
  }

  // ---------------------------------------------------------------------
  // Transfers

  function TotalBalance(s: seq<Account>): real {
    if s == [] then 0.0 else s[0].balance + TotalBalance(s[1..])
  }

  lemma {:induction false} FirstCodeFresh(d: seq<Account>)
    requires DistinctCodes(d) && d != []
    ensures d[0].code !in Codes(d[1..])
    ensures DistinctCodes(d[1..])
  {
    CodesMembership(d[1..], d[0].code);
    forall i | 0 <= i < |d[1..]| ensures d[1..][i].code != d[0].code {
      assert d[1..][i] == d[i + 1];
    }
  }

  lemma {:induction false} TransferTotals(d: seq<Account>, transfers: seq<TransferLine>)
    requires DistinctCodes(d) && |transfers| > 0
    ensures TotalBalance(PostAll(d, TransferLines(transfers))) ==
              TotalBalance(d)
              + (if transfers[0].toAccount in Codes(d) then transfers[0].amount else 0.0)
              - (if transfers[0].fromAccount in Codes(d) then transfers[0].amount else 0.0)
  {
    if d != [] {
      var e := TransferLines(transfers);
      assert PostAll(d, e)[1..] == PostAll(d[1..], e);
      FirstCodeFresh(d);
      TransferTotals(d[1..], transfers);
    }
  }

  /** A transfer between two existing accounts leaves the total of all balances unchanged. */
  lemma {:induction false} TransferConservesTotal(s: seq<Account>, transfers: seq<TransferLine>)
    requires |transfers| > 0
    requires transfers[0].fromAccount in Codes(s) && transfers[0].toAccount in Codes(s)
    ensures TotalBalance(Posted(s, TransferLines(transfers))) == TotalBalance(Dedup(s))
  {
    DedupKeepsLastOfEachCode(s);
    TransferTotals(Dedup(s), transfers);
  }

  /** A transfer from an account to itself changes nothing. */
  lemma {:induction false} TransferToSelf(s: seq<Account>, transfers: seq<TransferLine>)
    requires |transfers| > 0 && transfers[0].fromAccount == transfers[0].toAccount
    ensures Posted(s, TransferLines(transfers)) == Dedup(s)
  {
    var d := Dedup(s);
    forall i | 0 <= i < |d| ensures Delta(TransferLines(transfers), d[i].code, d[i].accountType) == 0.0 {
    }
    PostAllUnchanged(d, TransferLines(transfers));
  }

  /** Only the first transfer line is read. */
  lemma {:induction false} TransferReadsFirstLineOnly(s: seq<Account>, transfers: seq<TransferLine>)
    requires |transfers| > 0
    ensures Posted(s, TransferLines(transfers)) == Posted(s, TransferLines(transfers[..1]))
  {
    var d := Dedup(s);
    assert transfers[..1][0] == transfers[0];
    forall i | 0 <= i < |d|
      ensures Posted(s, TransferLines(transfers))[i] == Posted(s, TransferLines(transfers[..1]))[i]
    {
    }
  }

  // ---------------------------------------------------------------------
  // The accounting equation

  /** How much the entry moves the equation: each record's change, signed by its type. */
  function SignedShift(d: seq<Account>, e: Lines): real {
    if d == [] then 0.0
    else SignedBalance(d[0].accountType, Delta(e, d[0].code, d[0].accountType)) + SignedShift(d[1..], e)
  }

  lemma {:induction false} SignedSumShift(d: seq<Account>, e: Lines)
    ensures SignedSum(PostAll(d, e)) == SignedSum(d) + SignedShift(d, e)
  {
    if d != [] {
      assert PostAll(d, e)[1..] == PostAll(d[1..], e);
      SignedSumShift(d[1..], e);
      var a := d[0];
      var delta := Delta(e, a.code, a.accountType);
      assert PostAll(d, e)[0] == a.(balance := a.balance + delta);
      assert SignedBalance(a.accountType, a.balance + delta)
             == SignedBalance(a.accountType, a.balance) + SignedBalance(a.accountType, delta);
    }
  }

  function Positive(x: real): real {
    if x > 0.0 then x else 0.0
  }

  /** What a general line adds to the equation: its effective debit minus its effective credit. */
  function Net(l: GeneralLine): real {
    Positive(l.debit) - Positive(l.credit)
  }

  function NetFor(postings: seq<GeneralLine>, code: string): real {
    if postings == [] then 0.0
    else
      var last := postings[|postings| - 1];
      NetFor(postings[..|postings| - 1], code) + (if last.account == code then Net(last) else 0.0)
  }

  function NetIn(postings: seq<GeneralLine>, codes: set<string>): real {
    if postings == [] then 0.0
    else
      var last := postings[|postings| - 1];
      NetIn(postings[..|postings| - 1], codes) + (if last.account in codes then Net(last) else 0.0)
  }

  function NetTotal(postings: seq<GeneralLine>): real {
    if postings == [] then 0.0
    else NetTotal(postings[..|postings| - 1]) + Net(postings[|postings| - 1])
  }

  /** Whatever the account's type among the five, a general line moves the equation by its net. */
  lemma {:induction false} SignedGeneralDelta(postings: seq<GeneralLine>, code: string, t: AccountType)
    requires !t.Other?
    ensures SignedBalance(t, GeneralDeltaFor(postings, code, t)) == NetFor(postings, code)
  {
    if postings != [] {
      SignedGeneralDelta(postings[..|postings| - 1], code, t);
    }
  }

  lemma {:induction false} NetInInsert(postings: seq<GeneralLine>, code: string, codes: set<string>)
    requires code !in codes
    ensures NetIn(postings, codes + {code}) == NetIn(postings, codes) + NetFor(postings, code)
  {
    if postings != [] {
      NetInInsert(postings[..|postings| - 1], code, codes);
    }
  }

  lemma {:induction false} NetInCovering(postings: seq<GeneralLine>, codes: set<string>)
    requires forall i :: 0 <= i < |postings| ==> postings[i].account in codes
    ensures NetIn(postings, codes) == NetTotal(postings)
  {
    if postings != [] {
      NetInCovering(postings[..|postings| - 1], codes);
    }
  }

  lemma {:induction false} NetTotalOfNonNegative(postings: seq<GeneralLine>)
    requires forall i :: 0 <= i < |postings| ==> postings[i].debit >= 0.0 && postings[i].credit >= 0.0
    ensures NetTotal(postings) == TotalDebits(postings) - TotalCredits(postings)
  {
    if postings != [] {
      NetTotalOfNonNegative(postings[..|postings| - 1]);
    }
  }

  lemma {:induction false} NetInNone(postings: seq<GeneralLine>)
    ensures NetIn(postings, {}) == 0.0
  {
    if postings != [] {
      NetInNone(postings[..|postings| - 1]);
    }
  }

  lemma {:induction false} SignedSumPostedGeneral(d: seq<Account>, postings: seq<GeneralLine>)
    requires DistinctCodes(d)
    requires forall i :: 0 <= i < |d| ==> !d[i].accountType.Other?
    ensures SignedSum(PostAll(d, GeneralLines(postings))) == SignedSum(d) + NetIn(postings, Codes(d))
  {
    if d != [] {
      var e := GeneralLines(postings);
      assert PostAll(d, e)[1..] == PostAll(d[1..], e);
      FirstCodeFresh(d);
      SignedSumPostedGeneral(d[1..], postings);
      SignedGeneralDelta(postings, d[0].code, d[0].accountType);
      NetInInsert(postings, d[0].code, Codes(d[1..]));
      assert Codes(d) == Codes(d[1..]) + {d[0].code};
      var a := d[0];
      var delta := GeneralDeltaFor(postings, a.code, a.accountType);
      assert PostAll(d, e)[0] == a.(balance := a.balance + delta);
      assert SignedBalance(a.accountType, a.balance + delta)
             == SignedBalance(a.accountType, a.balance) + SignedBalance(a.accountType, delta);
    } else {
      NetInNone(postings);
    }
  }

  /**
   * A general entry whose every line names an existing account, on a chart
   * whose accounts all have one of the five types, moves
   * A - L - (E + (R - X)) by the sum of its effective debits minus the sum
   * of its effective credits.
   */
  lemma {:induction false} GeneralEntryShiftsEquation(s: seq<Account>, postings: seq<GeneralLine>)
    requires forall i :: 0 <= i < |s| ==> !s[i].accountType.Other?
    requires forall i :: 0 <= i < |postings| ==> postings[i].account in Codes(s)
    ensures Equation(Posted(s, GeneralLines(postings))) == Equation(Dedup(s)) + NetTotal(postings)
  {
    var d := Dedup(s);
    DedupKeepsLastOfEachCode(s);
    DedupFromList(s);
    forall i | 0 <= i < |d| ensures !d[i].accountType.Other? {
      assert d[i] in d;
      var j :| 0 <= j < |s| && s[j] == d[i];
    }
    SignedSumPostedGeneral(d, postings);
    NetInCovering(postings, Codes(d));
    EquationIsSignedSum(Posted(s, GeneralLines(postings)));
    EquationIsSignedSum(d);
  }

  /** The invariant: a balanced general entry with non-negative sides keeps the equation where it was. */
  lemma {:induction false} BalancedEntryPreservesEquation(s: seq<Account>, postings: seq<GeneralLine>)
    requires forall i :: 0 <= i < |s| ==> !s[i].accountType.Other?
    requires forall i :: 0 <= i < |postings| ==> postings[i].account in Codes(s)
    requires forall i :: 0 <= i < |postings| ==> postings[i].debit >= 0.0 && postings[i].credit >= 0.0
    requires TotalDebits(postings) == TotalCredits(postings)
    ensures Equation(Posted(s, GeneralLines(postings))) == Equation(Dedup(s))
    ensures DistinctCodes(s) ==> Equation(Posted(s, GeneralLines(postings))) == Equation(s)
  {
    GeneralEntryShiftsEquation(s, postings);
    NetTotalOfNonNegative(postings);
    if DistinctCodes(s) {
      DedupOfDistinct(s);
    }
  }

  /** What `validateDoubleEntry` lets through moves the equation by less than 0.001. */
  lemma {:induction false} ValidatedEntryKeepsEquationClose(s: seq<Account>, postings: seq<GeneralLine>)
    requires forall i :: 0 <= i < |s| ==> !s[i].accountType.Other?
    requires forall i :: 0 <= i < |postings| ==> postings[i].account in Codes(s)
    requires forall i :: 0 <= i < |postings| ==> postings[i].debit >= 0.0 && postings[i].credit >= 0.0
    requires Abs(TotalDebits(postings) - TotalCredits(postings)) < 0.001
    ensures Abs(Equation(Posted(s, GeneralLines(postings))) - Equation(Dedup(s))) < 0.001
  {
    GeneralEntryShiftsEquation(s, postings);
    NetTotalOfNonNegative(postings);
  }
}
