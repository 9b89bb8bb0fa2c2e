/**
 * The pure parts of assets/js/app.js: the document title of a page, the
 * icon of a notification, and the demo chart of accounts and journal
 * entries the site starts with, used here as test vectors for the ledger.
 */
module App {
  import opened Common
  import opened Text
  import opened Ledger
  import opened Accounts
  import opened LedgerFacts
  import opened Journals

  // ---------------------------------------------------------------------
  // updatePageTitle and getNotificationIcon

  /** A page id none of the title rules recognises. */
  predicate UnrecognisedPage(pageId: string) {
    && pageId != "dashboard" && pageId != "chart-of-accounts"
    && !Contains(pageId, "journal") && pageId != "customers"
    && !Contains(pageId, "travel") && pageId != "tasks" && pageId != "notes"
  }

  /** The title `updatePageTitle` writes: the site name, then the section of the first rule that matches. */
  function PageTitle(pageId: string): (title: string)
    ensures StartsWith(title, "Financial Management")
    ensures title == "Financial Management" <==> UnrecognisedPage(pageId)
    // The rules, tried in order: each applies only when every earlier one failed.
    ensures pageId == "dashboard" ==> title == "Financial Management" + " - Dashboard"
    ensures pageId != "dashboard" && pageId == "chart-of-accounts" ==>
              title == "Financial Management" + " - Chart of Accounts"
    ensures pageId != "dashboard" && pageId != "chart-of-accounts" && Contains(pageId, "journal") ==>
              title == "Financial Management" + " - Journal Entries"
    ensures pageId != "dashboard" && pageId != "chart-of-accounts" && !Contains(pageId, "journal")
            && pageId == "customers" ==>
              title == "Financial Management" + " - Customers"
    ensures pageId != "dashboard" && pageId != "chart-of-accounts" && !Contains(pageId, "journal")
            && pageId != "customers" && Contains(pageId, "travel") ==>
              title == "Financial Management" + " - Travel"
    ensures pageId != "dashboard" && pageId != "chart-of-accounts" && !Contains(pageId, "journal")
            && pageId != "customers" && !Contains(pageId, "travel") && pageId == "tasks" ==>
              title == "Financial Management" + " - Tasks"
    ensures pageId != "dashboard" && pageId != "chart-of-accounts" && !Contains(pageId, "journal")
            && pageId != "customers" && !Contains(pageId, "travel") && pageId != "tasks" && pageId == "notes" ==>
              title == "Financial Management" + " - Notes"
  {
    var title := "Financial Management";
    if pageId == "dashboard" then title + " - Dashboard"
    else if pageId == "chart-of-accounts" then title + " - Chart of Accounts"
    else if Contains(pageId, "journal") then title + " - Journal Entries"
    else if pageId == "customers" then title + " - Customers"
    else if Contains(pageId, "travel") then title + " - Travel"
    else if pageId == "tasks" then title + " - Tasks"
    else if pageId == "notes" then title + " - Notes"
    else title
  }

  /** The journal rule comes before the travel rule. */
  lemma TravelJournalTitle()
    ensures PageTitle("travel-journal") == "Financial Management - Journal Entries"
  {
    assert OccursAt("travel-journal", "journal", 7);
  }

  /** `getNotificationIcon(type)`: three known types, and the info icon for anything else. */
  function NotificationIcon(notificationType: string): (icon: string)
    ensures icon == "check-circle" <==> notificationType == "success"
    ensures icon == "exclamation-triangle" <==> notificationType == "warning"
    ensures icon == "times-circle" <==> notificationType == "error"
    ensures icon == "info-circle" <==> notificationType !in {"success", "warning", "error"}
  {
    if notificationType == "success" then "check-circle"
    else if notificationType == "warning" then "exclamation-triangle"
    else if notificationType == "error" then "times-circle"
    else "info-circle"
  }

  // ---------------------------------------------------------------------
  // The demo data of initializeDemoData

  /** The demo chart; its records carry no description. */
  function DemoAccounts(): seq<Account> {
    [ Account("1110", "Cash", Asset, "", 4580.0),
      Account("1121", "Checking Account", Asset, "", 28450.32),
      Account("1122", "Savings Account", Asset, "", 35620.0),
      Account("1130", "Accounts Receivable", Asset, "", 12380.5),
      Account("2110", "Accounts Payable", Liability, "", 8450.75),
      Account("3100", "Capital", Equity, "", 50000.0),
      Account("4100", "Sales", Revenue, "", 32450.0),
      Account("5100", "Cost of Goods Sold", Expense, "", 18260.0) ]
  }

  function DemoReceipt(): Lines {
    ReceiptLines([AmountLine("1121", "Bank deposit", 12800.0), AmountLine("4100", "Sales revenue", 12800.0)])
  }

  function DemoPayment(): Lines {
    PaymentLines([AmountLine("1110", "Cash payment", 4500.0), AmountLine("5100", "Purchase of supplies", 4500.0)])
  }

  function DemoGeneral(): Lines {
    GeneralLines([GeneralLine("5200", "Depreciation expense", 1200.0, 0.0),
                  GeneralLine("1200", "Accumulated depreciation", 0.0, 1200.0)])
  }

  function DemoTransfer(): Lines {
    TransferLines([TransferLine("1122", "1121", "Fund transfer", 8320.0)])
  }

  /** The demo journal; dates are written as yyyymmdd numbers. */
  function DemoEntries(): seq<JournalEntry> {
    [ JournalEntry("JE-25042501", 20250425, "REC-25042025", "Payment received from Karwan Khalil",
                   "2025-04-25T10:30:45.123Z", DemoReceipt()),
      JournalEntry("JE-25042502", 20250425, "PAY-25042025", "Payment to Raad Aneed for supplies",
                   "2025-04-25T14:15:22.456Z", DemoPayment()),
      JournalEntry("JE-24042503", 20250424, "JNL-24042025", "Monthly depreciation entry",
                   "2025-04-24T16:45:33.789Z", DemoGeneral()),
      JournalEntry("JE-23042504", 20250423, "TRF-23042025", "Transfer from Savings to Checking",
                   "2025-04-23T09:20:11.345Z", DemoTransfer()) ]
  }

  lemma DemoCodesDistinct()
    ensures DistinctCodes(DemoAccounts())
  {
  }

  /** The demo chart itself does not satisfy the accounting equation. */
  lemma DemoChartUnbalanced()
    ensures Equation(DemoAccounts()) == 8390.07
    ensures !Stats(DemoAccounts()).balanced
  {
  }

  /** The demo general entry names 5200 and 1200, which the demo chart lacks: posting it changes nothing. */
  lemma DemoGeneralChangesNothing()
    ensures Posted(DemoAccounts(), DemoGeneral()) == DemoAccounts()
  {
    var s := DemoAccounts();
    var postings := DemoGeneral().postings;
    assert forall i :: 0 <= i < |s| ==> s[i].code[0] != '5' || s[i].code[1] != '2';
    assert forall i :: 0 <= i < |s| ==> s[i].code[0] != '1' || s[i].code[1] != '2';
    forall i | 0 <= i < |s| ensures !Names(DemoGeneral(), s[i].code) {
      forall j | 0 <= j < |postings| ensures postings[j].account != s[i].code {
      }
    }
    DemoCodesDistinct();
    PostedWithoutNames(s, DemoGeneral());
  }

  lemma TwoLineTotal(first: AmountLine, second: AmountLine, code: string)
    ensures AmountTotalFor([first, second], code) ==
              (if first.account == code then first.amount else 0.0) + (if second.account == code then second.amount else 0.0)
  {
    var s := [first, second];
    assert s[..|s| - 1] == [first];
    assert [first][..0] == [];
    assert AmountTotalFor([first], code) == (if first.account == code then first.amount else 0.0);
  }

  lemma DemoReceiptDelta(code: string)
    ensures AmountTotalFor(DemoReceipt().lines, code) ==
              (if code == "1121" then 12800.0 else 0.0) + (if code == "4100" then 12800.0 else 0.0)
  {
    var lines := DemoReceipt().lines;
    TwoLineTotal(lines[0], lines[1], code);
  }

  lemma DemoPaymentDelta(code: string)
    ensures AmountTotalFor(DemoPayment().lines, code) ==
              (if code == "1110" then 4500.0 else 0.0) + (if code == "5100" then 4500.0 else 0.0)
  {
    var lines := DemoPayment().lines;
    TwoLineTotal(lines[0], lines[1], code);
  }

  lemma DemoShift(s: seq<Account>, e: Lines, shift: real)
    requires s == DemoAccounts()
    requires SignedShift(s, e) == shift
    ensures Equation(Posted(s, e)) == Equation(s) + shift
  {
    DemoCodesDistinct();
    DedupOfDistinct(s);
    SignedSumShift(s, e);
    EquationIsSignedSum(s);
    EquationIsSignedSum(Posted(s, e));
  }

  lemma {:induction false} DemoReceiptShift(s: seq<Account>, e: Lines)
    requires s == DemoAccounts() && e == DemoReceipt()
    ensures SignedShift(s, e) == 0.0
  {
    DemoReceiptDelta("1110");
    DemoReceiptDelta("1121");
    DemoReceiptDelta("1122");
    DemoReceiptDelta("1130");
    DemoReceiptDelta("2110");
    DemoReceiptDelta("3100");
    DemoReceiptDelta("4100");
    DemoReceiptDelta("5100");
  }

  lemma {:induction false} DemoPaymentShift(s: seq<Account>, e: Lines)
    requires s == DemoAccounts() && e == DemoPayment()
    ensures SignedShift(s, e) == -9000.0
  {
    DemoPaymentDelta("1110");
    DemoPaymentDelta("1121");
    DemoPaymentDelta("1122");
    DemoPaymentDelta("1130");
    DemoPaymentDelta("2110");
    DemoPaymentDelta("3100");
    DemoPaymentDelta("4100");
    DemoPaymentDelta("5100");
  }

  /** The demo receipt raises Checking (an Asset) and Sales (Revenue) by 12800 each, which keeps the equation. */
  lemma DemoReceiptKeepsEquation(s: seq<Account>, e: Lines)
    requires s == DemoAccounts() && e == DemoReceipt()
    ensures Equation(Posted(s, e)) == Equation(s)
  {
    DemoReceiptShift(s, e);
    DemoShift(s, e, 0.0);
  }

  /** Both lines of the demo payment are subtracted, Cash and an Expense alike, so the equation moves by -9000. */
  lemma DemoPaymentBreaksEquation(s: seq<Account>, e: Lines)
    requires s == DemoAccounts() && e == DemoPayment()
    ensures Equation(Posted(s, e)) == Equation(s) - 9000.0
  {
    DemoPaymentShift(s, e);
    DemoShift(s, e, -9000.0);
  }

  /** The demo transfer takes 8320 from Savings and gives it to Checking. */
  lemma DemoTransferDelta()
    ensures Delta(DemoTransfer(), "1122", Asset) == -8320.0
    ensures Delta(DemoTransfer(), "1121", Asset) == 8320.0
  {
  }

  lemma DemoTransferAccountsOnChart(s: seq<Account>)
    requires s == DemoAccounts()
    ensures "1121" in Codes(s) && "1122" in Codes(s)
  {
    CodesMembership(s, "1121");
    CodesMembership(s, "1122");
    assert s[1].code == "1121";
    assert s[2].code == "1122";
  }

  /** Both ends of the demo transfer are on the demo chart, so the total balance is kept. */
  lemma DemoTransferKeepsTotal(s: seq<Account>, e: Lines)
    requires s == DemoAccounts() && e == DemoTransfer()
    ensures TotalBalance(Posted(s, e)) == TotalBalance(s)
  {
    DemoCodesDistinct();
    DedupOfDistinct(s);
    DemoTransferAccountsOnChart(s);
    TransferConservesTotal(s, e.transfers);
  }

  /** An Asset whose code is a digit string starting with 1 is eligible for the Asset prefix. */
  lemma AssetCodeEligible(a: Account)
    requires a.accountType == Asset && IsDigits(a.code) && a.code[0] == '1'
    ensures Eligible(a, "Asset")
  {
    LeadingDigitPositive(a.code);
    DecimalStringOfCodeValue(a.code);
  }

  lemma FourDigitValue(c: string)
    requires |c| == 4
    ensures CodeValue(c) == DigitValue(c[0]) * 1000 + DigitValue(c[1]) * 100 + DigitValue(c[2]) * 10 + DigitValue(c[3])
  {
    assert c[..3][..2] == c[..2] && c[..2][..1] == c[..1] && c[..1][..0] == [];
    assert CodeValue(c[..1]) == DigitValue(c[0]);
    assert CodeValue(c[..2]) == CodeValue(c[..1]) * 10 + DigitValue(c[1]);
    assert CodeValue(c[..3]) == CodeValue(c[..2]) * 10 + DigitValue(c[2]);
  }

  lemma DemoAssetCodeValues()
    ensures CodeValue("1110") == 1110 && CodeValue("1121") == 1121
    ensures CodeValue("1122") == 1122 && CodeValue("1130") == 1130
  {
    FourDigitValue("1110");
    FourDigitValue("1121");
    FourDigitValue("1122");
    FourDigitValue("1130");
  }

  /** Of the demo chart, the four Asset codes are eligible for the Asset prefix, and 1130 is the highest. */
  lemma DemoEligibleAssets(s: seq<Account>)
    requires s == DemoAccounts()
    ensures s[3] in s && Eligible(s[3], "Asset") && CodeValue(s[3].code) == 1130
    ensures forall a :: a in s && Eligible(a, "Asset") ==> CodeValue(a.code) <= 1130
  {
    DemoAssetCodeValues();
    AssetCodeEligible(s[3]);
  }

  /** Ten above the highest eligible code, when that is 1130. */
  lemma NextAfterHighest(s: seq<Account>, r: Option<nat>)
    requires exists a :: a in s && Eligible(a, "Asset") && CodeValue(a.code) == 1130
    requires forall a :: a in s && Eligible(a, "Asset") ==> CodeValue(a.code) <= 1130
    requires r.Some? && exists a :: a in s && Eligible(a, "Asset") && r.value == CodeValue(a.code) + 10
    requires forall a :: a in s && Eligible(a, "Asset") ==> CodeValue(a.code) + 10 <= r.value
    ensures r == Some(1140)
  {
  }

  /** On the demo chart the next Asset code is 1140, ten above Accounts Receivable. */
  method DemoNextAssetCode(s: seq<Account>) returns (r: Option<nat>)
    requires s == DemoAccounts()
    ensures r == Some(1140)
  {
    DemoEligibleAssets(s);
    r := GenerateAccountCode(s, "Asset");
    NextAfterHighest(s, r);
  }
}
