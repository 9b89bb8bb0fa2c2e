# Bookkeeping core of the financial-management demo

This project models the bookkeeping logic of a browser demo for small-business
accounting. It does not model the demo's DOM and chart code. It covers:

- the chart of accounts: adding, editing and deleting accounts; generating the
  next account code; the per-type totals and the accounting-equation check;
- the journals: receipts, payments, transfers and general entries, each with
  its form validation, storage and listing;
- the ledger engine, `updateAccountBalances`, which posts a journal entry to
  the account balances;
- the double-entry check;
- the small string helpers that turn a URL into a page id, a title or an icon.

Modules:

- `Common`: an option type and the numeric sort `accounts.sort(...)` uses.
- `Text`: the JavaScript string operations the code relies on: `split`, `pop`,
  `includes`, `parseInt` on digit strings and `toString`.
- `Ledger`:
  - accounts, entry lines and the code map;
  - `updateAccountBalances`, written imperatively over a `map` as the source
    does, and proved against the specification `Posted`;
  - `validateDoubleEntry`.
- `LedgerFacts`: what posting does, as lemmas over `Posted`:
  - which balances move, and what stays the same;
  - transfers keep the total;
  - general entries and the accounting equation.
- `Accounts`:
  - the totals and equation of `renderAccountStats`;
  - `getBalanceClass` and `generateAccountCode`;
  - the `AccountStore` class holding the stored `accounts` list, with
    `saveAccount`, `deleteAccount` and posting.
- `Journals`:
  - the journal type and prefix of a page;
  - `validateJournalForm` and `getJournalFormData`;
  - the `JournalStore` class with `saveJournalEntry`;
  - the filter and sort of `loadJournalEntries`;
  - the submit pipeline: validate, check, save, post.
- `Navigation`: `getPageIdFromPath`, `pageExists` and the start page of
  `handleInitialPageLoad`.
- `App`: `updatePageTitle`, `getNotificationIcon`, and the demo data used as
  worked examples.

Amounts are `real`, so the source's tolerances 0.001 and 0.01 are exact
comparisons. Account codes are strings: `CodeValue` is `parseInt` on a digit
string and `DecimalString` is `toString`. Dates are `yyyymmdd` integers. The
browser storage becomes the fields of the two store classes. The clock and
`generateReference` become parameters: the entry id and its timestamp. The
answer of `confirm(...)` also becomes a parameter.

The Assets − Liabilities − Equity − Revenue + Expense equation is proved to
be preserved by a balanced general entry whose sides are non-negative and
whose lines all name stored accounts, when every stored account has one of
the five types. This holds on every chart without repeated codes, and on the
deduplicated chart (the one `updateAccountBalances` returns) otherwise.
On the demo data:

- the demo general entry names 5200 and 1200, which are not on the demo chart,
  so posting it changes nothing;
- the demo receipt keeps the equation;
- the demo payment does not. It subtracts its amount from both the cash
  account and the expense account, so the equation drops by 9000.

## Model

| member | source | states |
|---|---|---|
| Ledger.TypeOf | assets/js/accounts.js:113-120 | a type name is one of the five account types exactly when it is not an unknown name |
| Ledger.TypeNameOfTypeOf | assets/js/accounts.js:113-120 | reading a type name and writing it back gives the same name |
| Ledger.TypeOfTypeName | assets/js/accounts.js:113-120 | writing a type out and reading it back gives the same type, so no two types share a type string |
| Ledger.DebitNormal | assets/js/utils.js:152-163 | the definition of the debit-normal types, Asset and Expense, used by `GeneralEffect` |
| Ledger.LastByCode | assets/js/utils.js:84-87 | the code map has exactly the codes of the list, and each record sits under its own code |
| Ledger.LastByCodeFromList | assets/js/utils.js:84-87 | every record in the code map comes from the list |
| Ledger.LastByCodeSnoc | assets/js/utils.js:84-87 | adding a record to the end of the list overwrites the map entry for its code (the last record wins) |
| Ledger.LastByCodeAt | assets/js/utils.js:84-87 | a record whose code does not occur later in the list is the one the map keeps |
| Ledger.CodesMembership | assets/js/utils.js:84-87 | a code is among the list's codes iff some record carries it |
| Ledger.Dedup | assets/js/utils.js:84-170 | the definition of the accounts `Object.values` of the code map holds: each record whose code does not occur later; `DedupKeepsLastOfEachCode` and `DedupOfDistinct` state what it keeps |
| Ledger.DedupKeepsLastOfEachCode | assets/js/utils.js:84-170 | the deduplicated list has the same codes, no code twice, and each of its records is the one the code map keeps |
| Ledger.DedupOfDistinct | assets/js/utils.js:84-170 | a list without repeated codes comes out of the map unchanged |
| Ledger.AmountTotalFor | assets/js/utils.js:93-121 | the definition of the sum of the amounts of the lines naming a code |
| Ledger.AmountTotalForNonNegative | assets/js/utils.js:93-121 | with no negative amount, no account's total is negative |
| Ledger.TransferDelta | assets/js/utils.js:127-139 | only the first line counts: its target gains the amount, its source loses it, a transfer to itself and an empty entry move nothing, and any other code is not moved |
| Ledger.GeneralEffect | assets/js/utils.js:146-165 | a line with no side > 0 moves nothing; with non-negative sides it moves a debit-normal account by debit − credit and any other account by credit − debit |
| Ledger.GeneralDeltaFor | assets/js/utils.js:142-166 | the definition of the sum of the effects of the general lines naming a code |
| Ledger.Delta | assets/js/utils.js:91-166 | with non-negative amounts a receipt never lowers a balance and a payment never raises one |
| Ledger.Post | assets/js/utils.js:91-166 | posting moves only the balance, by the account's delta; code, name, type and description stay |
| Ledger.Posted | assets/js/utils.js:84-170 | the definition of what `updateAccountBalances` returns: the deduplicated accounts, each posted; `UpdateAccountBalances` and `PostedOnePerCode` prove it |
| Ledger.PostAll | assets/js/utils.js:79-174 | posting keeps the list's length and moves each record by its own delta |
| Ledger.UpdateAccountBalances | assets/js/utils.js:79-174 | the records returned are those of the code map, each with its balance moved by what the entry's lines do to its code |
| Ledger.BuildAccountMap | assets/js/utils.js:84-87 | the loop builds exactly the last-record-per-code map |
| Ledger.LastByCodePrefix | assets/js/utils.js:84-87 | one more record of the list updates the map under its code |
| Ledger.PostReceipt | assets/js/utils.js:91-106 | every account in the map gains the sum of the amounts of the receipt lines naming it, the first line included; unknown codes are skipped |
| Ledger.ReceiptLine | assets/js/utils.js:93-105 | one receipt line adds its amount to the account it names, if that account exists |
| Ledger.ReceiptStep | assets/js/utils.js:93-105 | posting one more receipt line keeps the map equal to the posting of the lines so far |
| Ledger.AmountTotalForPrefix | assets/js/utils.js:91-122 | the per-code total of one more line adds that line's amount when it names the code |
| Ledger.PostPayment | assets/js/utils.js:108-122 | every account in the map loses the sum of the amounts of the payment lines naming it; unknown codes are skipped |
| Ledger.PaymentLine | assets/js/utils.js:110-121 | one payment line subtracts its amount from the account it names, if that account exists |
| Ledger.PaymentStep | assets/js/utils.js:110-121 | posting one more payment line keeps the map equal to the posting of the lines so far |
| Ledger.PostTransfer | assets/js/utils.js:125-140 | only the first transfer line is read; the source loses the amount and the target gains it, each if it exists |
| Ledger.PostGeneral | assets/js/utils.js:142-166 | each general line moves the account it names by debit − credit for Asset and Expense, credit − debit otherwise, ignoring sides not > 0 |
| Ledger.GeneralStep | assets/js/utils.js:146-165 | posting one more general line keeps the map equal to the posting of the lines so far |
| Ledger.GeneralDeltaForPrefix | assets/js/utils.js:142-166 | the per-code general delta of one more line adds that line's effect when it names the code |
| Ledger.MapValues | assets/js/utils.js:170 | the map's values, listed, are the posted deduplicated accounts |
| Ledger.MapValuesStep | assets/js/utils.js:170 | one more record from the back adds its posted map record to the front unless a later record carries its code |
| Ledger.TotalDebits | assets/js/utils.js:188-191 | the definition of the sum of the debits of the general lines |
| Ledger.TotalCredits | assets/js/utils.js:188-191 | the definition of the sum of the credits of the general lines |
| Ledger.ValidateDoubleEntry | assets/js/utils.js:182-199 | true for a general entry iff its debits and credits differ by less than 0.001; true for every other type |
| LedgerFacts.CodesOfPostAll | assets/js/utils.js:79-174 | posting changes no code |
| LedgerFacts.DistinctCount | assets/js/utils.js:170 | a list without repeated codes has as many records as codes |
| LedgerFacts.PostedOnePerCode | assets/js/utils.js:84-170 | the result holds one account per distinct code, each the posted last record for that code |
| LedgerFacts.AmountTotalForCons | assets/js/utils.js:91-106 | the first line counts the same as the rest |
| LedgerFacts.AmountTotalForAppend | assets/js/utils.js:91-122 | the per-code total of two line lists is the sum of their totals |
| LedgerFacts.AmountTotalForUnnamed | assets/js/utils.js:91-122 | lines that never name a code give it a zero total |
| LedgerFacts.GeneralDeltaForUnnamed | assets/js/utils.js:146-147 | general lines that never name a code leave it unchanged |
| LedgerFacts.UnnamedUnchanged | assets/js/utils.js:91-166 | an account no line names is not moved, whatever the entry type |
| LedgerFacts.PostAllUnchanged | assets/js/utils.js:79-174 | when no record is moved, posting returns the list itself |
| LedgerFacts.DedupFromList | assets/js/utils.js:84-170 | every record returned comes from the stored list |
| LedgerFacts.PostedWithoutNames | assets/js/utils.js:91-166 | an entry naming no stored code (an empty one included) leaves every record untouched, only deduplicated |
| LedgerFacts.FirstCodeFresh | assets/js/utils.js:170 | in a list without repeated codes, the first code does not recur |
| LedgerFacts.TransferTotals | assets/js/utils.js:125-140 | a transfer adds its amount to the total if the target exists and subtracts it if the source exists |
| LedgerFacts.TransferConservesTotal | assets/js/utils.js:125-140 | when both accounts exist a transfer keeps the sum of all balances |
| LedgerFacts.TransferToSelf | assets/js/utils.js:125-140 | a transfer from an account to itself changes nothing |
| LedgerFacts.TransferReadsFirstLineOnly | assets/js/utils.js:128-130 | only the first transfer line matters: the rest can be dropped |
| LedgerFacts.SignedSumShift | assets/js/accounts.js:130-140 | posting moves the equation by the signed sum of the per-account deltas |
| LedgerFacts.SignedGeneralDelta | assets/js/utils.js:142-166 | for any of the five types, a general line moves the equation by its effective debit minus its effective credit |
| LedgerFacts.NetInInsert | assets/js/utils.js:142-166 | the net of lines naming a set of codes plus one new code adds that code's net |
| LedgerFacts.NetInCovering | assets/js/utils.js:142-166 | when every line names a code of the set, the set's net is the whole entry's net |
| LedgerFacts.NetTotalOfNonNegative | assets/js/utils.js:142-166 | with non-negative sides the entry's net is total debits minus total credits |
| LedgerFacts.NetInNone | assets/js/utils.js:142-166 | no codes, no net |
| LedgerFacts.SignedSumPostedGeneral | assets/js/utils.js:142-166 | over distinct, typed accounts a general entry moves the equation by the net of the lines naming them |
| LedgerFacts.GeneralEntryShiftsEquation | assets/js/utils.js:142-166 | when every line names a stored account, a general entry moves A − L − E − R + X by its net |
| LedgerFacts.BalancedEntryPreservesEquation | assets/js/utils.js:142-166 | a general entry with non-negative sides, equal totals and only known, typed accounts preserves A − L − E − R + X |
| LedgerFacts.ValidatedEntryKeepsEquationClose | assets/js/utils.js:194 | an entry passing the 0.001 check moves the equation by less than 0.001 |
| Accounts.BalanceClass | assets/js/accounts.js:96-105 | "positive" iff the balance is ≥ 0, whatever the type, and "negative" otherwise |
| Accounts.TypeTotal | assets/js/accounts.js:113-120 | the sum of the balances of the accounts of one type, the `reduce` by type string, 0 for a type no account has |
| Accounts.SignedBalance | assets/js/accounts.js:130-140 | the equation's sign convention, which `EquationIsSignedSum` proves: + for Asset and Expense, − for Liability, Equity and Revenue, 0 for an unknown type |
| Accounts.Equation | assets/js/accounts.js:130-140 | assets − liabilities − (equity + (revenue − expense)) over the per-type totals |
| Accounts.TypeTotalOfAbsentType | assets/js/accounts.js:113-120 | a type no account has totals 0 |
| Accounts.EquationIsSignedSum | assets/js/accounts.js:130-140 | A − L − (E + (R − X)) is the sum of the balances, + for Asset and Expense and − for the other three |
| Accounts.Stats | assets/js/accounts.js:111-153 | the reported equation is A − L − (E + (R − X)), balanced iff its absolute value is below 0.01 |
| Accounts.CodePrefix | assets/js/accounts.js:490-506 | a one-digit prefix exactly for the five known types: Asset 1, Liability 2, Equity 3, Revenue 4, Expense 5; the empty prefix for any other type |
| Accounts.PrefixedDefault | assets/js/accounts.js:519 | the first code of a prefix p is p·1000 + 100 |
| Accounts.DefaultCodes | assets/js/accounts.js:490-519 | Asset 1100, Liability 2100, Equity 3100, Revenue 4100, Expense 5100 |
| Accounts.OfType | assets/js/accounts.js:485 | exactly the accounts of the requested type, as a set |
| Accounts.Eligible | assets/js/accounts.js:512-513 | the definition `HighestEligibleCode` and `GenerateAccountCode` are proved against: an account of the type whose numeric code, written back, starts with the type's prefix |
| Accounts.DefaultCode | assets/js/accounts.js:519 | the definition of the first code of a type, `prefix + "100"` read as a number; `DefaultCodes` gives its five values |
| Accounts.HighestEligibleCode | assets/js/accounts.js:509-516 | the loop finds the highest code starting with the prefix, or 0 when there is none |
| Accounts.GenerateAccountCode | assets/js/accounts.js:474-526 | none for an empty type; the prefix's first code when no code of the type carries the prefix; otherwise the highest such code + 10, above every such code by at least 10 |
| Accounts.FirstIndexOf | assets/js/accounts.js:637 | the index of the first account with the code, or −1 when there is none |
| Accounts.SaveCheck | assets/js/accounts.js:542-560 | rejects a missing type, code or name; then a code that is not all digits; then, in add mode only, a code already present |
| Accounts.AccountStore.SaveAccount | assets/js/accounts.js:531-602 | a rejected form leaves the list unchanged; add appends exactly one account; edit replaces the first record with the original code but keeps its balance, and replaces nothing when that code is missing; the saved list is sorted by numeric code |
| Accounts.AccountStore.DeleteAccount | assets/js/accounts.js:627-664 | nothing changes when the delete is cancelled, the code is unknown or the balance is nonzero; otherwise exactly the first matching record is removed: the list is one shorter and holds the same records less that one |
| Accounts.AccountStore.PostEntry | assets/js/utils.js:79-174 | the stored list becomes the posted list |
| Accounts.DeleteRemovesOne | assets/js/accounts.js:651 | removing one record by index leaves the others and shortens the list by one |
| Journals.JournalTypeFromPageId | assets/js/journals.js:50-60 | first match of receipt, payment, transfer in the page id, otherwise general |
| Journals.JournalPrefix | assets/js/journals.js:62-70 | REC, PAY and TRF for their types, JNL for general and any other name |
| Journals.PagePrefix | assets/js/journals.js:50-70 | a page gets the JNL prefix iff its id names none of receipt, payment, transfer |
| Journals.NumberOrZero | assets/js/journals.js:437-438 | an empty number input reads as 0 |
| Journals.LineRuleOk | assets/js/journals.js:355-373 | a general row has not both sides > 0 and not both sides = 0, empty inputs counting as 0 |
| Journals.FormAccepts | assets/js/journals.js:305-386 | at least one row, every required field filled, and for a general journal the line rule on every row and debits within 0.001 of credits |
| Journals.ValidateJournalForm | assets/js/journals.js:305-386 | accepts iff there is a row, every required field is filled and, for a general journal, no row has both sides > 0 or both sides = 0, and debits are within 0.001 of credits |
| Journals.CollectAmountLines | assets/js/journals.js:388-444 | one receipt or payment line per row, with an empty amount as 0 |
| Journals.CollectTransferLines | assets/js/journals.js:388-444 | one transfer line per row, with an empty amount as 0 |
| Journals.CollectGeneralLines | assets/js/journals.js:427-441 | one general line per row, with an empty debit or credit as 0 |
| Journals.CollectLines | assets/js/journals.js:388-444 | the collected entry has the form's journal type |
| Journals.CollectedTotals | assets/js/journals.js:437-438 | the collected debits and credits are the totals the form check added up |
| Journals.SubmitGate | assets/js/journals.js:249-260 | for an accepted general form, the double-entry check passes iff the difference is below 0.001 |
| Journals.BoundaryFormIsRejected | assets/js/journals.js:378 | a difference of exactly 0.001 passes the form check but fails the double-entry check |
| Journals.FilterByType | assets/js/journals.js:469 | each stored entry of the type, as often as it is stored, and nothing else |
| Journals.ListByType | assets/js/journals.js:464-479 | exactly the stored entries of the type, newest date first |
| Journals.JournalStore.SaveJournalEntry | assets/js/journals.js:446-461 | appends exactly one entry, with the given id and timestamp, after the earlier ones |
| Journals.Submit | assets/js/journals.js:249-266 | form check, then double-entry check, then save, then post; a failed check saves and posts nothing; an accepted submit appends exactly the entry with the given id and timestamp, the form's date, reference and description and the collected lines, and posts those lines |
| Journals.SaveAndPost | assets/js/journals.js:262-266 | the entry saved is the form's, stamped with the given id and timestamp, appended after the earlier entries, and the stored accounts become the posted accounts |
| Navigation.BaseName | assets/js/navigation.js:176 | the path before its first '.' and then before its first '?' |
| Navigation.PageIdFromPath | assets/js/navigation.js:174-193 | "dashboard" for index or an empty base name; the base name for a path without '/'; paths with a '/' are `SlashPageId` and `DeepPageId` |
| Navigation.CutAtFirst | assets/js/navigation.js:176 | cutting at the first separator keeps what precedes it |
| Navigation.BeforeFirstAbsent | assets/js/navigation.js:176 | cutting at an absent separator keeps the whole string |
| Navigation.TopLevelPageId | assets/js/navigation.js:174-193 | `name.ext` or `name?query` at the top level is the page `name` |
| Navigation.SlashPageId | assets/js/navigation.js:174-193 | `section/page.ext` is the page `section-page` whenever its base name is neither "" nor "index": "/customers.html" is "-customers" and "a.b/c.html" is "a.b-c" |
| Navigation.DeepPageId | assets/js/navigation.js:174-193 | `dirs/section/page.ext` is the page `section-page` whatever the directories before it: "a/b/c.html" is "b-c" |
| Navigation.PageOfFile | assets/js/navigation.js:189 | cutting `page.ext` at its first '.' gives `page` |
| Navigation.NestedPageId | assets/js/navigation.js:184-190 | `section/page.ext` is the page `section-page` for a directory name without '.' or '?' |
| Navigation.NestedSplit | assets/js/navigation.js:185 | `section/tail` splits into its two segments |
| Navigation.NestedBaseName | assets/js/navigation.js:176-181 | a nested path never has the base name "" or "index" |
| Navigation.PageExists | assets/js/navigation.js:89-98 | false iff the last '/' segment is customers.html, notes.html or tasks.html |
| Navigation.PageExistsByFileName | assets/js/navigation.js:94 | only the file name decides, whatever the directory |
| Navigation.InitialPageId | assets/js/navigation.js:157-167 | the page id of the last URL segment, "dashboard" when it is empty |
| App.PageTitle | assets/js/app.js:291-311 | the first matching rule of the cascade decides, in order: dashboard, chart-of-accounts, a page id containing "journal", customers, travel, tasks, notes; the title is "Financial Management - " and that section's name, and exactly "Financial Management" when no rule matches |
| App.TravelJournalTitle | assets/js/app.js:298-303 | the cascade tests "journal" before "travel" |
| App.NotificationIcon | assets/js/app.js:419-431 | check-circle, exclamation-triangle and times-circle for success, warning and error; info-circle for anything else |
| App.DemoAccounts | assets/js/app.js:190-199 | the eight demo accounts with their codes, types and balances |
| App.DemoReceipt | assets/js/app.js:213-216 | the demo receipt: 12800 to 1121 and 12800 to 4100 |
| App.DemoPayment | assets/js/app.js:225-228 | the demo payment: 4500 from 1110 and 4500 from 5100 |
| App.DemoGeneral | assets/js/app.js:237-240 | the demo general entry: debit 1200 on 5200, credit 1200 on 1200 |
| App.DemoTransfer | assets/js/app.js:249-251 | the demo transfer: 8320 from 1122 to 1121 |
| App.DemoEntries | assets/js/app.js:205-253 | the four demo journal entries with their ids, dates, references, descriptions and timestamps |
| App.DemoCodesDistinct | assets/js/app.js:190-199 | the demo chart has no repeated code |
| App.DemoChartUnbalanced | assets/js/app.js:190-199 | the demo chart's equation is 8390.07, so it is reported unbalanced |
| App.DemoGeneralChangesNothing | assets/js/app.js:190-240 | the demo general entry names 5200 and 1200, which are not on the chart, so posting it changes nothing |
| App.TwoLineTotal | assets/js/utils.js:91-122 | the per-code total of two lines |
| App.DemoReceiptDelta | assets/js/app.js:213-216 | the demo receipt adds 12800 to 1121 and to 4100 |
| App.DemoPaymentDelta | assets/js/app.js:225-228 | the demo payment subtracts 4500 from 1110 and from 5100 |
| App.DemoShift | assets/js/accounts.js:130-140 | on the demo chart, posting moves the equation by the signed sum of the deltas |
| App.DemoReceiptShift | assets/js/app.js:213-216 | the demo receipt's signed deltas cancel out |
| App.DemoPaymentShift | assets/js/app.js:225-228 | the demo payment's signed deltas sum to −9000 |
| App.DemoReceiptKeepsEquation | assets/js/app.js:213-216 | posting the demo receipt keeps the equation |
| App.DemoPaymentBreaksEquation | assets/js/app.js:225-228 | posting the demo payment lowers the equation by 9000: both the cash and the expense line are subtracted |
| App.DemoTransferDelta | assets/js/app.js:249-250 | the demo transfer moves 8320 from 1122 to 1121 |
| App.DemoTransferAccountsOnChart | assets/js/app.js:190-250 | both accounts of the demo transfer are on the chart |
| App.DemoTransferKeepsTotal | assets/js/app.js:249-250 | posting the demo transfer keeps the sum of the balances |
| App.AssetCodeEligible | assets/js/accounts.js:512-513 | an asset code that starts with 1 counts towards the next asset code |
| App.FourDigitValue | assets/js/accounts.js:512 | what `parseInt(account.code)` reads from a four-digit demo code, digit by digit |
| App.DemoAssetCodeValues | assets/js/app.js:191-194 | `parseInt` of the four demo asset codes, as the highest-code loop of `generateAccountCode` reads them |
| App.DemoEligibleAssets | assets/js/app.js:190-199 | 1130 is the highest demo asset code |
| App.NextAfterHighest | assets/js/accounts.js:519 | `highestCode + 10` once 1130 is the highest eligible code: the generated code is 1140 |
| App.DemoNextAssetCode | assets/js/accounts.js:474-526 | on the demo chart the next asset code is 1140 |
| Text.IndexOf | assets/js/navigation.js:176 | the position of the first occurrence, or the length when there is none |
| Text.BeforeFirst | assets/js/navigation.js:176 | a prefix without the separator, ending just before its first occurrence |
| Text.Split | assets/js/navigation.js:185 | at least one part, exactly one iff the separator is absent, and no part contains it |
| Text.JoinSplit | assets/js/navigation.js:185 | joining the parts with the separator gives back the string |
| Text.SplitAtFirst | assets/js/navigation.js:184-186 | splitting peels off the text before the first separator |
| Text.SplitAppend | assets/js/navigation.js:185 | splitting `a c b` at `c` gives the parts of `a` followed by the parts of `b` |
| Text.SplitAppendLater | assets/js/navigation.js:185 | the inductive step of `SplitAppend`: when `a` holds the separator, both splits peel off the text before it |
| Text.JoinSplitStep | assets/js/navigation.js:185 | the inductive step of `JoinSplit`: joining puts back the first separator |
| Text.SplitAppendFirst | assets/js/navigation.js:185 | splitting `a c b` at `c` gives `a` and the parts of `b` when `a` holds no separator |
| Text.SplitStep | assets/js/navigation.js:185 | split peels off the text before the first separator |
| Text.JoinCons | assets/js/navigation.js:185 | joining a part in front adds it and one separator |
| Text.LastSegment | assets/js/navigation.js:94 | `split(c).pop()` contains no separator |
| Text.LastSegmentIsSuffix | assets/js/navigation.js:94 | the last segment is a suffix of the string, preceded by the separator when it is not the whole string |
| Text.LastSegmentAfter | assets/js/navigation.js:94 | the last segment of `prefix c t` is `t` when `t` has no separator |
| Text.LastSegmentWhole | assets/js/navigation.js:94 | a string without the separator is its own last segment |
| Text.StartsWith | assets/js/accounts.js:513 | `startsWith`: the prefix is the first part of the string |
| Text.Contains | assets/js/journals.js:51-55 | `includes` holds iff the text occurs at some position |
| Text.IsDigits | assets/js/accounts.js:548 | the `/^\d+$/` test: a non-empty string of decimal digits |
| Text.CodeValue | assets/js/accounts.js:512 | `parseInt` of a digit string: its decimal value; `DecimalString` inverts it (`CodeValueOfDecimalString`) |
| Text.DecimalString | assets/js/accounts.js:513 | `toString` of a number is a non-empty digit string |
| Text.CodeValueOfDecimalString | assets/js/accounts.js:512-513 | `parseInt(n.toString())` is n |
| Text.LeadingDigitPositive | assets/js/accounts.js:512-513 | a digit string without a leading zero has a positive value |
| Text.DigitCharOfValue | assets/js/accounts.js:513 | a digit's value written back is the digit |
| Text.DecimalStringOfCodeValue | assets/js/accounts.js:512-513 | `parseInt(s).toString()` is s for a digit string without a leading zero |
| Common.SortBy | assets/js/accounts.js:589 | the result is sorted by the key and holds the same elements |
| Common.InsertKeepsSorted | assets/js/accounts.js:589 | inserting at the right place keeps the list sorted |
| Common.InsertAddsOne | assets/js/accounts.js:589 | inserting adds exactly that element |

## Left out

- The DOM is not modelled: element queries, templates, modals, the row filters, dropdown population, event listeners, `alert` and notifications. The form inputs become a `JournalForm` or `AccountForm` value, and the answer of `confirm` becomes a parameter of `DeleteAccount`.
- Journals.Submit: requires WellShaped, that is, every row of a journal form is assumed to carry the inputs of its journal type, because the HTML is not modelled. An input's `optional` class becomes a flag.
- Storage through `localStorage` and JSON, with its swallowed exceptions, is not modelled: the stored lists are the fields of `AccountStore` and `JournalStore`.
- `formatCurrency` (Intl), `formatDate` (locale) and the `Date` parsing of journal dates are not modelled. Dates are `yyyymmdd` integers compared as numbers.
- `generateReference` and `new Date().toISOString()` (clock and randomness) are not modelled: the entry id and timestamp are parameters of `SaveJournalEntry` and `Submit`.
- IEEE-754 rounding is not modelled: amounts are exact reals, so the 0.001 and 0.01 tolerances are exact comparisons.
- `parseInt` and `Number` on text that is not all digits (NaN) are not modelled: `CodeValue` reads a digit string. `saveAccount` rejects a code that is not all digits in both add and edit mode (`SaveCheck`), so only codes already stored, such as those of the demo chart, are assumed to be digits.
- `parseFloat` of the opening balance is not modelled: the form carries the balance as a number.
- `validateDoubleEntry`'s `|| 0` for a line missing a side is not modelled, because lines always carry numbers: `getJournalFormData` has already turned an empty input into 0 (`NumberOrZero`).
- Ledger.UpdateAccountBalances: `Object.values` lists the keys that are canonical array indices (digit strings without a leading zero, below 2³²−1) first, in ascending numeric order, and every other key, such as "0110", in insertion order. The model lists the records in the order of their last occurrence (`Dedup`). The records and balances are the same; only their order can differ.
- Ledger.UpdateAccountBalances: JavaScript edits the stored account objects through the map's references. The model returns the updated records as new values; no aliasing is modelled.
- Common.SortBy: the sort is proved to give a sorted permutation. Its stability, which `Array.prototype.sort` guarantees, is not stated.
- Journals.ListByType: entries with the same date may come out in a different order than the stable `sort` gives; the contract states only the contents and newest-first order.
- Rendering the journal list, the account table and the account statistics cards is view code and is not modelled. Resetting the form after a submit and the notifications are not modelled either.
- `dashboard.js`, the app settings, notification timers and event dispatch, and the sidebar and dropdown toggles of `navigation.js` are not modelled: they hold no bookkeeping logic.
- `Navigation.InitialPageId` takes the URL as a parameter instead of reading `window.location`, and returns the page id instead of dispatching an event.
- `App.PageTitle` returns the title instead of writing `document.title`.
