/**
 * The journal pages of assets/js/journals.js: which journal a page shows,
 * the reference prefix, the checks of the entry form, the lines collected
 * from it, the stored journal, the per-type listing and the submit order.
 */
module Journals {
  import opened Common
  import opened Text
  import opened Ledger
  import opened Accounts

  // ---------------------------------------------------------------------
  // getJournalTypeFromPageId and getJournalPrefix

  /** The first of "receipt", "payment", "transfer" the page id contains; general otherwise. */
  function JournalTypeFromPageId(pageId: string): (t: JournalType)
    ensures t == Receipt <==> Contains(pageId, "receipt")
    ensures t == Payment <==> !Contains(pageId, "receipt") && Contains(pageId, "payment")
    ensures t == Transfer <==> !Contains(pageId, "receipt") && !Contains(pageId, "payment") && Contains(pageId, "transfer")
  {
    if Contains(pageId, "receipt") then Receipt
    else if Contains(pageId, "payment") then Payment
    else if Contains(pageId, "transfer") then Transfer
    else General
  }

  /** The name the source uses for a journal type. */
  function JournalTypeName(t: JournalType): string {
    match t
    case Receipt => "receipt"
    case Payment => "payment"
    case Transfer => "transfer"
    case General => "general"
  }

  /** The reference prefix of a journal type name; "JNL" for "general" and for any unknown name. */
  function JournalPrefix(journalType: string): (p: string)
    ensures p == "REC" <==> journalType == "receipt"
    ensures p == "PAY" <==> journalType == "payment"
    ensures p == "TRF" <==> journalType == "transfer"
    ensures p == "JNL" <==> journalType !in {"receipt", "payment", "transfer"}
  {
    if journalType == "receipt" then "REC"
    else if journalType == "payment" then "PAY"
    else if journalType == "transfer" then "TRF"
    else if journalType == "general" then "JNL"
    else "JNL"
  }

  /** A page whose id names none of the three special journals gets general references. */
  lemma PagePrefix(pageId: string)
    ensures JournalPrefix(JournalTypeName(JournalTypeFromPageId(pageId))) == "JNL" <==>
              !Contains(pageId, "receipt") && !Contains(pageId, "payment") && !Contains(pageId, "transfer")
  {
  }

  // ---------------------------------------------------------------------
  // The entry form

  /** A text input: its value ("" when empty) and whether it carries the `optional` class. */
  datatype TextInput = TextInput(text: string, optional: bool)

  /** A number input: its value (None when empty) and whether it carries the `optional` class. */
  datatype NumberInput = NumberInput(number: Option<real>, optional: bool)

  /** One `.journal-entry` row of a form; the selects hold account codes, "" when none is chosen. */
  datatype FormRow =
    | AmountRow(account: string, description: TextInput, amount: NumberInput)
    | TransferRow(fromAccount: string, toAccount: string, description: TextInput, amount: NumberInput)
    | GeneralRow(account: string, description: TextInput, debit: NumberInput, credit: NumberInput)

  /** The form of one journal page. */
  datatype JournalForm = JournalForm(journalType: JournalType, date: int, reference: string,
                                     description: string, rows: seq<FormRow>)

  /** Each page holds rows of its own kind only. */
  predicate WellShaped(form: JournalForm) {
    match form.journalType
    case Receipt => forall i :: 0 <= i < |form.rows| ==> form.rows[i].AmountRow?
    case Payment => forall i :: 0 <= i < |form.rows| ==> form.rows[i].AmountRow?
    case Transfer => forall i :: 0 <= i < |form.rows| ==> form.rows[i].TransferRow?
    case General => forall i :: 0 <= i < |form.rows| ==> form.rows[i].GeneralRow?
  }

  predicate TextFilled(i: TextInput) {
    i.text != "" || i.optional
  }

  predicate NumberFilled(i: NumberInput) {
    i.number.Some? || i.optional
  }

  /** Every select of the row has a value and every input has one unless it is optional. */
  predicate RowFilled(r: FormRow) {
    match r
    case AmountRow(account, description, amount) =>
      account != "" && TextFilled(description) && NumberFilled(amount)
    case TransferRow(fromAccount, toAccount, description, amount) =>
      fromAccount != "" && toAccount != "" && TextFilled(description) && NumberFilled(amount)
    case GeneralRow(account, description, debit, credit) =>
      account != "" && TextFilled(description) && NumberFilled(debit) && NumberFilled(credit)
  }

  /** `Number(input.value || 0)`: an empty input reads as zero. */
  function NumberOrZero(i: NumberInput): (x: real)
    ensures i.number.None? ==> x == 0.0
    ensures i.number.Some? ==> x == i.number.value
  {
    match i.number
    case None => 0.0
    case Some(x) => x
  }

  /** A general line is refused when both sides are > 0 or both are = 0; any other pair of sides, a negative one included, passes. */
  predicate LineRuleOk(r: FormRow) {
    r.GeneralRow? ==>
      var debit := NumberOrZero(r.debit);
      var credit := NumberOrZero(r.credit);
      !(debit > 0.0 && credit > 0.0) && !(debit == 0.0 && credit == 0.0)
  }

  /** The debits of the general rows of `rows`, empty inputs counting as zero. */
  function FormDebits(rows: seq<FormRow>): real {
    if rows == [] then 0.0
    else
      var r := rows[|rows| - 1];
      FormDebits(rows[..|rows| - 1]) + (if r.GeneralRow? then NumberOrZero(r.debit) else 0.0)
  }

  function FormCredits(rows: seq<FormRow>): real {
    if rows == [] then 0.0
    else
      var r := rows[|rows| - 1];
      FormCredits(rows[..|rows| - 1]) + (if r.GeneralRow? then NumberOrZero(r.credit) else 0.0)
  }

  /** What `validateJournalForm` accepts. */
  predicate FormAccepts(form: JournalForm) {
    && |form.rows| > 0
    && (forall i :: 0 <= i < |form.rows| ==> RowFilled(form.rows[i]))
    && (form.journalType == General ==>
          && (forall i :: 0 <= i < |form.rows| ==> LineRuleOk(form.rows[i]))
          && Abs(FormDebits(form.rows) - FormCredits(form.rows)) <= 0.001)
  }

  /**
   * `validateJournalForm(journalType)`: at least one row, every required
   * field filled, and for a general journal the line rule on every row and
   * debits within 0.001 of credits.
   */
  method ValidateJournalForm(form: JournalForm) returns (ok: bool)
    ensures ok == FormAccepts(form)
  {
    var rows := form.rows;
    if |rows| == 0 {
      return false;
    }
    var isValid := true;
    var i := 0;
    while i < |rows|
      invariant 0 <= i <= |rows|
      invariant isValid <==> forall j :: 0 <= j < i ==> RowFilled(rows[j])
    {
      if !RowFilled(rows[i]) {
        isValid := false;
      }
      i := i + 1;
    }
    if !isValid {
      return false;
    }
    if form.journalType == General {
      var totalDebits := 0.0;
      var totalCredits := 0.0;
      i := 0;
      while i < |rows|
        invariant 0 <= i <= |rows|
        invariant totalDebits == FormDebits(rows[..i])
        invariant totalCredits == FormCredits(rows[..i])
        invariant isValid <==> forall j :: 0 <= j < i ==> LineRuleOk(rows[j])
      {
        assert rows[..i + 1][..i] == rows[..i];
        if rows[i].GeneralRow? {
          var debit := NumberOrZero(rows[i].debit);
          var credit := NumberOrZero(rows[i].credit);
          totalDebits := totalDebits + debit;
          totalCredits := totalCredits + credit;
          if debit > 0.0 && credit > 0.0 {
            isValid := false;
          }
          if debit == 0.0 && credit == 0.0 {
            isValid := false;
          }
        }
        i := i + 1;
      }
      assert rows[..i] == rows;
      if Abs(totalDebits - totalCredits) > 0.001 {
        return false;
      }
    }
    return isValid;
  }

  // ---------------------------------------------------------------------
  // getJournalFormData

  function CollectAmountLines(rows: seq<FormRow>): (lines: seq<AmountLine>)
    requires forall i :: 0 <= i < |rows| ==> rows[i].AmountRow?
    ensures |lines| == |rows|
    ensures forall i :: 0 <= i < |rows| ==>
              lines[i] == AmountLine(rows[i].account, rows[i].description.text, NumberOrZero(rows[i].amount))
  {
    if rows == [] then []
    else [AmountLine(rows[0].account, rows[0].description.text, NumberOrZero(rows[0].amount))] + CollectAmountLines(rows[1..])
  }

  function CollectTransferLines(rows: seq<FormRow>): (lines: seq<TransferLine>)
    requires forall i :: 0 <= i < |rows| ==> rows[i].TransferRow?
    ensures |lines| == |rows|
    ensures forall i :: 0 <= i < |rows| ==>
              lines[i] == TransferLine(rows[i].fromAccount, rows[i].toAccount, rows[i].description.text, NumberOrZero(rows[i].amount))
  {
    if rows == [] then []
    else [TransferLine(rows[0].fromAccount, rows[0].toAccount, rows[0].description.text, NumberOrZero(rows[0].amount))]
         + CollectTransferLines(rows[1..])
  }

  function CollectGeneralLines(rows: seq<FormRow>): (lines: seq<GeneralLine>)
    requires forall i :: 0 <= i < |rows| ==> rows[i].GeneralRow?
    ensures |lines| == |rows|
    ensures forall i :: 0 <= i < |rows| ==>
              lines[i] == GeneralLine(rows[i].account, rows[i].description.text, NumberOrZero(rows[i].debit), NumberOrZero(rows[i].credit))
  {
    if rows == [] then []
    else [GeneralLine(rows[0].account, rows[0].description.text, NumberOrZero(rows[0].debit), NumberOrZero(rows[0].credit))]
         + CollectGeneralLines(rows[1..])
  }

  /** The `entries` of `getJournalFormData`, one line per row, of the page's kind. */
  function CollectLines(form: JournalForm): (e: Lines)
    requires WellShaped(form)
    ensures e.Kind() == form.journalType
  {
    match form.journalType
    case Receipt => ReceiptLines(CollectAmountLines(form.rows))
    case Payment => PaymentLines(CollectAmountLines(form.rows))
    case Transfer => TransferLines(CollectTransferLines(form.rows))
    case General => GeneralLines(CollectGeneralLines(form.rows))
  }

  /** The totals the form shows are the totals `validateDoubleEntry` computes on the collected lines. */
  lemma {:induction false} CollectedTotals(rows: seq<FormRow>)
    requires forall i :: 0 <= i < |rows| ==> rows[i].GeneralRow?
    ensures TotalDebits(CollectGeneralLines(rows)) == FormDebits(rows)
    ensures TotalCredits(CollectGeneralLines(rows)) == FormCredits(rows)
  {
    if rows != [] {
      var n := |rows| - 1;
      CollectedTotals(rows[..n]);
      assert CollectGeneralLines(rows)[..n] == CollectGeneralLines(rows[..n]);
    }
  }

  /**
   * The two balance tests differ only at the boundary: a general form that
   * passes the form check also passes `validateDoubleEntry` exactly when its
   * debits and credits differ by less than 0.001.
   */
  lemma SubmitGate(form: JournalForm)
    requires WellShaped(form) && form.journalType == General && FormAccepts(form)
    ensures Abs(TotalDebits(CollectLines(form).postings) - TotalCredits(CollectLines(form).postings)) < 0.001
            <==> Abs(FormDebits(form.rows) - FormCredits(form.rows)) < 0.001
  {
    var postings := CollectLines(form).postings;
    assert postings == CollectGeneralLines(form.rows);
    CollectedTotals(form.rows);
    assert TotalDebits(postings) - TotalCredits(postings) == FormDebits(form.rows) - FormCredits(form.rows);
  }

  /** A one-line general form debiting 0.001: the form check lets it through, `validateDoubleEntry` does not. */
  function BoundaryForm(): JournalForm {
    JournalForm(General, 0, "JNL-1", "", [GeneralRow("1110", TextInput("", true),
                                                      NumberInput(Some(0.001), false), NumberInput(Some(0.0), false))])
  }

  lemma BoundaryFormIsRejected()
    ensures WellShaped(BoundaryForm()) && FormAccepts(BoundaryForm())
    ensures !(Abs(TotalDebits(CollectLines(BoundaryForm()).postings) - TotalCredits(CollectLines(BoundaryForm()).postings)) < 0.001)
  {
    var rows := BoundaryForm().rows;
    assert rows[..0] == [];
    assert FormDebits(rows) == 0.001 && FormCredits(rows) == 0.0;
    CollectedTotals(rows);
  }

  // ---------------------------------------------------------------------
  // The stored journal

  /** A saved journal entry; its type is the kind of its lines. */
  datatype JournalEntry = JournalEntry(id: string, date: int, reference: string, description: string,
                                       timestamp: string, lines: Lines)

  /** `allEntries.filter(entry => entry.type === journalType)`. */
  function FilterByType(s: seq<JournalEntry>, t: JournalType): (r: seq<JournalEntry>)
    ensures forall x :: multiset(r)[x] == if x.lines.Kind() == t then multiset(s)[x] else 0
  {
    if s == [] then []
    else
      var rest := FilterByType(s[1..], t);
      assert s == [s[0]] + s[1..];
      if s[0].lines.Kind() == t then [s[0]] + rest else rest
  }

  function NewestFirst(e: JournalEntry): int {
    -e.date
  }

  /**
   * The list `loadJournalEntries` renders: the stored entries of the type,
   * each as often as it is stored, newest date first.
   */
  method ListByType(entries: seq<JournalEntry>, t: JournalType) returns (r: seq<JournalEntry>)
    ensures forall x :: multiset(r)[x] == if x.lines.Kind() == t then multiset(entries)[x] else 0
    ensures forall i, j :: 0 <= i < j < |r| ==> r[i].date >= r[j].date
  {
    var filtered := FilterByType(entries, t);
    r := SortBy(filtered, NewestFirst);
    assert forall i, j :: 0 <= i < j < |r| ==> NewestFirst(r[i]) <= NewestFirst(r[j]);
  }

  /** The stored `journalEntries` list. */
  class JournalStore {
    var entries: seq<JournalEntry>

    constructor (initial: seq<JournalEntry>)
      ensures entries == initial
    {
      entries := initial;
    }

    /** `saveJournalEntry`: stamps the form data with an id and a time and appends it. */
    method SaveJournalEntry(form: JournalForm, lines: Lines, id: string, timestamp: string) returns (saved: JournalEntry)
      modifies this
      ensures saved == JournalEntry(id, form.date, form.reference, form.description, timestamp, lines)
      ensures entries == old(entries) + [saved]
    {
      saved := JournalEntry(id, form.date, form.reference, form.description, timestamp, lines);
      entries := entries + [saved];
    }
  }

  datatype SubmitOutcome = FormRejected | Unbalanced | Accepted(entry: JournalEntry)

  /**
   * The submit handler: the form check, then the double-entry check on the
   * collected lines, then save, then post. A failed check saves and posts nothing.
   */
  method Submit(form: JournalForm, journal: JournalStore, ledger: AccountStore, id: string, timestamp: string)
    returns (outcome: SubmitOutcome)
    requires WellShaped(form)
    modifies journal, ledger
    ensures outcome == FormRejected <==> !FormAccepts(form)
    ensures outcome == Unbalanced <==>
              FormAccepts(form) && form.journalType == General
              && !(Abs(TotalDebits(CollectLines(form).postings) - TotalCredits(CollectLines(form).postings)) < 0.001)
    ensures !outcome.Accepted? ==> journal.entries == old(journal.entries) && ledger.accounts == old(ledger.accounts)
    ensures outcome.Accepted? ==>
              && outcome.entry == JournalEntry(id, form.date, form.reference, form.description, timestamp, CollectLines(form))
              && journal.entries == old(journal.entries) + [outcome.entry]
              && ledger.accounts == Posted(old(ledger.accounts), CollectLines(form))
  {
    var valid := ValidateJournalForm(form);
    if !valid {
      return FormRejected;
    }
    var lines := CollectLines(form);
    var balanced := ValidateDoubleEntry(lines);
    if !balanced {
      return Unbalanced;
    }
    var saved := SaveAndPost(form, lines, journal, ledger, id, timestamp);
    return Accepted(saved);
  }

  /** The last two steps of a submit: `saveJournalEntry`, then `updateAccountBalances`. */
  method SaveAndPost(form: JournalForm, lines: Lines, journal: JournalStore, ledger: AccountStore, id: string, timestamp: string)
    returns (saved: JournalEntry)
    modifies journal, ledger
    ensures saved == JournalEntry(id, form.date, form.reference, form.description, timestamp, lines)
    ensures journal.entries == old(journal.entries) + [saved]
    ensures ledger.accounts == Posted(old(ledger.accounts), lines)
  {
    saved := journal.SaveJournalEntry(form, lines, id, timestamp);
    ledger.PostEntry(lines);
  }
}
