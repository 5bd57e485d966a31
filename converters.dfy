/**
 * The two CSV converters. Each walks the rows of one CSV file and feeds a
 * `PayloadBuilder`. A conversion is described by the builder calls it makes
 * and the error that stopped it, if one did: `SavingsConversion` and
 * `TransactionConversion` say which calls and which error, and the `Convert`
 * methods make exactly those calls on their builder.
 */
module Converters {
  import opened Wrappers
  import opened Text
  import opened Decimals
  import opened Payload
  import opened Builder
  import opened Fields

  /** A CSV row as `csv.DictReader` yields it: field name to cell text. */
  type Record = map<string, string>

  /** `row.get(name, "").strip()`. */
  function Field(r: Record, name: string): (v: string)
    ensures Trimmed(v)
  {
    Strip(if name in r then r[name] else "")
  }

  /** The builder calls a conversion makes, and the error that stopped it, if one did. */
  datatype Run = Run(ops: seq<Op>, error: Option<ValueError>)

  const NoCalls := Run([], None)

  /** `first`, then `next` unless `first` raised. */
  function Then(first: Run, next: Run): Run {
    if first.error.Some? then first else Run(first.ops + next.ops, next.error)
  }

  /** The rows' runs one after the other, up to the first that raises. */
  function Sequenced(runs: seq<Run>): Run {
    if runs == [] then NoCalls else Then(Sequenced(runs[..|runs| - 1]), runs[|runs| - 1])
  }

  /** Once a prefix has raised, the rows after it change nothing. */
  lemma {:induction false} SequencedStop(runs: seq<Run>, n: nat)
    requires n <= |runs| && Sequenced(runs[..n]).error.Some?
    ensures Sequenced(runs) == Sequenced(runs[..n])
  {
    if n == |runs| {
      assert runs[..n] == runs;
    } else {
      var init := runs[..|runs| - 1];
      assert init[..n] == runs[..n];
      SequencedStop(init, n);
    }
  }

  /** A sequence of runs completes exactly when none of them raises. */
  lemma {:induction false} SequencedCompletes(runs: seq<Run>)
    ensures Sequenced(runs).error.None? <==> forall j :: 0 <= j < |runs| ==> runs[j].error.None?
  {
    if runs != [] {
      var init := runs[..|runs| - 1];
      SequencedCompletes(init);
      assert forall j :: 0 <= j < |init| ==> init[j] == runs[j];
    }
  }

  /** The first run that raises decides the error. */
  lemma SequencedFirstError(runs: seq<Run>, k: nat)
    requires k < |runs| && runs[k].error.Some?
    requires forall j :: 0 <= j < k ==> runs[j].error.None?
    ensures Sequenced(runs).error == runs[k].error
  {
    var prefix := runs[..k + 1];
    assert prefix[..k] == runs[..k] && prefix[k] == runs[k];
    SequencedCompletes(runs[..k]);
    SequencedStop(runs, k + 1);
  }

  /** A property every run's transactions have, all the transactions have. */
  lemma {:induction false} SequencedTransactions(runs: seq<Run>, P: Transaction -> bool)
    requires forall i, t :: 0 <= i < |runs| && t in TransactionsOf(runs[i].ops) ==> P(t)
    ensures forall t :: t in TransactionsOf(Sequenced(runs).ops) ==> P(t)
  {
    if runs != [] {
      var init := runs[..|runs| - 1];
      assert forall i :: 0 <= i < |init| ==> init[i] == runs[i];
      SequencedTransactions(init, P);
      var prev := Sequenced(init);
      if prev.error.None? {
        TransactionsOfConcat(prev.ops, runs[|runs| - 1].ops);
      }
    }
  }

  /** A property the transactions of both runs have, the transactions of the two in turn have. */
  lemma ThenTransactions(first: Run, next: Run, P: Transaction -> bool)
    requires forall t :: t in TransactionsOf(first.ops) ==> P(t)
    requires forall t :: t in TransactionsOf(next.ops) ==> P(t)
    ensures forall t :: t in TransactionsOf(Then(first, next).ops) ==> P(t)
  {
    if first.error.None? {
      TransactionsOfConcat(first.ops, next.ops);
    }
  }

  function Optional(s: string): Option<string> {
    if s == "" then None else Some(s)
  }

  // ---------------------------------------------------------------- savings

  const SavingsHeaderRows := 4
  const DefaultSavingsAccountName := "Savings Account"
  const SaveKind := "save"

  /**
   * One savings row, from its stripped fields and its parsed amount: the amount
   * is parsed first, and a row with a category and a date becomes a category,
   * the account and a "save" transaction.
   */
  function SavingsStep(account: BankAccount, category: string, date: string,
                       amount: Result<Decimal, ValueError>, notes: string): Run {
    match amount
    case Err(e) => Run([], Some(e))
    case Ok(value) =>
      if category != "" && date != "" then
        Run([ PutCategory(Category(SaveKind, category, None)),
              PutBankAccount(account),
              PutTransaction(Transaction(date, SaveKind, category, account.name, value, None, Optional(notes))) ], None)
      else NoCalls
  }

  function SavingsRow(account: BankAccount, r: Record): Run {
    SavingsStep(account, Field(r, "category"), Field(r, "date"), ParseAmount(Field(r, "amount")), Field(r, "notes"))
  }

  function SavingsRuns(account: BankAccount, rows: seq<Record>): seq<Run> {
    seq(|rows|, i requires 0 <= i < |rows| => SavingsRow(account, rows[i]))
  }

  /** `SavingsConverter.convert`: four header rows skipped, then every row in turn. */
  function SavingsConversion(account: BankAccount, records: seq<Record>): Run {
    if |records| < SavingsHeaderRows then NoCalls
    else Sequenced(SavingsRuns(account, records[SavingsHeaderRows..]))
  }

  /** What every transaction of a savings conversion looks like. */
  predicate SavingsShaped(account: BankAccount, t: Transaction) {
    && t.kind == SaveKind && t.tags == None && t.bankAccount == account.name
    && t.category != "" && t.date != "" && Trimmed(t.category) && Trimmed(t.date)
    && (t.notes == None || t.notes.value != "")
  }

  /** A file of four rows or fewer has nothing to convert. */
  lemma SavingsShortFile(account: BankAccount, records: seq<Record>)
    requires |records| <= SavingsHeaderRows
    ensures SavingsConversion(account, records) == NoCalls
  {
    if |records| == SavingsHeaderRows {
      assert records[SavingsHeaderRows..] == [];
    }
  }

  /**
   * One row raises exactly when its amount does not parse, and then makes no
   * call; otherwise, when it has a category and a date, it adds the "save"
   * category, then the account, then one transaction, with the notes only when
   * they are not blank, and makes no call when not.
   */
  lemma SavingsStepOutcome(account: BankAccount, category: string, date: string,
                           amount: Result<Decimal, ValueError>, notes: string)
    ensures var run := SavingsStep(account, category, date, amount, notes);
      && (run.error.Some? <==> amount.Err?)
      && (amount.Err? ==> run == Run([], Some(amount.error)))
      && (amount.Ok? && category != "" && date != "" ==>
            |run.ops| == 3
            && run.ops[..2] == [PutCategory(Category(SaveKind, category, None)), PutBankAccount(account)]
            && TransactionsOf(run.ops) == [Transaction(date, SaveKind, category, account.name, amount.value, None,
                                                    if notes == "" then None else Some(notes))])
      && (amount.Ok? && (category == "" || date == "") ==> run == NoCalls)
      && (category == "" || date == "" ==> TransactionsOf(run.ops) == [])
  {
    var run := SavingsStep(account, category, date, amount, notes);
    if run.ops != [] {
      NoTransactions(run.ops[..2]);
      assert run.ops[..2] == run.ops[..|run.ops| - 1];
    }
  }

  /** A row with a blank amount raises, even a row without category or date. */
  lemma SavingsBlankAmountRaises(account: BankAccount, r: Record)
    requires Field(r, "amount") == ""
    ensures SavingsRow(account, r) == Run([], Some(EmptyAmount))
  {
    BlankAmountIsEmpty("");
  }

  /** The run of the row at index `j` of the file, past the header. */
  lemma SavingsRunAt(account: BankAccount, records: seq<Record>, j: nat)
    requires SavingsHeaderRows <= j < |records|
    ensures var run := SavingsRuns(account, records[SavingsHeaderRows..])[j - SavingsHeaderRows];
      var amount := ParseAmount(Field(records[j], "amount"));
      && (run.error.None? <==> amount.Ok?)
      && (amount.Err? ==> run.error == Some(amount.error))
  {
    var r := records[j];
    assert records[SavingsHeaderRows..][j - SavingsHeaderRows] == r;
  }

  /**
   * The first row past the header whose amount does not parse ends the
   * conversion with that amount's error.
   */
  lemma SavingsFirstBadAmount(account: BankAccount, records: seq<Record>, k: nat)
    requires SavingsHeaderRows <= k < |records| && ParseAmount(Field(records[k], "amount")).Err?
    requires forall j :: SavingsHeaderRows <= j < k ==> ParseAmount(Field(records[j], "amount")).Ok?
    ensures SavingsConversion(account, records).error == Some(ParseAmount(Field(records[k], "amount")).error)
  {
    var runs := SavingsRuns(account, records[SavingsHeaderRows..]);
    var bad := k - SavingsHeaderRows;
    forall j | 0 <= j < bad
      ensures runs[j].error.None?
    {
      SavingsRunAt(account, records, j + SavingsHeaderRows);
    }
    calc {
      SavingsConversion(account, records).error;
      Sequenced(runs).error;
      { SequencedFirstError(runs, bad); }
      runs[bad].error;
      { SavingsRunAt(account, records, k); }
      Some(ParseAmount(Field(records[k], "amount")).error);
    }
  }

  /** A conversion completes exactly when every amount past the header parses. */
  lemma SavingsCompletes(account: BankAccount, records: seq<Record>)
    requires |records| >= SavingsHeaderRows
    ensures SavingsConversion(account, records).error.None? <==>
      forall j :: SavingsHeaderRows <= j < |records| ==> ParseAmount(Field(records[j], "amount")).Ok?
  {
    var runs := SavingsRuns(account, records[SavingsHeaderRows..]);
    SequencedCompletes(runs);
    forall j | SavingsHeaderRows <= j < |records|
      ensures runs[j - SavingsHeaderRows].error.None? <==> ParseAmount(Field(records[j], "amount")).Ok?
    {
      SavingsRunAt(account, records, j);
    }
  }

  /** Every transaction a savings conversion adds is a "save" with the converter's account. */
  lemma SavingsTransactionsShaped(account: BankAccount, records: seq<Record>)
    ensures forall t :: t in TransactionsOf(SavingsConversion(account, records).ops) ==> SavingsShaped(account, t)
  {
    if |records| >= SavingsHeaderRows {
      var rows := records[SavingsHeaderRows..];
      var runs := SavingsRuns(account, rows);
      forall i, t | 0 <= i < |runs| && t in TransactionsOf(runs[i].ops)
        ensures SavingsShaped(account, t)
      {
        var r := rows[i];
        SavingsStepOutcome(account, Field(r, "category"), Field(r, "date"), ParseAmount(Field(r, "amount")), Field(r, "notes"));
      }
      SequencedTransactions(runs, t => SavingsShaped(account, t));
    }
  }

  // ----------------------------------------------------------- transactions

  const EarnDateRow := 1
  const SpendStartRow := 2
  const EarnStartRow := 14
  const EarnBankAccountName := "Barclays"
  const SpendKind := "spend"
  const EarnKind := "earn"

  function TagNames(tags: Option<seq<string>>): seq<string> {
    if tags.Some? then tags.value else []
  }

  /**
   * The spending half of a row, from its stripped fields, its parsed tags, its
   * parsed bank code and its parsed amount: with a date, a category and an
   * amount, the bank code is parsed, then the category, the account and the
   * tags are added, then the amount is parsed and the transaction added.
   */
  function SpendStep(date: string, category: string, amountText: string, tags: Option<seq<string>>,
                     account: Result<BankAccount, ValueError>, amount: Result<Decimal, ValueError>): Run {
    if date != "" && category != "" && amountText != "" then
      match account
      case Err(e) => Run([], Some(e))
      case Ok(a) =>
        var calls := [ PutCategory(Category(SpendKind, category, None)), PutBankAccount(a), PutTags(TagNames(tags)) ];
        match amount
        case Err(e) => Run(calls, Some(e))
        case Ok(value) =>
          Run(calls + [PutTransaction(Transaction(date, SpendKind, category, a.name, value, tags, None))], None)
    else NoCalls
  }

  function SpendPart(r: Record): Run {
    SpendStep(Field(r, "date"), Field(r, "category"), Field(r, "amount"), ParseTags(Field(r, "tags")),
              ParseBankAccount(Field(r, "bank_account")), ParseAmount(Field(r, "amount")))
  }

  /**
   * The earning half of a row: with a category and an amount, the category and
   * the earning account are added, then the amount is parsed and the
   * transaction added, dated with the earn date.
   */
  function EarnStep(earnDate: string, category: string, amountText: string, amount: Result<Decimal, ValueError>): Run {
    if category != "" && amountText != "" then
      var calls := [ PutCategory(Category(EarnKind, category, None)),
                     PutBankAccount(BankAccount(EarnBankAccountName, None)) ];
      match amount
      case Err(e) => Run(calls, Some(e))
      case Ok(value) =>
        Run(calls + [PutTransaction(Transaction(earnDate, EarnKind, category, EarnBankAccountName, value, None, None))], None)
    else NoCalls
  }

  function EarnPart(r: Record, earnDate: string): Run {
    EarnStep(earnDate, Field(r, "earn_category"), Field(r, "earn_amount"), ParseAmount(Field(r, "earn_amount")))
  }

  /** The earn date, read from the row at index 1. */
  function EarnDate(records: seq<Record>): string
    requires |records| > EarnDateRow
  {
    Field(records[EarnDateRow], "earn_date")
  }

  /** Row `idx`: its spending half from index 2 on, then its earning half from index 14 on. */
  function TransactionRow(records: seq<Record>, idx: nat): Run
    requires idx < |records|
  {
    var spend := if idx >= SpendStartRow then SpendPart(records[idx]) else NoCalls;
    var earn := if idx >= EarnStartRow then EarnPart(records[idx], EarnDate(records)) else NoCalls;
    Then(spend, earn)
  }

  function TransactionRuns(records: seq<Record>): seq<Run> {
    seq(|records|, i requires 0 <= i < |records| => TransactionRow(records, i))
  }

  /** `TransactionConverter.convert`: every row in turn. */
  function TransactionConversion(records: seq<Record>): Run {
    Sequenced(TransactionRuns(records))
  }

  /** Rows 0 and 1 add nothing and cannot raise. */
  lemma TransactionHeaderRows(records: seq<Record>, idx: nat)
    requires idx < |records| && idx < SpendStartRow
    ensures TransactionRow(records, idx) == NoCalls
  {
  }

  /** Rows 2 to 13 hold only spending: the earning half is not read. */
  lemma TransactionSpendOnlyRows(records: seq<Record>, idx: nat)
    requires idx < |records| && SpendStartRow <= idx < EarnStartRow
    ensures TransactionRow(records, idx) == SpendPart(records[idx])
  {
    var spend := SpendPart(records[idx]);
    assert TransactionRow(records, idx) == Then(spend, NoCalls);
    ThenNoCalls(spend);
  }

  lemma ThenNoCalls(run: Run)
    ensures Then(run, NoCalls) == run
  {
    assert run.ops + [] == run.ops;
  }

  /**
   * A spending half without a date, a category or an amount makes no call; with
   * them it raises on an unknown bank code before any call, and otherwise makes
   * exactly these calls: it adds the category, the account and the tags, and
   * then either raises on the amount or adds the transaction, with the parsed
   * tags and no notes.
   */
  lemma SpendStepOutcome(date: string, category: string, amountText: string, tags: Option<seq<string>>,
                         account: Result<BankAccount, ValueError>, amount: Result<Decimal, ValueError>)
    ensures var run := SpendStep(date, category, amountText, tags, account, amount);
      var qualifies := date != "" && category != "" && amountText != "";
      && (!qualifies ==> run == NoCalls)
      && (qualifies && account.Err? ==> run == Run([], Some(account.error)))
      && (qualifies && account.Ok? ==>
            && run.ops == [PutCategory(Category(SpendKind, category, None)), PutBankAccount(account.value), PutTags(TagNames(tags))]
                          + (if amount.Ok? then [PutTransaction(Transaction(date, SpendKind, category, account.value.name,
                                                                            amount.value, tags, None))]
                             else [])
            && (run.error.Some? <==> amount.Err?)
            && (amount.Err? ==> run.error == Some(amount.error) && TransactionsOf(run.ops) == [])
            && (amount.Ok? ==> TransactionsOf(run.ops) == [Transaction(date, SpendKind, category, account.value.name,
                                                                         amount.value, tags, None)]))
  {
    var run := SpendStep(date, category, amountText, tags, account, amount);
    if |run.ops| >= 3 {
      NoTransactions(run.ops[..3]);
      if |run.ops| == 4 {
        assert run.ops[..3] == run.ops[..|run.ops| - 1];
      } else {
        assert run.ops[..3] == run.ops;
      }
    }
  }

  /**
   * An earning half without a category or an amount makes no call; with them it
   * makes exactly these calls: it adds the category and the earning account,
   * and then either raises on the amount or adds the transaction, dated with
   * the earn date, without tags or notes.
   */
  lemma EarnStepOutcome(earnDate: string, category: string, amountText: string, amount: Result<Decimal, ValueError>)
    ensures var run := EarnStep(earnDate, category, amountText, amount);
      var qualifies := category != "" && amountText != "";
      && (!qualifies ==> run == NoCalls)
      && (qualifies ==>
            && run.ops == [PutCategory(Category(EarnKind, category, None)), PutBankAccount(BankAccount(EarnBankAccountName, None))]
                          + (if amount.Ok? then [PutTransaction(Transaction(earnDate, EarnKind, category, EarnBankAccountName,
                                                                            amount.value, None, None))]
                             else [])
            && (run.error.Some? <==> amount.Err?)
            && (amount.Err? ==> run.error == Some(amount.error) && TransactionsOf(run.ops) == [])
            && (amount.Ok? ==> TransactionsOf(run.ops) == [Transaction(earnDate, EarnKind, category, EarnBankAccountName,
                                                                         amount.value, None, None)]))
  {
    var run := EarnStep(earnDate, category, amountText, amount);
    if |run.ops| >= 2 {
      NoTransactions(run.ops[..2]);
      if |run.ops| == 3 {
        assert run.ops[..2] == run.ops[..|run.ops| - 1];
      } else {
        assert run.ops[..2] == run.ops;
      }
    }
  }

  /**
   * A spending row with a date, a category, an amount and an unknown bank code,
   * after rows that all went through, stops the conversion with that code.
   */
  lemma UnknownCodeAborts(records: seq<Record>, k: nat)
    requires SpendStartRow <= k < |records|
    requires forall j :: 0 <= j < k ==> TransactionRow(records, j).error.None?
    requires var r := records[k];
      Field(r, "date") != "" && Field(r, "category") != "" && Field(r, "amount") != ""
      && Field(r, "bank_account") !in BankAccountCodes
    ensures TransactionConversion(records).error == Some(UnknownBankAccountCode(Field(records[k], "bank_account")))
  {
    var r := records[k];
    ParseBankAccountTable(Field(r, "bank_account"));
    SequencedFirstError(TransactionRuns(records), k);
  }

  /** What a transaction of a transaction conversion looks like: a spend or an earn. */
  predicate TransactionShaped(records: seq<Record>, t: Transaction) {
    && t.category != "" && Trimmed(t.category) && t.notes == None
    && (t.kind == SpendKind || t.kind == EarnKind)
    && (t.kind == EarnKind ==>
          |records| > EarnStartRow && t.date == EarnDate(records)
          && t.bankAccount == EarnBankAccountName && t.tags == None)
    && (t.kind == SpendKind ==> t.date != "" && Trimmed(t.date) && t.bankAccount != "")
  }

  lemma SpendStepShaped(records: seq<Record>, date: string, category: string, amountText: string,
                        tags: Option<seq<string>>, account: Result<BankAccount, ValueError>,
                        amount: Result<Decimal, ValueError>)
    requires Trimmed(date) && Trimmed(category) && (account.Ok? ==> account.value.name != "")
    ensures forall t :: t in TransactionsOf(SpendStep(date, category, amountText, tags, account, amount).ops) ==>
      TransactionShaped(records, t)
  {
    SpendStepOutcome(date, category, amountText, tags, account, amount);
  }

  lemma EarnStepShaped(records: seq<Record>, category: string, amountText: string, amount: Result<Decimal, ValueError>)
    requires |records| > EarnStartRow && Trimmed(category)
    ensures forall t :: t in TransactionsOf(EarnStep(EarnDate(records), category, amountText, amount).ops) ==>
      TransactionShaped(records, t)
  {
    EarnStepOutcome(EarnDate(records), category, amountText, amount);
  }

  lemma TransactionRowShaped(records: seq<Record>, idx: nat)
    requires idx < |records|
    ensures forall t :: t in TransactionsOf(TransactionRow(records, idx).ops) ==> TransactionShaped(records, t)
  {
    var r := records[idx];
    var spend := if idx >= SpendStartRow then SpendPart(r) else NoCalls;
    var earn := if idx >= EarnStartRow then EarnPart(r, EarnDate(records)) else NoCalls;
    if idx >= SpendStartRow {
      SpendStepShaped(records, Field(r, "date"), Field(r, "category"), Field(r, "amount"), ParseTags(Field(r, "tags")),
                      ParseBankAccount(Field(r, "bank_account")), ParseAmount(Field(r, "amount")));
    }
    if idx >= EarnStartRow {
      EarnStepShaped(records, Field(r, "earn_category"), Field(r, "earn_amount"), ParseAmount(Field(r, "earn_amount")));
    }
    assert TransactionRow(records, idx) == Then(spend, earn);
    ThenTransactions(spend, earn, t => TransactionShaped(records, t));
  }

  /** Every transaction a transaction conversion adds is a well-formed spend or earn. */
  lemma TransactionsShaped(records: seq<Record>)
    ensures forall t :: t in TransactionsOf(TransactionConversion(records).ops) ==> TransactionShaped(records, t)
  {
    var runs := TransactionRuns(records);
    forall i, t | 0 <= i < |runs| && t in TransactionsOf(runs[i].ops)
      ensures TransactionShaped(records, t)
    {
      TransactionRowShaped(records, i);
    }
    SequencedTransactions(runs, t => TransactionShaped(records, t));
  }

  // ---------------------------------------------------------------- classes

  /*
   * The builder after the call groups the converters chain, stated as the
   * contents each call leaves.
   */

  lemma CategoryAccount(b: Contents, c: Category, a: BankAccount)
    ensures Apply(b, [PutCategory(c), PutBankAccount(a)]) == WithBankAccount(WithCategory(b, c), a)
  {
    ApplySnoc(b, [], PutCategory(c));
    assert [] + [PutCategory(c)] == [PutCategory(c)];
    ApplySnoc(b, [PutCategory(c)], PutBankAccount(a));
    assert [PutCategory(c)] + [PutBankAccount(a)] == [PutCategory(c), PutBankAccount(a)];
  }

  lemma CategoryAccountTransaction(b: Contents, c: Category, a: BankAccount, t: Transaction)
    ensures Apply(b, [PutCategory(c), PutBankAccount(a), PutTransaction(t)])
         == WithTransaction(WithBankAccount(WithCategory(b, c), a), t)
  {
    CategoryAccount(b, c, a);
    ApplySnoc(b, [PutCategory(c), PutBankAccount(a)], PutTransaction(t));
    assert [PutCategory(c), PutBankAccount(a)] + [PutTransaction(t)] == [PutCategory(c), PutBankAccount(a), PutTransaction(t)];
  }

  lemma CategoryAccountTags(b: Contents, c: Category, a: BankAccount, names: seq<string>)
    ensures Apply(b, [PutCategory(c), PutBankAccount(a), PutTags(names)])
         == WithTags(WithBankAccount(WithCategory(b, c), a), names)
  {
    CategoryAccount(b, c, a);
    ApplySnoc(b, [PutCategory(c), PutBankAccount(a)], PutTags(names));
    assert [PutCategory(c), PutBankAccount(a)] + [PutTags(names)] == [PutCategory(c), PutBankAccount(a), PutTags(names)];
  }

  lemma ThenTransaction(b: Contents, calls: seq<Op>, t: Transaction)
    ensures Apply(b, calls + [PutTransaction(t)]) == WithTransaction(Apply(b, calls), t)
  {
    ApplySnoc(b, calls, PutTransaction(t));
  }

  /** A row's run appended to the calls so far, as the loops of the converters do. */
  lemma SequencedSnoc(runs: seq<Run>, i: nat, done: seq<Op>)
    requires i < |runs| && Sequenced(runs[..i]) == Run(done, None)
    ensures Sequenced(runs[..i + 1]) == Run(done + runs[i].ops, runs[i].error)
  {
    assert runs[..i + 1][..i] == runs[..i];
  }

  class SavingsConverter {
    const builder: PayloadBuilder
    const transactionType: string
    const bankAccount: BankAccount

    constructor(bankAccountName: string := DefaultSavingsAccountName)
      ensures fresh(builder) && builder.State() == Empty && builder.Valid()
      ensures transactionType == SaveKind && bankAccount == BankAccount(bankAccountName, None)
    {
      builder := new PayloadBuilder();
      transactionType := SaveKind;
      bankAccount := BankAccount(bankAccountName, None);
    }

    /**
     * Makes the calls `SavingsConversion` lists on the builder and returns the
     * error that stopped it, if any.
     */
    method Convert(records: seq<Record>) returns (error: Option<ValueError>)
      requires builder.Valid() && transactionType == SaveKind
      modifies builder
      ensures builder.Valid()
      ensures builder.State() == Apply(old(builder.State()), SavingsConversion(bankAccount, records).ops)
      ensures error == SavingsConversion(bankAccount, records).error
    {
      if |records| < SavingsHeaderRows {
        return None;
      }
      var rows := records[SavingsHeaderRows..];
      ghost var runs := SavingsRuns(bankAccount, rows);
      ghost var start := builder.State();
      ghost var done: seq<Op> := [];
      for i := 0 to |rows|
        invariant builder.Valid()
        invariant Sequenced(runs[..i]) == Run(done, None)
        invariant builder.State() == Apply(start, done)
      {
        error := ConvertRow(rows[i]);
        assert runs[i] == SavingsRow(bankAccount, rows[i]);
        SequencedSnoc(runs, i, done);
        ApplyConcat(start, done, runs[i].ops);
        done := done + runs[i].ops;
        if error.Some? {
          SequencedStop(runs, i + 1);
          return;
        }
      }
      assert runs[..|rows|] == runs;
      return None;
    }

    /** The body of the loop of `convert` for one row. */
    method ConvertRow(row: Record) returns (error: Option<ValueError>)
      requires builder.Valid() && transactionType == SaveKind
      modifies builder
      ensures builder.Valid()
      ensures builder.State() == Apply(old(builder.State()), SavingsRow(bankAccount, row).ops)
      ensures error == SavingsRow(bankAccount, row).error
    {
      var categoryName := Field(row, "category");
      var date := Field(row, "date");
      var amount := ParseAmount(Field(row, "amount"));
      var notes := Field(row, "notes");
      if amount.Err? {
        return Some(amount.error);
      }
      if categoryName != "" && date != "" {
        var category := Category(transactionType, categoryName, None);
        var transaction := Transaction(date, transactionType, categoryName, bankAccount.name, amount.value, None, Optional(notes));
        ghost var b := builder.State();
        builder.AddCategory(category);
        builder.AddBankAccount(bankAccount);
        builder.AddTransaction(transaction);
        CategoryAccountTransaction(b, category, bankAccount, transaction);
      }
      return None;
    }

    function GetPayload(): (p: Payload)
      reads builder
      ensures p == BuildPayload(builder.State())
    {
      builder.Build()
    }
  }

  class TransactionConverter {
    const builder: PayloadBuilder

    constructor()
      ensures fresh(builder) && builder.State() == Empty && builder.Valid()
    {
      builder := new PayloadBuilder();
    }

    /**
     * Makes the calls `TransactionConversion` lists on the builder and returns
     * the error that stopped it, if any.
     */
    method Convert(records: seq<Record>) returns (error: Option<ValueError>)
      requires builder.Valid()
      modifies builder
      ensures builder.Valid()
      ensures builder.State() == Apply(old(builder.State()), TransactionConversion(records).ops)
      ensures error == TransactionConversion(records).error
    {
      ghost var runs := TransactionRuns(records);
      ghost var start := builder.State();
      ghost var done: seq<Op> := [];
      var earnDate: Option<string> := None;
      for idx := 0 to |records|
        invariant builder.Valid()
        invariant Sequenced(runs[..idx]) == Run(done, None)
        invariant builder.State() == Apply(start, done)
        invariant idx > EarnDateRow ==> earnDate == Some(EarnDate(records))
      {
        if idx == EarnDateRow {
          earnDate := Some(Field(records[idx], "earn_date"));
        }
        error := ConvertRow(records, idx, earnDate);
        SequencedSnoc(runs, idx, done);
        ApplyConcat(start, done, runs[idx].ops);
        done := done + runs[idx].ops;
        if error.Some? {
          SequencedStop(runs, idx + 1);
          return;
        }
      }
      assert runs[..|records|] == runs;
      return None;
    }

    /** The body of the loop of `convert` for the row at index `idx`. */
    method ConvertRow(records: seq<Record>, idx: nat, earnDate: Option<string>) returns (error: Option<ValueError>)
      requires idx < |records| && builder.Valid()
      requires idx >= EarnDateRow ==> earnDate == Some(EarnDate(records))
      modifies builder
      ensures builder.Valid()
      ensures builder.State() == Apply(old(builder.State()), TransactionRuns(records)[idx].ops)
      ensures error == TransactionRuns(records)[idx].error
    {
      var row := records[idx];
      assert TransactionRuns(records)[idx] == TransactionRow(records, idx);
      ghost var spend := if idx >= SpendStartRow then SpendPart(row) else NoCalls;
      ghost var earn := if idx >= EarnStartRow then EarnPart(row, EarnDate(records)) else NoCalls;
      assert TransactionRow(records, idx) == Then(spend, earn);
      ghost var start := builder.State();
      error := None;
      if idx >= SpendStartRow {
        error := AddSpending(row);
        if error.Some? {
          return;
        }
      }
      ghost var middle := builder.State();
      assert middle == Apply(start, spend.ops) && spend.error == None;
      if idx >= EarnStartRow {
        error := AddEarning(row, earnDate.value);
      }
      assert builder.State() == Apply(middle, earn.ops) && error == earn.error;
      ApplyConcat(start, spend.ops, earn.ops);
    }

    /** The spending half of the loop of `convert`, from row index 2 on. */
    method AddSpending(row: Record) returns (error: Option<ValueError>)
      requires builder.Valid()
      modifies builder
      ensures builder.Valid()
      ensures builder.State() == Apply(old(builder.State()), SpendPart(row).ops)
      ensures error == SpendPart(row).error
    {
      var spendDate := Field(row, "date");
      var spendCategory := Field(row, "category");
      var spendAmount := Field(row, "amount");
      var spendTags := ParseTags(Field(row, "tags"));
      if spendDate != "" && spendCategory != "" && spendAmount != "" {
        var account := ParseBankAccount(Field(row, "bank_account"));
        if account.Err? {
          return Some(account.error);
        }
        var category := Category(SpendKind, spendCategory, None);
        var names := TagNames(spendTags);
        ghost var b := builder.State();
        builder.AddCategory(category);
        builder.AddBankAccount(account.value);
        builder.AddTags(names);
        var amount := ParseAmount(spendAmount);
        if amount.Err? {
          CategoryAccountTags(b, category, account.value, names);
          return Some(amount.error);
        }
        var transaction := Transaction(spendDate, SpendKind, spendCategory, account.value.name, amount.value, spendTags, None);
        builder.AddTransaction(transaction);
        CategoryAccountTags(b, category, account.value, names);
        ThenTransaction(b, [PutCategory(category), PutBankAccount(account.value), PutTags(names)], transaction);
      }
      return None;
    }

    /** The earning half of the loop of `convert`, from row index 14 on. */
    method AddEarning(row: Record, earnDate: string) returns (error: Option<ValueError>)
      requires builder.Valid()
      modifies builder
      ensures builder.Valid()
      ensures builder.State() == Apply(old(builder.State()), EarnPart(row, earnDate).ops)
      ensures error == EarnPart(row, earnDate).error
    {
      var earnCategory := Field(row, "earn_category");
      var earnAmount := Field(row, "earn_amount");
      if earnCategory != "" && earnAmount != "" {
        var category := Category(EarnKind, earnCategory, None);
        var account := BankAccount(EarnBankAccountName, None);
        ghost var b := builder.State();
        builder.AddCategory(category);
        builder.AddBankAccount(account);
        var amount := ParseAmount(earnAmount);
        if amount.Err? {
          CategoryAccount(b, category, account);
          return Some(amount.error);
        }
        var transaction := Transaction(earnDate, EarnKind, earnCategory, EarnBankAccountName, amount.value, None, None);
        builder.AddTransaction(transaction);
        CategoryAccount(b, category, account);
        ThenTransaction(b, [PutCategory(category), PutBankAccount(account)], transaction);
      }
      return None;
    }

    function GetPayload(): (p: Payload)
      reads builder
      ensures p == BuildPayload(builder.State())
    {
      builder.Build()
    }
  }
}
