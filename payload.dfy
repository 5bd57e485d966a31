/**
 * The records of the converter's output payload, and the conversion of a
 * record into the dictionary that is written out as JSON, in which a field
 * whose value is `None` does not appear.
 */
module Payload {
  import opened Wrappers
  import opened Decimals

  /** `Category(type, name, description)`; the Python field `type` is `kind` here. */
  datatype Category = Category(kind: string, name: string, description: Option<string>)

  datatype BankAccount = BankAccount(name: string, description: Option<string>)

  datatype Tag = Tag(name: string, description: Option<string>)

  /** The Python `amount: float` is the exact decimal the amount text denotes. */
  datatype Transaction = Transaction(
    date: string,
    kind: string,
    category: string,
    bankAccount: string,
    amount: Decimal,
    tags: Option<seq<string>>,
    notes: Option<string>)

  datatype Payload = Payload(
    categories: seq<Category>,
    bankAccounts: seq<BankAccount>,
    tags: seq<Tag>,
    transactions: seq<Transaction>)

  /** `{k: v for (k, v) in pairs if v is not None}`. */
  function ExcludeIfNone<K, V>(pairs: seq<(K, Option<V>)>): (m: map<K, V>)
    ensures forall k :: k in m ==> k in Keys(pairs)
  {
    if pairs == [] then map[]
    else
      var init := ExcludeIfNone(pairs[..|pairs| - 1]);
      var (k, v) := pairs[|pairs| - 1];
      if v.Some? then init[k := v.value] else init
  }

  function Keys<K, V>(pairs: seq<(K, V)>): set<K> {
    set i | 0 <= i < |pairs| :: pairs[i].0
  }

  /** A pair with a value that no later pair overrides decides the key's entry. */
  lemma {:induction false} ExcludeIfNoneLastWins<K, V>(pairs: seq<(K, Option<V>)>, i: nat)
    requires i < |pairs| && pairs[i].1.Some?
    requires forall j :: i < j < |pairs| && pairs[j].0 == pairs[i].0 ==> pairs[j].1 == None
    ensures pairs[i].0 in ExcludeIfNone(pairs) && ExcludeIfNone(pairs)[pairs[i].0] == pairs[i].1.value
  {
    var n := |pairs| - 1;
    if i < n {
      ExcludeIfNoneLastWins(pairs[..n], i);
    }
  }

  /** A key that never comes with a value is absent. */
  lemma {:induction false} ExcludeIfNoneDrops<K, V>(pairs: seq<(K, Option<V>)>, k: K)
    requires forall j :: 0 <= j < |pairs| && pairs[j].0 == k ==> pairs[j].1 == None
    ensures k !in ExcludeIfNone(pairs)
  {
    if pairs != [] {
      ExcludeIfNoneDrops(pairs[..|pairs| - 1], k);
    }
  }

  /** The values a field of a record takes in the JSON output. */
  datatype FieldValue = Text(text: string) | Number(number: Decimal) | TextList(texts: seq<string>)

  function OptionalText(s: Option<string>): Option<FieldValue> {
    if s.Some? then Some(Text(s.value)) else None
  }

  /** `asdict(transaction)`'s pairs, in declaration order. */
  function TransactionFields(t: Transaction): seq<(string, Option<FieldValue>)> {
    [ ("date", Some(Text(t.date))),
      ("type", Some(Text(t.kind))),
      ("category", Some(Text(t.category))),
      ("bank_account", Some(Text(t.bankAccount))),
      ("amount", Some(Number(t.amount))),
      ("tags", if t.tags.Some? then Some(TextList(t.tags.value)) else None),
      ("notes", OptionalText(t.notes)) ]
  }

  function CategoryFields(c: Category): seq<(string, Option<FieldValue>)> {
    [("type", Some(Text(c.kind))), ("name", Some(Text(c.name))), ("description", OptionalText(c.description))]
  }

  function NamedFields(name: string, description: Option<string>): seq<(string, Option<FieldValue>)> {
    [("name", Some(Text(name))), ("description", OptionalText(description))]
  }

  /**
   * A transaction's JSON object always has its five mandatory fields, and has
   * "tags" and "notes" exactly when they are set.
   */
  lemma TransactionRecord(t: Transaction)
    ensures var m := ExcludeIfNone(TransactionFields(t));
      && m.Keys >= {"date", "type", "category", "bank_account", "amount"}
      && m["date"] == Text(t.date) && m["type"] == Text(t.kind) && m["category"] == Text(t.category)
      && m["bank_account"] == Text(t.bankAccount) && m["amount"] == Number(t.amount)
      && ("tags" in m <==> t.tags.Some?) && ("notes" in m <==> t.notes.Some?)
      && (t.tags.Some? ==> m["tags"] == TextList(t.tags.value))
      && (t.notes.Some? ==> m["notes"] == Text(t.notes.value))
  {
    TransactionMandatoryFields(t);
    TransactionOptionalFields(t);
  }

  lemma TransactionMandatoryFields(t: Transaction)
    ensures var m := ExcludeIfNone(TransactionFields(t));
      && m.Keys >= {"date", "type", "category", "bank_account", "amount"}
      && m["date"] == Text(t.date) && m["type"] == Text(t.kind) && m["category"] == Text(t.category)
      && m["bank_account"] == Text(t.bankAccount) && m["amount"] == Number(t.amount)
  {
    var ps := TransactionFields(t);
    ExcludeIfNoneLastWins(ps, 0);
    ExcludeIfNoneLastWins(ps, 1);
    ExcludeIfNoneLastWins(ps, 2);
    ExcludeIfNoneLastWins(ps, 3);
    ExcludeIfNoneLastWins(ps, 4);
  }

  lemma TransactionOptionalFields(t: Transaction)
    ensures var m := ExcludeIfNone(TransactionFields(t));
      && ("tags" in m <==> t.tags.Some?) && ("notes" in m <==> t.notes.Some?)
      && (t.tags.Some? ==> m["tags"] == TextList(t.tags.value))
      && (t.notes.Some? ==> m["notes"] == Text(t.notes.value))
  {
    var ps := TransactionFields(t);
    if t.tags.Some? {
      ExcludeIfNoneLastWins(ps, 5);
    } else {
      ExcludeIfNoneDrops(ps, "tags");
    }
    if t.notes.Some? {
      ExcludeIfNoneLastWins(ps, 6);
    } else {
      ExcludeIfNoneDrops(ps, "notes");
    }
  }

  /** A category's JSON object has "description" exactly when it is set. */
  lemma CategoryRecord(c: Category)
    ensures var m := ExcludeIfNone(CategoryFields(c));
      && m.Keys >= {"type", "name"} && m["type"] == Text(c.kind) && m["name"] == Text(c.name)
      && ("description" in m <==> c.description.Some?)
  {
    var ps := CategoryFields(c);
    ExcludeIfNoneLastWins(ps, 0);
    ExcludeIfNoneLastWins(ps, 1);
    if c.description.Some? {
      ExcludeIfNoneLastWins(ps, 2);
    } else {
      ExcludeIfNoneDrops(ps, "description");
    }
  }

  /** A bank account's or tag's JSON object has "description" exactly when it is set. */
  lemma NamedRecord(name: string, description: Option<string>)
    ensures var m := ExcludeIfNone(NamedFields(name, description));
      && "name" in m && m["name"] == Text(name) && ("description" in m <==> description.Some?)
  {
    var ps := NamedFields(name, description);
    ExcludeIfNoneLastWins(ps, 0);
    if description.Some? {
      ExcludeIfNoneLastWins(ps, 1);
    } else {
      ExcludeIfNoneDrops(ps, "description");
    }
  }
}
