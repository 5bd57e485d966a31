/**
 * `PayloadBuilder`: a list per record kind plus, for categories, bank accounts
 * and tags, a tracking set of keys that keeps the list free of duplicates.
 * The pure functions on `Contents` say what each builder method does; the
 * class performs it in place.
 */
module Builder {
  import opened Wrappers
  import opened Sequences
  import opened Payload

  /** Categories are told apart by the pair (name, type). */
  function CategoryKey(c: Category): (string, string) {
    (c.name, c.kind)
  }

  function AccountName(b: BankAccount): string {
    b.name
  }

  function TagName(t: Tag): string {
    t.name
  }

  /** The tag `add_tags` creates for a name. */
  function UndescribedTag(name: string): Tag {
    Tag(name, None)
  }

  /** `seen` is exactly the set of keys of `items`, and no key occurs twice in `items`. */
  predicate Tracked<T, K(==)>(items: seq<T>, seen: set<K>, key: T -> K) {
    seen == Elems(Project(items, key)) && Distinct(Project(items, key))
  }

  /** Everything a builder holds, field by field. */
  datatype Contents = Contents(
    categories: seq<Category>,
    categoryTypes: set<(string, string)>,
    bankAccounts: seq<BankAccount>,
    bankAccountNames: set<string>,
    tags: seq<Tag>,
    tagNames: set<string>,
    transactions: seq<Transaction>)
  {
    /** Each tracking set matches its list, and no list repeats a key. */
    predicate Valid() {
      && Tracked(categories, categoryTypes, CategoryKey)
      && Tracked(bankAccounts, bankAccountNames, AccountName)
      && Tracked(tags, tagNames, TagName)
    }
  }

  /** What `__init__` sets up. */
  const Empty: Contents := Contents([], {}, [], {}, [], {}, [])

  /** `if key(x) not in seen: seen.add(key(x)); items.append(x)`. */
  function Track<T, K(==)>(items: seq<T>, seen: set<K>, x: T, key: T -> K): (r: (seq<T>, set<K>))
    ensures Tracked(items, seen, key) ==> Tracked(r.0, r.1, key)
    ensures r.1 == seen + {key(x)}
    ensures key(x) in seen ==> r == (items, seen)
    ensures key(x) !in seen ==> |r.0| == |items| + 1 && r.0[..|items|] == items && r.0[|items|] == x
  {
    if key(x) in seen then (items, seen)
    else
      ProjectConcat(items, [x], key);
      (items + [x], seen + {key(x)})
  }

  /** `add_category`: appended unless a category with the same (name, type) is there. */
  function WithCategory(b: Contents, c: Category): (r: Contents)
    ensures b.Valid() ==> r.Valid()
    ensures r.categoryTypes == b.categoryTypes + {CategoryKey(c)}
    ensures CategoryKey(c) in b.categoryTypes ==> r == b
    ensures CategoryKey(c) !in b.categoryTypes ==> r.categories == b.categories + [c]
    ensures r.(categories := b.categories, categoryTypes := b.categoryTypes) == b
  {
    var (items, seen) := Track(b.categories, b.categoryTypes, c, CategoryKey);
    b.(categories := items, categoryTypes := seen)
  }

  /** `add_bank_account`: appended unless an account of the same name is there. */
  function WithBankAccount(b: Contents, a: BankAccount): (r: Contents)
    ensures b.Valid() ==> r.Valid()
    ensures r.bankAccountNames == b.bankAccountNames + {a.name}
    ensures a.name in b.bankAccountNames ==> r == b
    ensures a.name !in b.bankAccountNames ==> r.bankAccounts == b.bankAccounts + [a]
    ensures r.(bankAccounts := b.bankAccounts, bankAccountNames := b.bankAccountNames) == b
  {
    var (items, seen) := Track(b.bankAccounts, b.bankAccountNames, a, AccountName);
    b.(bankAccounts := items, bankAccountNames := seen)
  }

  /** `add_tag`: appended unless a tag of the same name is there. */
  function WithTag(b: Contents, t: Tag): (r: Contents)
    ensures b.Valid() ==> r.Valid()
    ensures r.tagNames == b.tagNames + {t.name}
    ensures t.name in b.tagNames ==> r == b
    ensures t.name !in b.tagNames ==> r.tags == b.tags + [t]
    ensures r.(tags := b.tags, tagNames := b.tagNames) == b
  {
    var (items, seen) := Track(b.tags, b.tagNames, t, TagName);
    b.(tags := items, tagNames := seen)
  }

  /**
   * `add_tags`: an undescribed tag for each name not seen before, in the order of
   * first occurrence, each name once.
   */
  function WithTags(b: Contents, names: seq<string>): (r: Contents)
    ensures b.Valid() ==> r.Valid()
    ensures r.tagNames == b.tagNames + Elems(names)
    ensures r.(tags := b.tags, tagNames := b.tagNames) == b
  {
    AbsorbKeepsTracked(b.tags, b.tagNames, names, UndescribedTag, TagName);
    b.(tags := Absorb(b.tags, b.tagNames, names, UndescribedTag), tagNames := b.tagNames + Elems(names))
  }

  /** `add_transaction`: always appended, nothing else changes. */
  function WithTransaction(b: Contents, t: Transaction): (r: Contents)
    ensures b.Valid() ==> r.Valid()
    ensures r.transactions == b.transactions + [t]
    ensures r.(transactions := b.transactions) == b
  {
    b.(transactions := b.transactions + [t])
  }

  /** `build`: the four lists as they stand. */
  function BuildPayload(b: Contents): (p: Payload)
    ensures b.Valid() ==>
      && Distinct(Project(p.categories, CategoryKey))
      && Distinct(Project(p.bankAccounts, AccountName))
      && Distinct(Project(p.tags, TagName))
    ensures p.categories == b.categories && p.bankAccounts == b.bankAccounts
    ensures p.tags == b.tags && p.transactions == b.transactions
  {
    Payload(b.categories, b.bankAccounts, b.tags, b.transactions)
  }

  /** Absorbing keys into a tracked list keeps it tracked, the keys joining the set. */
  lemma {:induction false} AbsorbKeepsTracked<T, K>(items: seq<T>, seen: set<K>, ks: seq<K>, make: K -> T, key: T -> K)
    requires forall k :: key(make(k)) == k
    ensures Tracked(items, seen, key) ==> Tracked(Absorb(items, seen, ks, make), seen + Elems(ks), key)
    decreases |ks|
  {
    if !Tracked(items, seen, key) {
    } else if ks == [] {
      assert Absorb(items, seen, ks, make) == items;
      assert seen + Elems(ks) == seen;
    } else {
      var init, k := ks[..|ks| - 1], ks[|ks| - 1];
      assert ks == init + [k];
      AbsorbKeepsTracked(items, seen, init, make, key);
      AbsorbOneKeepsTracked(items, seen, init, k, make, key);
    }
  }

  /** The step of the induction above: absorbing one more key is tracking it. */
  lemma AbsorbOneKeepsTracked<T, K>(items: seq<T>, seen: set<K>, init: seq<K>, k: K, make: K -> T, key: T -> K)
    requires key(make(k)) == k
    requires Tracked(Absorb(items, seen, init, make), seen + Elems(init), key)
    ensures Tracked(Absorb(items, seen, init + [k], make), seen + Elems(init + [k]), key)
  {
    AbsorbSnoc(items, seen, init, k, make);
    var r := Track(Absorb(items, seen, init, make), seen + Elems(init), make(k), key);
    assert Absorb(items, seen, init + [k], make) == r.0;
    ElemsConcat(init, [k]);
    assert Elems([k]) == {k};
    assert seen + Elems(init + [k]) == r.1;
  }

  /** One `add_tags` call with `xs + ys` is a call with `xs` followed by a call with `ys`. */
  lemma WithTagsConcat(b: Contents, xs: seq<string>, ys: seq<string>)
    ensures WithTags(b, xs + ys) == WithTags(WithTags(b, xs), ys)
  {
    AbsorbConcat(b.tags, b.tagNames, xs, ys, UndescribedTag);
    ElemsConcat(xs, ys);
  }

  /** Adding a name list is adding an undescribed tag for each name in turn. */
  lemma {:induction false} WithTagsOneByOne(b: Contents, names: seq<string>)
    ensures names != [] ==>
      WithTags(b, names) == WithTag(WithTags(b, names[..|names| - 1]), UndescribedTag(names[|names| - 1]))
  {
    if names != [] {
      var init, n := names[..|names| - 1], names[|names| - 1];
      assert names == init + [n];
      AbsorbSnoc(b.tags, b.tagNames, init, n, UndescribedTag);
      ElemsConcat(init, [n]);
    }
  }

  /**
   * `add_tags` keeps the tags there were and appends undescribed tags whose
   * names are the fresh names of the list: those not seen before, each once,
   * in the order they first occur.
   */
  lemma WithTagsAppendsFresh(b: Contents, names: seq<string>)
    ensures |WithTags(b, names).tags| >= |b.tags|
    ensures WithTags(b, names).tags[..|b.tags|] == b.tags
    ensures var added := WithTags(b, names).tags[|b.tags|..];
      && Project(added, TagName) == FreshKeys(b.tagNames, names)
      && forall t :: t in added ==> t.description == None
  {
    var newNames := FreshKeys(b.tagNames, names);
    var added := WithTags(b, names).tags[|b.tags|..];
    assert added == Project(newNames, UndescribedTag);
    assert Project(added, TagName) == newNames;
  }

  /** Adding a category, account or tag that is already there again changes nothing. */
  lemma AddTwiceIsAddOnce(b: Contents, c: Category, a: BankAccount, t: Tag)
    ensures WithCategory(WithCategory(b, c), c) == WithCategory(b, c)
    ensures WithBankAccount(WithBankAccount(b, a), a) == WithBankAccount(b, a)
    ensures WithTag(WithTag(b, t), t) == WithTag(b, t)
  {
  }

  /** A builder call, as the converters issue them. */
  datatype Op =
    | PutCategory(category: Category)
    | PutBankAccount(account: BankAccount)
    | PutTags(names: seq<string>)
    | PutTransaction(transaction: Transaction)

  /** One call: adds a transaction only when it is `add_transaction`. */
  function Step(b: Contents, op: Op): (r: Contents)
    ensures r.transactions == b.transactions + (if op.PutTransaction? then [op.transaction] else [])
  {
    match op
    case PutCategory(c) => WithCategory(b, c)
    case PutBankAccount(a) => WithBankAccount(b, a)
    case PutTags(names) => WithTags(b, names)
    case PutTransaction(t) => WithTransaction(b, t)
  }

  /** The transactions a sequence of calls adds, in order. */
  function TransactionsOf(ops: seq<Op>): seq<Transaction> {
    if ops == [] then []
    else TransactionsOf(ops[..|ops| - 1]) + (if ops[|ops| - 1].PutTransaction? then [ops[|ops| - 1].transaction] else [])
  }

  /**
   * The builder after a sequence of calls: its transactions
   * are the old ones followed by those the calls add.
   */
  function Apply(b: Contents, ops: seq<Op>): (r: Contents)
    ensures r.transactions == b.transactions + TransactionsOf(ops)
  {
    if ops == [] then b
    else
      var prev := Apply(b, ops[..|ops| - 1]);
      Step(prev, ops[|ops| - 1])
  }

  /** Any sequence of calls keeps a valid builder valid. */
  lemma {:induction false} ApplyKeepsValid(b: Contents, ops: seq<Op>)
    requires b.Valid()
    ensures Apply(b, ops).Valid()
  {
    if ops != [] {
      ApplyKeepsValid(b, ops[..|ops| - 1]);
    }
  }

  lemma {:induction false} TransactionsOfConcat(xs: seq<Op>, ys: seq<Op>)
    ensures TransactionsOf(xs + ys) == TransactionsOf(xs) + TransactionsOf(ys)
    decreases |ys|
  {
    if ys == [] {
      assert xs + ys == xs;
    } else {
      var init, y := ys[..|ys| - 1], ys[|ys| - 1];
      assert (xs + ys)[..|xs + ys| - 1] == xs + init;
      assert (xs + ys)[|xs + ys| - 1] == y;
      TransactionsOfConcat(xs, init);
    }
  }

  /** Calls none of which adds a transaction add no transaction. */
  lemma {:induction false} NoTransactions(ops: seq<Op>)
    requires forall i :: 0 <= i < |ops| ==> !ops[i].PutTransaction?
    ensures TransactionsOf(ops) == []
  {
    if ops != [] {
      NoTransactions(ops[..|ops| - 1]);
    }
  }

  lemma ApplySnoc(b: Contents, ops: seq<Op>, op: Op)
    ensures Apply(b, ops + [op]) == Step(Apply(b, ops), op)
  {
    assert (ops + [op])[..|ops|] == ops;
  }

  /** Calls issued in two runs act as the same calls issued in one. */
  lemma {:induction false} ApplyConcat(b: Contents, xs: seq<Op>, ys: seq<Op>)
    ensures Apply(b, xs + ys) == Apply(Apply(b, xs), ys)
    decreases |ys|
  {
    if ys == [] {
      assert xs + ys == xs;
    } else {
      var init, y := ys[..|ys| - 1], ys[|ys| - 1];
      assert xs + ys == (xs + init) + [y];
      ApplyConcat(b, xs, init);
      ApplySnoc(b, xs + init, y);
    }
  }

  class PayloadBuilder {
    var categories: seq<Category>
    var categoryTypes: set<(string, string)>
    var bankAccounts: seq<BankAccount>
    var bankAccountNames: set<string>
    var tags: seq<Tag>
    var tagNames: set<string>
    var transactions: seq<Transaction>

    function State(): Contents
      reads this
    {
      Contents(categories, categoryTypes, bankAccounts, bankAccountNames, tags, tagNames, transactions)
    }

    predicate Valid()
      reads this
    {
      State().Valid()
    }

    constructor()
      ensures State() == Empty && Valid()
    {
      categories, categoryTypes := [], {};
      bankAccounts, bankAccountNames := [], {};
      tags, tagNames := [], {};
      transactions := [];
    }

    method AddCategory(category: Category)
      requires Valid()
      modifies this
      ensures State() == WithCategory(old(State()), category) && Valid()
    {
      if (category.name, category.kind) !in categoryTypes {
        categoryTypes := categoryTypes + {(category.name, category.kind)};
        categories := categories + [category];
      }
    }

    method AddBankAccount(account: BankAccount)
      requires Valid()
      modifies this
      ensures State() == WithBankAccount(old(State()), account) && Valid()
    {
      if account.name !in bankAccountNames {
        bankAccountNames := bankAccountNames + {account.name};
        bankAccounts := bankAccounts + [account];
      }
    }

    method AddTag(tag: Tag)
      requires Valid()
      modifies this
      ensures State() == WithTag(old(State()), tag) && Valid()
    {
      if tag.name !in tagNames {
        tagNames := tagNames + {tag.name};
        tags := tags + [tag];
      }
    }

    method AddTags(names: seq<string>)
      requires Valid()
      modifies this
      ensures State() == WithTags(old(State()), names) && Valid()
    {
      for i := 0 to |names|
        invariant State() == WithTags(old(State()), names[..i])
      {
        ghost var before := State();
        var name := names[i];
        if name !in tagNames {
          tagNames := tagNames + {name};
          tags := tags + [Tag(name, None)];
        }
        assert State() == WithTag(before, UndescribedTag(name));
        assert names[..i + 1][..i] == names[..i];
        WithTagsOneByOne(old(State()), names[..i + 1]);
      }
      assert names[..|names|] == names;
    }

    method AddTransaction(transaction: Transaction)
      requires Valid()
      modifies this
      ensures State() == WithTransaction(old(State()), transaction) && Valid()
    {
      transactions := transactions + [transaction];
    }

    function Build(): (p: Payload)
      reads this
      ensures p == BuildPayload(State())
    {
      Payload(categories, bankAccounts, tags, transactions)
    }
  }
}
