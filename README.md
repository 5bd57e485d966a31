# Finance tracker utilities, modelled in Dafny

The repository is a personal finance tracker. It ships two offline Python
utilities next to its web application, and this project models their logic:

- **The CSV converter** (`utils/csv-converter/csv-converter.py`). It turns
  spreadsheet exports into one JSON payload of categories, bank accounts, tags
  and transactions.
  - The field parsers (`parse_amount`, `parse_transaction_tags`,
    `parse_transaction_bank_account`) are pure functions over strings.
  - `PayloadBuilder` is a class. It holds a list per record kind plus a
    tracking set of keys, so that categories, accounts and tags are never listed
    twice.
  - `SavingsConverter.convert` and `TransactionConverter.convert` are loops over
    the CSV rows that feed the builder.
  - `exclude_if_none_factory` drops the `None` fields when the payload is
    serialised.
- **The backup utility's `prune` command** (`utils/backup-cli/main.py`). It
  decides which of the stored backups to delete:
  - it sorts the listing newest first, in place;
  - it selects every object older than a cutoff, then every object past the
    newest `keep`;
  - it removes repeated names through a dictionary;
  - it either lists the names (dry run) or builds the removal paths.

## How the model is organised

| file | module | what it holds |
|---|---|---|
| `wrappers.dfy` | `Wrappers` | `Option` and `Result` |
| `text.dfy` | `Text` | Python's `str.isspace`, `strip`, `replace(c, "")` and `split(c)` on `seq<char>` |
| `sequences.dfy` | `Sequences` | lists kept free of duplicates by a tracking set: `FreshKeys`, `Absorb` |
| `decimals.dfy` | `Decimals` | the numbers `float()` accepts, as exact decimals |
| `payload.dfy` | `Payload` | the dataclasses and `exclude_if_none_factory` |
| `builder.dfy` | `Builder` | `PayloadBuilder`: `Contents` and its step functions, and the class |
| `fields.dfy` | `Fields` | the three field parsers |
| `converters.dfy` | `Converters` | both converters |
| `prune.dfy` | `Prune` | the selection and path building of `prune_files` |

`PayloadBuilder` is a class whose methods update its seven fields in place.
Each method is proved against a pure function on a `Contents` value
(`WithCategory`, `WithTags`, …). Each method also keeps the class invariant
`Valid()`: every tracking set is exactly the set of keys of its list, and no
key occurs twice.

A conversion is described by the builder calls it makes, together with the
`ValueError` that stopped it, if one did. `SavingsConversion` and
`TransactionConversion` compute this as a `Run`. The `Convert` methods loop over
the rows and are proved to leave the builder in `Apply(old state, run.ops)` and
to return `run.error`. Lemmas about the `Run` then say which transactions are
added, which row raises, and when a file converts completely.

`prune_files` sorts an `array` in place. The sort is proved equal to a stable
newest-first sort, `SortNewestFirst`, which in turn is proved ordered, a
permutation and stable. The `to_delete` loop, the dictionary pass and the path loop are
methods proved against `Candidates`, `DedupByName` and `RemovalPaths`. The
selection properties are lemmas about `Selection`.

Where the docstrings and the code disagree, the model follows the code:

- The savings docstring says rows without an amount are skipped. The code parses
  the amount before it checks the category and the date, so a blank amount
  raises even on a row that would be skipped
  (`Converters.SavingsBlankAmountRaises`).
- The transaction docstring says spending rows are rows 2 to 13. The code has no
  upper bound, so every row from index 2 on is also read for spending, including
  the earning rows from index 14 on (`Converters.TransactionRow`).

## Model

| member | source | states |
|---|---|---|
| Text.Strip | utils/csv-converter/csv-converter.py:70 | the result of `strip()` neither starts nor ends with whitespace |
| Text.StripIgnoresPadding | utils/csv-converter/csv-converter.py:70 | whitespace added around a string does not change what `strip()` returns |
| Text.StripIdempotent | utils/csv-converter/csv-converter.py:70 | stripping twice is stripping once |
| Text.RemoveAll | utils/csv-converter/csv-converter.py:70 | `replace(c, "")` leaves no `c` and never lengthens the string |
| Text.RemoveAllCounts | utils/csv-converter/csv-converter.py:75 | `replace(c, "")` removes exactly the occurrences of `c` and keeps every other character |
| Text.RemoveAllIdempotent | utils/csv-converter/csv-converter.py:75 | removing a character twice is removing it once |
| Text.SplitJoin | utils/csv-converter/csv-converter.py:400 | `split(c)` undoes joining comma-free pieces with `c` |
| Decimals.FormatParseRoundTrip | utils/csv-converter/csv-converter.py:81 | `float()` of a decimal's text gives that decimal back |
| Decimals.ParseFloatIgnoresPadding | utils/csv-converter/csv-converter.py:81 | `float()` ignores whitespace around its argument |
| Decimals.ParseUnsignedPointed | utils/csv-converter/csv-converter.py:81 | digits around one '.', with at least one digit on either side, are accepted and valued as all the digits scaled by the number after the point |
| Decimals.ParseFloatPointed | utils/csv-converter/csv-converter.py:81 | `float()` of an optional sign, digits, '.', digits with at least one digit (".5", "-.25", "5.") is the digits' value scaled by the digits after the point, negated after '-' |
| Fields.ParseAmountPointed | utils/csv-converter/csv-converter.py:71-83 | such a text (".5", "-.25", "5.") is a valid amount with that value |
| Fields.ParseAmountPointedInParentheses | utils/csv-converter/csv-converter.py:71-83 | the same text in parentheses ("(.75)") is the negation of that value |
| Decimals.ParseFloatAccepts | utils/csv-converter/csv-converter.py:81 | `float()` accepts a text exactly when, stripped, it is an optional sign followed by digits with at most one '.' and at least one digit |
| Decimals.ParseUnsignedAccepts | utils/csv-converter/csv-converter.py:81 | the unsigned part is accepted exactly when it is digits with at most one '.' and at least one digit |
| Fields.ParseAmountIgnoresCommas | utils/csv-converter/csv-converter.py:70 | commas anywhere in the amount text do not change the result |
| Fields.ParseAmountIgnoresPadding | utils/csv-converter/csv-converter.py:70 | whitespace around the amount text does not change the result |
| Fields.BlankAmountIsEmpty | utils/csv-converter/csv-converter.py:70-78 | text of only whitespace and commas raises the empty-amount error |
| Fields.EmptyParenthesesAreEmpty | utils/csv-converter/csv-converter.py:71-78 | "()" raises the empty-amount error |
| Fields.EmptyAmountExactly | utils/csv-converter/csv-converter.py:70-78 | the empty-amount error is raised exactly when the text, without commas and stripped, is empty or is '(' followed only by parentheses |
| Fields.ParseAmountOutcome | utils/csv-converter/csv-converter.py:70-87 | of the text handed to `float()`: nothing left raises the empty-amount error, text `float()` refuses raises the invalid-amount error, and anything else parses |
| Fields.LettersAreInvalid | utils/csv-converter/csv-converter.py:80-85 | "12a" raises the invalid-amount error |
| Fields.BlankInParenthesesIsInvalid | utils/csv-converter/csv-converter.py:71-85 | "( )" raises the invalid-amount error, not the empty-amount one, because the blank between the parentheses is not empty |
| Fields.ParenthesesNegate | utils/csv-converter/csv-converter.py:71-83 | a parenthesised amount parses to the negation of the amount inside |
| Fields.ParseAmountOfFormatted | utils/csv-converter/csv-converter.py:70-87 | a decimal's text, padded with whitespace, parses to that decimal |
| Fields.ParseTagsNone | utils/csv-converter/csv-converter.py:400-401 | no tags exactly when every comma-separated piece is whitespace only |
| Fields.ParseTagsCount | utils/csv-converter/csv-converter.py:400-401 | when there are tags, there is one per comma-separated field, blanks included |
| Fields.ParseTagsOfJoined | utils/csv-converter/csv-converter.py:400-401 | joining comma-free pieces with commas and parsing gives the stripped pieces |
| Fields.ParseBankAccountTable | utils/csv-converter/csv-converter.py:365-378 | exactly the six codes are known, each maps to its account without description, and any other code raises with that code |
| Payload.ExcludeIfNone | utils/csv-converter/csv-converter.py:567 | the dictionary holds only keys of the pairs |
| Payload.ExcludeIfNoneLastWins | utils/csv-converter/csv-converter.py:567 | a pair with a value that no later pair of the same key overrides decides that key's entry |
| Payload.ExcludeIfNoneDrops | utils/csv-converter/csv-converter.py:567 | a key whose every pair is `None` is absent |
| Payload.TransactionRecord | utils/csv-converter/csv-converter.py:567 | a transaction's JSON object always has its five mandatory fields with their values, and has "tags" and "notes" exactly when they are set |
| Payload.CategoryRecord | utils/csv-converter/csv-converter.py:567 | a category's JSON object has "type" and "name", and has "description" exactly when it is set |
| Payload.NamedRecord | utils/csv-converter/csv-converter.py:567 | a bank account's or tag's JSON object has "name", and has "description" exactly when it is set |
| Sequences.FreshKeys | utils/csv-converter/csv-converter.py:191-194 | the names `add_tags` appends are distinct, and are exactly the given names not seen before |
| Sequences.FreshKeysInFirstOccurrenceOrder | utils/csv-converter/csv-converter.py:191-194 | those names come in the order in which they first occur in the list |
| Builder.WithCategory | utils/csv-converter/csv-converter.py:137-140 | `add_category` keeps the builder valid and adds the (name, type) key; a new key appends the category at the end of the list; a known key changes nothing; no other field changes |
| Builder.WithBankAccount | utils/csv-converter/csv-converter.py:155-158 | `add_bank_account` keeps the builder valid and adds the name; a new name appends the account at the end of the list; a known name changes nothing; no other field changes |
| Builder.WithTag | utils/csv-converter/csv-converter.py:173-176 | `add_tag` keeps the builder valid and adds the name; a new name appends the tag at the end of the list; a known name changes nothing; no other field changes |
| Builder.WithTags | utils/csv-converter/csv-converter.py:191-196 | `add_tags` keeps the builder valid, adds all the names to the tracking set, and changes no other field |
| Builder.WithTagsAppendsFresh | utils/csv-converter/csv-converter.py:191-194 | `add_tags` keeps the old tags and appends undescribed tags named by the fresh names |
| Builder.WithTagsOneByOne | utils/csv-converter/csv-converter.py:191-194 | adding a list of names is adding an undescribed tag for each name in turn |
| Builder.WithTagsConcat | utils/csv-converter/csv-converter.py:191-196 | one `add_tags` call with two lists joined is a call with the first list followed by a call with the second |
| Builder.WithTransaction | utils/csv-converter/csv-converter.py:211-212 | `add_transaction` appends exactly the transaction and changes nothing else |
| Builder.AddTwiceIsAddOnce | utils/csv-converter/csv-converter.py:137-176 | adding the same category, account or tag twice is adding it once |
| Builder.BuildPayload | utils/csv-converter/csv-converter.py:225-230 | `build` returns the builder's four lists as they stand, which are in insertion order because every add appends; on a valid builder, none repeats a key |
| Builder.Apply | utils/csv-converter/csv-converter.py:116-212 | a sequence of builder calls appends exactly the transactions among them, in order |
| Builder.ApplyKeepsValid | utils/csv-converter/csv-converter.py:116-212 | any sequence of builder calls keeps a valid builder valid |
| Builder.PayloadBuilder.constructor | utils/csv-converter/csv-converter.py:116-122 | a new builder is empty and valid |
| Builder.PayloadBuilder.AddCategory | utils/csv-converter/csv-converter.py:137-140 | updates the fields in place as `WithCategory` says and keeps the builder valid |
| Builder.PayloadBuilder.AddBankAccount | utils/csv-converter/csv-converter.py:155-158 | updates the fields in place as `WithBankAccount` says and keeps the builder valid |
| Builder.PayloadBuilder.AddTag | utils/csv-converter/csv-converter.py:173-176 | updates the fields in place as `WithTag` says and keeps the builder valid |
| Builder.PayloadBuilder.AddTags | utils/csv-converter/csv-converter.py:191-196 | the loop over the names updates the fields as `WithTags` says and keeps the builder valid |
| Builder.PayloadBuilder.AddTransaction | utils/csv-converter/csv-converter.py:211-212 | updates the fields in place as `WithTransaction` says and keeps the builder valid |
| Builder.PayloadBuilder.Build | utils/csv-converter/csv-converter.py:225-230 | returns the payload of the builder's current lists |
| Converters.Field | utils/csv-converter/csv-converter.py:314-317 | a field read with `.strip()` neither starts nor ends with whitespace |
| Converters.SequencedCompletes | utils/csv-converter/csv-converter.py:313-339 | a conversion completes exactly when no row raises |
| Converters.SequencedFirstError | utils/csv-converter/csv-converter.py:313-316 | the first row that raises decides the error |
| Converters.SequencedStop | utils/csv-converter/csv-converter.py:313-316 | once some rows have raised, the rows after them change neither the calls nor the error |
| Converters.SavingsShortFile | utils/csv-converter/csv-converter.py:305-311 | a savings file of four rows or fewer makes no call and raises nothing |
| Converters.SavingsStepOutcome | utils/csv-converter/csv-converter.py:314-339 | a savings row raises exactly when its amount does not parse, and then makes no call; otherwise, when the category and date are present, it adds the "save" category, then the account, then one transaction, with notes only when they are not blank; when either is absent it makes no call |
| Converters.SavingsBlankAmountRaises | utils/csv-converter/csv-converter.py:316-320 | a savings row with a blank amount raises the empty-amount error, even a row without category or date |
| Converters.SavingsFirstBadAmount | utils/csv-converter/csv-converter.py:313-316 | the first row past the header whose amount does not parse ends the conversion with that error |
| Converters.SavingsCompletes | utils/csv-converter/csv-converter.py:313-316 | a savings conversion completes exactly when every amount past the header parses |
| Converters.SavingsTransactionsShaped | utils/csv-converter/csv-converter.py:320-339 | every savings transaction is a "save" with the converter's account, no tags, a non-empty stripped category and date, and notes that are absent or non-empty |
| Converters.SavingsConverter.constructor | utils/csv-converter/csv-converter.py:270-273 | a new converter has an empty, valid builder, the type "save" and the named account without description; the name defaults to "Savings Account" |
| Converters.SavingsConverter.Convert | utils/csv-converter/csv-converter.py:302-339 | the loop makes exactly the calls `SavingsConversion` lists and returns its error |
| Converters.SavingsConverter.ConvertRow | utils/csv-converter/csv-converter.py:314-339 | one row's body makes exactly that row's calls and returns its error |
| Converters.SavingsConverter.GetPayload | utils/csv-converter/csv-converter.py:247-248 | returns what `build` returns for the current builder |
| Converters.TransactionHeaderRows | utils/csv-converter/csv-converter.py:490-493 | rows 0 and 1 make no call and cannot raise |
| Converters.TransactionSpendOnlyRows | utils/csv-converter/csv-converter.py:490-524 | rows 2 to 13 make exactly the calls of their spending half and raise exactly when it does |
| Converters.SpendStepOutcome | utils/csv-converter/csv-converter.py:493-522 | the spending half: it makes no call without a date, a category or an amount; otherwise it raises on an unknown code before any call, or it makes exactly these calls: the category, the account and the tags, then a "spend" with the parsed tags unless the amount raises |
| Converters.EarnStepOutcome | utils/csv-converter/csv-converter.py:524-550 | the earning half: it makes no call without a category or an amount; otherwise it makes exactly these calls: the category and Barclays, then an "earn" dated with the earn date unless the amount raises |
| Converters.UnknownCodeAborts | utils/csv-converter/csv-converter.py:498-501 | a complete spending row with an unknown bank code, after rows that all went through, stops the conversion with that code |
| Converters.TransactionRowShaped | utils/csv-converter/csv-converter.py:491-550 | every transaction of one row is a well-formed spend or earn |
| Converters.TransactionsShaped | utils/csv-converter/csv-converter.py:484-550 | every transaction of a conversion is a "spend" with a stripped date and a named account, or an "earn" dated with row 1's earn date on Barclays without tags |
| Converters.TransactionConverter.constructor | utils/csv-converter/csv-converter.py:433-434 | a new converter has an empty, valid builder |
| Converters.TransactionConverter.Convert | utils/csv-converter/csv-converter.py:489-550 | the loop, carrying the earn date read at index 1, makes exactly the calls `TransactionConversion` lists and returns its error |
| Converters.TransactionConverter.ConvertRow | utils/csv-converter/csv-converter.py:491-550 | the body for row `idx` makes exactly that row's calls and returns its error |
| Converters.TransactionConverter.AddSpending | utils/csv-converter/csv-converter.py:494-522 | the spending block makes exactly the spending half's calls and returns its error |
| Converters.TransactionConverter.AddEarning | utils/csv-converter/csv-converter.py:525-550 | the earning block makes exactly the earning half's calls and returns its error |
| Converters.TransactionConverter.GetPayload | utils/csv-converter/csv-converter.py:247-248 | returns what `build` returns for the current builder |
| Prune.SortNewestFirstOrders | utils/backup-cli/main.py:52 | the sort leaves no object newer than one before it |
| Prune.SortNewestFirstPermutes | utils/backup-cli/main.py:52 | the sort only reorders the listing |
| Prune.SortNewestFirstStable | utils/backup-cli/main.py:52 | the sort is stable: objects sharing a timestamp come out in their listed order |
| Prune.SortNewestFirstKeepsDistinct | utils/backup-cli/main.py:52 | a listing without repeats has none after sorting |
| Prune.SortInPlace | utils/backup-cli/main.py:52 | the in-place sort of the array leaves it as the stable newest-first sort of its old contents |
| Prune.InsertInPlace | utils/backup-cli/main.py:52 | one insertion step places the next object behind every object at least as new |
| Prune.OlderThan | utils/backup-cli/main.py:60-63 | an object is gathered by the age loop exactly when it is listed and older than the cutoff |
| Prune.LastByName | utils/backup-cli/main.py:68-70 | every gathered name has an entry, and each entry is a gathered object carrying its key as name |
| Prune.LastByNameLastWins | utils/backup-cli/main.py:68-70 | a name's entry is the last object gathered with that name |
| Prune.DedupByName | utils/backup-cli/main.py:68-70 | the values hold each name once, in first-occurrence order, and only gathered objects |
| Prune.DedupByNameKeepsAll | utils/backup-cli/main.py:68-70 | when names identify objects, an object is kept exactly when it was gathered |
| Prune.RemovalPaths | utils/backup-cli/main.py:78 | one path per selected object, exactly the prefix, "/" and its name |
| Prune.SelectionListed | utils/backup-cli/main.py:51-70 | every deleted object was listed |
| Prune.OlderSelected | utils/backup-cli/main.py:56-63 | with `days` non-zero, every listed object older than the cutoff has its name deleted |
| Prune.BeyondKeepSelected | utils/backup-cli/main.py:52-66 | with `keep` non-zero, every object past the newest `keep` has its name deleted |
| Prune.SelectionExactly | utils/backup-cli/main.py:51-70 | with unique names, an object is deleted exactly when it is listed and is older than the cutoff (`days` non-zero) or past the newest `keep` (`keep` non-zero) |
| Prune.KeptNotSelected | utils/backup-cli/main.py:56-70 | with unique names, an object among the newest `keep` that is not older than the cutoff is never deleted |
| Prune.NothingSelectedWhenDisabled | utils/backup-cli/main.py:56-66 | with `keep` and `days` both zero nothing is deleted |
| Prune.CollectCandidates | utils/backup-cli/main.py:56-66 | the age loop and the `extend` gather exactly `Candidates` |
| Prune.Deduplicate | utils/backup-cli/main.py:68-70 | the dictionary pass over `to_delete` gives exactly `DedupByName` |
| Prune.BuildRemovalPaths | utils/backup-cli/main.py:78 | the paths are exactly `RemovalPaths` of `args.path or ''` |
| Prune.PruneFiles | utils/backup-cli/main.py:51-79 | the listing ends up sorted newest first; a dry run asks only to list the selected names, and otherwise the removal asks for exactly their paths |

## Left out

- File reading and `csv.DictReader` are not modelled. A file is the sequence of rows the reader yields, each a map from field name to cell text. A missing field reads as "", which is the `.get` default. A short line, where the reader puts `None` in a field and `.strip()` fails, is not modelled.
- `float()` is modelled on decimal text only: an optional sign, digits and at most one point. Exponents, `inf`/`nan`, underscores, non-ASCII digits and IEEE rounding are not modelled, and amounts are exact decimals.
- The error messages are not modelled. A `ValueError` is one of three kinds, and only the unknown bank code keeps its text.
- Method chaining (`return self`) is not modelled: the builder methods return nothing and the converters call them one by one.
- `json.dumps`, key order and indentation are not modelled. `asdict` is modelled as the field pairs that `exclude_if_none_factory` receives. The command lines (`argparse`, `__main__`, `main`), logging and the printing of results are not modelled.
- Builder.BuildPayload returns a copy of the builder's lists. The source's `build` returns the builder's own lists, so an `add_*` call after `build()` would also change a payload already returned. The model does not capture this sharing. It makes no difference here, because the payload is built once, after the conversion has finished.
- A `ValueError` ends a conversion. `Convert` returns it as a value, and the builder keeps the calls made before it, as in the source. The caller that catches it in `__main__` is not modelled.
- `BaseConverter` is not modelled as a class of its own. Its builder field and `get_payload` are members of both converter classes.
- The row bodies of both `convert` loops are split into methods: `ConvertRow`, `AddSpending` and `AddEarning`. The earn date is an `Option<string>`, `None` until row 1 is read, as in the source.
- The storage client is not modelled: its `list` call is the array passed in, and its `remove` call is the `Remove` request returned. The printing of the deleted names from the response is not modelled.
- `datetime.now()` is not modelled: the current time is a parameter. `strptime` is not modelled: timestamps are integers in microseconds. Time zones are not modelled. The source sorts on the timestamp text, while the model sorts on the integer. This assumes that the storage service writes every timestamp with the same number of fractional digits. `%f` also accepts one to six digits, and with mixed widths the text order can differ from the time order ("...:00.5Z" sorts after "...:00.51Z" although it is earlier), so the model's order can then differ from the source's.
- Prune.Cutoff subtracts with unbounded integers, so it never fails. In the source, `datetime.now() - timedelta(days=...)` raises `OverflowError` when `days` is out of range: beyond the 999999999 days a `timedelta` holds, or far enough (about 739000 days from now) to put the cutoff before year 1. The model does not capture this error.
- The `list`, `upload` and `get_client` commands are not modelled, and neither are the environment variables.
- Prune.SelectionExactly and Prune.KeptNotSelected require unique names in the listing. With repeated names, the dictionary keeps only the last object per name, and the model states this instead through Prune.LastByNameLastWins and Prune.OlderSelected, which speak of names.
- The builder and converter methods require `Valid()`. The source has no such check; the constructors establish `Valid()` and every method keeps it, so no object reachable through the class fails it.
