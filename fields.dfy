/**
 * The converter's field parsers: `parse_amount`, `parse_transaction_tags` and
 * `parse_transaction_bank_account`.
 */
module Fields {
  import opened Wrappers
  import opened Text
  import opened Sequences
  import opened Decimals
  import opened Payload

  /** The `ValueError`s the parsers raise; the message text is kept only for an unknown code. */
  datatype ValueError =
    | EmptyAmount
    | InvalidAmount
    | UnknownBankAccountCode(code: string)

  /**
   * `parse_amount`: commas removed and the text stripped; a text that then
   * starts with '(' is negative and loses all its parentheses; nothing left is
   * an error, and so is a rest that `float()` refuses.
   */
  function ParseAmount(s: string): Result<Decimal, ValueError> {
    AmountOfCleaned(Strip(RemoveAll(s, ',')))
  }

  function AmountOfCleaned(cleaned: string): Result<Decimal, ValueError> {
    var negative := cleaned != [] && cleaned[0] == '(';
    var body := if negative then RemoveAll(RemoveAll(cleaned, '('), ')') else cleaned;
    if body == [] then Err(EmptyAmount)
    else
      match ParseFloat(body)
      case None => Err(InvalidAmount)
      case Some(d) => Ok(if negative then Negate(d) else d)
  }

  /** Commas are ignored wherever they stand. */
  lemma ParseAmountIgnoresCommas(s: string)
    ensures ParseAmount(s) == ParseAmount(RemoveAll(s, ','))
  {
    RemoveAllIdempotent(s, ',');
  }

  /** Whitespace around the amount is ignored. */
  lemma ParseAmountIgnoresPadding(w1: string, s: string, w2: string)
    requires AllSpace(w1) && AllSpace(w2)
    ensures ParseAmount(w1 + s + w2) == ParseAmount(s)
  {
    CleaningIgnoresPadding(w1, s, w2);
  }

  lemma CleaningIgnoresPadding(w1: string, s: string, w2: string)
    requires AllSpace(w1) && AllSpace(w2)
    ensures Strip(RemoveAll(w1 + s + w2, ',')) == Strip(RemoveAll(s, ','))
  {
    SpaceHasNoComma(w1);
    SpaceHasNoComma(w2);
    RemoveAllConcat(w1 + s, w2, ',');
    RemoveAllConcat(w1, s, ',');
    RemoveAllAbsent(w1, ',');
    RemoveAllAbsent(w2, ',');
    StripIgnoresPadding(w1, RemoveAll(s, ','), w2);
  }

  lemma SpaceHasNoComma(w: string)
    requires AllSpace(w)
    ensures ',' !in w
  {
    PrintableIsNotSpace(',');
  }

  /** Nothing but whitespace and commas is an empty amount. */
  lemma BlankAmountIsEmpty(s: string)
    requires forall i :: 0 <= i < |s| ==> IsSpace(s[i]) || s[i] == ','
    ensures ParseAmount(s) == Err(EmptyAmount)
  {
    var t := RemoveAll(s, ',');
    RemoveAllCounts(s, ',');
    assert AllSpace(t) by {
      forall i | 0 <= i < |t| ensures IsSpace(t[i]) {
        assert t[i] in multiset(t);
        var j :| 0 <= j < |s| && s[j] == t[i];
      }
    }
    assert "" + "" + t == t;
    StripOfPadded("", "", t);
  }

  /** "()" is an empty amount: the parentheses go and nothing is left. */
  lemma EmptyParenthesesAreEmpty()
    ensures ParseAmount("()") == Err(EmptyAmount)
  {
    var p := "()";
    PrintableIsStripped(p);
    RemoveAllAbsent(p, ',');
    RemoveAllConcat("(", ")", '(');
    RemoveAllConcat("(", ")", ')');
    assert p == "(" + ")";
    RemoveAllAbsent(")", '(');
    assert RemoveAll(p, '(') == ")";
    assert RemoveAll(")", ')') == [] by {
      assert ")"[1..] == [];
    }
  }

  /**
   * What `parse_amount` decides from the text it hands to `float()`: nothing
   * left is an empty amount, text `float()` refuses is an invalid amount, and
   * anything else parses.
   */
  lemma ParseAmountOutcome(s: string)
    ensures var c := Strip(RemoveAll(s, ','));
      var body := if c != [] && c[0] == '(' then RemoveAll(RemoveAll(c, '('), ')') else c;
      && (ParseAmount(s) == Err(EmptyAmount) <==> body == [])
      && (ParseAmount(s) == Err(InvalidAmount) <==> body != [] && !FloatText(Strip(body)))
      && (ParseAmount(s).Ok? <==> body != [] && FloatText(Strip(body)))
  {
    var c := Strip(RemoveAll(s, ','));
    var body := if c != [] && c[0] == '(' then RemoveAll(RemoveAll(c, '('), ')') else c;
    ParseFloatAccepts(body);
  }

  predicate AllParentheses(c: string) {
    forall i :: 0 <= i < |c| ==> c[i] == '(' || c[i] == ')'
  }

  /** Removing both kinds of parenthesis leaves nothing exactly when there is nothing else. */
  lemma {:induction false} OnlyParentheses(c: string)
    ensures RemoveAll(RemoveAll(c, '('), ')') == [] <==> AllParentheses(c)
    decreases |c|
  {
    if c != [] {
      var rest := c[1..];
      OnlyParentheses(rest);
      var head: string := if c[0] == '(' then [] else [c[0]];
      assert RemoveAll(c, '(') == head + RemoveAll(rest, '(');
      RemoveAllConcat(head, RemoveAll(rest, '('), ')');
      assert RemoveAll(head, ')') == if c[0] == '(' || c[0] == ')' then [] else [c[0]] by {
        if head != [] {
          assert head[1..] == [];
        }
      }
      assert AllParentheses(c) <==> (c[0] == '(' || c[0] == ')') && AllParentheses(rest) by {
        assert forall i :: 0 < i < |c| ==> c[i] == rest[i - 1];
      }
    }
  }

  /**
   * The empty-amount error is raised exactly when the text, without commas and
   * stripped, is empty or is '(' followed by parentheses only.
   */
  lemma EmptyAmountExactly(s: string)
    ensures var c := Strip(RemoveAll(s, ','));
      (ParseAmount(s) == Err(EmptyAmount) <==> c == [] || (c[0] == '(' && AllParentheses(c)))
  {
    OnlyParentheses(Strip(RemoveAll(s, ',')));
  }

  /** Text that is neither empty nor a number, such as "12a", is an invalid amount. */
  lemma LettersAreInvalid()
    ensures ParseAmount("12a") == Err(InvalidAmount)
  {
    var a := "12a";
    assert Strip(a) == a && Strip(RemoveAll(a, ',')) == a by {
      RemoveAllAbsent(a, ',');
      PrintableIsStripped(a);
    }
    assert !FloatText(a) by {
      assert a[2] in a[0..] && a[2] in a[1..] && !IsDigit(a[2]) && a[2] != '.';
    }
    CleanNumberlessIsInvalid(a);
  }

  /** Clean text without a parenthesis in front that `float()` refuses is an invalid amount. */
  lemma CleanNumberlessIsInvalid(a: string)
    requires Strip(RemoveAll(a, ',')) == a && Strip(a) == a
    requires a != [] && a[0] != '(' && !FloatText(a)
    ensures ParseAmount(a) == Err(InvalidAmount)
  {
    ParseAmountOutcome(a);
  }

  /** Parentheses around nothing but whitespace, "( )", are an invalid amount, not an empty one. */
  lemma BlankInParenthesesIsInvalid()
    ensures ParseAmount("( )") == Err(InvalidAmount)
  {
    var p := "( )";
    assert Strip(RemoveAll(p, ',')) == p && p[0] == '(' by {
      RemoveAllAbsent(p, ',');
      PrintableIsStripped(p);
    }
    assert RemoveAll(RemoveAll(p, '('), ')') == " " by {
      assert p == "(" + " " + ")";
      ParenthesesRemoved(" ");
    }
    assert !FloatText(Strip(" ")) by {
      StripEmptyIffSpace(" ");
    }
    ParenthesizedNumberlessIsInvalid(p, " ");
  }

  /** Text in parentheses whose inside `float()` refuses is an invalid amount. */
  lemma ParenthesizedNumberlessIsInvalid(p: string, body: string)
    requires Strip(RemoveAll(p, ',')) == p && p != [] && p[0] == '('
    requires RemoveAll(RemoveAll(p, '('), ')') == body && body != [] && !FloatText(Strip(body))
    ensures ParseAmount(p) == Err(InvalidAmount)
  {
    ParseAmountOutcome(p);
  }

  /** Parentheses around an amount negate it. */
  lemma ParenthesesNegate(x: string, d: Decimal)
    requires '(' !in x && ')' !in x && ',' !in x
    requires ParseAmount(x) == Ok(d)
    ensures ParseAmount("(" + x + ")") == Ok(Negate(d))
  {
    RemoveAllAbsent(x, ',');
    var t := Strip(x);
    assert AmountOfCleaned(t) == Ok(d);
    assert t != [];
    assert t[0] != '(' by {
      var front, back := StripDecomposes(x);
      assert t[0] == x[|front|];
    }
    assert ParseFloat(t) == Some(d);
    ParseFloatOfStripped(x);
    ParenthesizedClean(x);
  }

  /** `float()` strips its argument itself. */
  lemma ParseFloatOfStripped(x: string)
    ensures ParseFloat(Strip(x)) == ParseFloat(x)
  {
    StripIdempotent(x);
  }

  /** The text "(" + x + ")" cleans to itself, and its body without the parentheses is `x`. */
  lemma ParenthesizedClean(x: string)
    requires '(' !in x && ')' !in x && ',' !in x
    ensures var p := "(" + x + ")";
      && Strip(RemoveAll(p, ',')) == p
      && RemoveAll(RemoveAll(p, '('), ')') == x
  {
    ParenthesizedKeepsCommaFree(x);
    ParenthesesRemoved(x);
  }

  lemma ParenthesizedKeepsCommaFree(x: string)
    requires ',' !in x
    ensures Strip(RemoveAll("(" + x + ")", ',')) == "(" + x + ")"
  {
    var p := "(" + x + ")";
    RemoveAllAround(x, ',');
    RemoveAllAbsent("(", ',');
    RemoveAllAbsent(")", ',');
    assert RemoveAll(p, ',') == p;
    PrintableIsStripped(p);
  }

  lemma ParenthesesRemoved(x: string)
    requires '(' !in x && ')' !in x
    ensures RemoveAll(RemoveAll("(" + x + ")", '('), ')') == x
  {
    RemoveAllAround(x, '(');
    RemoveAllAbsent(")", '(');
    RemoveAllOwn('(');
    assert RemoveAll("(" + x + ")", '(') == x + ")";
    RemoveAllConcat(x, ")", ')');
    RemoveAllAbsent(x, ')');
    RemoveAllOwn(')');
    assert x + [] == x;
  }

  lemma RemoveAllOwn(c: char)
    ensures RemoveAll([c], c) == []
  {
    assert [c][1..] == [];
  }

  /** Removing a character `x` lacks from "(" + x + ")" leaves `x` within what stays of the parentheses. */
  lemma RemoveAllAround(x: string, c: char)
    requires c !in x
    ensures RemoveAll("(" + x + ")", c) == RemoveAll("(", c) + x + RemoveAll(")", c)
  {
    assert "(" + x + ")" == "(" + (x + ")");
    RemoveAllConcat("(", x + ")", c);
    RemoveAllConcat(x, ")", c);
    RemoveAllAbsent(x, c);
  }

  /** An amount `FormatDecimal` writes, padded with whitespace, parses to itself. */
  lemma ParseAmountOfFormatted(w1: string, d: Decimal, w2: string)
    requires AllSpace(w1) && AllSpace(w2)
    ensures ParseAmount(w1 + FormatDecimal(d) + w2) == Ok(d)
  {
    ParseAmountIgnoresPadding(w1, FormatDecimal(d), w2);
    var whole, fraction := FormatDecimalShape(d);
    var s := FormatDecimal(d);
    FormattedHasNoMarks(d, whole, fraction, s);
    RemoveAllAbsent(s, ',');
    FormatParseRoundTrip(d);
    var body := whole + (if d.scale == 0 then "" else "." + fraction);
    var signed := SignedBody(d, whole, fraction, body, s);
    PrintableIsStripped(s);
  }

  /**
   * An amount of digits around a '.', with at least one digit and an optional
   * sign (".5", "-.25", "5."), parses to what `float()` makes of it.
   */
  lemma ParseAmountPointed(sign: string, whole: string, fraction: string)
    requires sign == "" || sign == "+" || sign == "-"
    requires AllDigits(whole) && AllDigits(fraction) && |whole| + |fraction| >= 1
    ensures AllDigits(whole + fraction)
    ensures var u := Decimal(DigitsValue(whole + fraction), |fraction|);
      ParseAmount(sign + whole + "." + fraction) == Ok(if sign == "-" then Negate(u) else u)
  {
    var s := sign + whole + "." + fraction;
    var u := Decimal(DigitsValue(whole + fraction), |fraction|);
    ParseFloatPointed(sign, whole, fraction);
    assert ParseAmount(s) == Ok(if sign == "-" then Negate(u) else u) by {
      var body := whole + "." + fraction;
      Regroup(sign, whole, ".", fraction);
      PointedShape(sign, whole, fraction, body, s);
      PointedHasNoMarks(sign, whole, fraction, s);
      PlainAmount(s, if sign == "-" then Negate(u) else u);
    }
  }

  lemma Regroup(a: string, b: string, c: string, d: string)
    ensures a + b + c + d == a + (b + c + d)
  { }

  /** The same text in parentheses ("(.75)", "(-2.5)") is negated. */
  lemma ParseAmountPointedInParentheses(sign: string, whole: string, fraction: string)
    requires sign == "" || sign == "+" || sign == "-"
    requires AllDigits(whole) && AllDigits(fraction) && |whole| + |fraction| >= 1
    ensures AllDigits(whole + fraction)
    ensures var u := Decimal(DigitsValue(whole + fraction), |fraction|);
      ParseAmount("(" + (sign + whole + "." + fraction) + ")") == Ok(Negate(if sign == "-" then Negate(u) else u))
  {
    var s := sign + whole + "." + fraction;
    var u := Decimal(DigitsValue(whole + fraction), |fraction|);
    var v := if sign == "-" then Negate(u) else u;
    ParseAmountPointed(sign, whole, fraction);
    assert ParseAmount("(" + s + ")") == Ok(Negate(v)) by {
      PointedHasNoMarks(sign, whole, fraction, s);
      ParenthesesNegate(s, v);
    }
  }

  lemma PointedHasNoMarks(sign: string, whole: string, fraction: string, s: string)
    requires sign == "" || sign == "+" || sign == "-"
    requires AllDigits(whole) && AllDigits(fraction)
    requires s == sign + whole + "." + fraction
    ensures ',' !in s && '(' !in s && ')' !in s
  {
    forall i | 0 <= i < |s| ensures s[i] != ',' && s[i] != '(' && s[i] != ')' {
      if i < |sign| {
      } else if i < |sign| + |whole| {
        assert s[i] == whole[i - |sign|];
      } else if i > |sign| + |whole| {
        assert s[i] == fraction[i - |sign| - |whole| - 1];
      }
    }
  }

  /** Stripped text without commas or a '(' goes to `float()` as it is. */
  lemma PlainAmount(s: string, d: Decimal)
    requires ',' !in s && '(' !in s && Strip(s) == s && s != []
    requires ParseFloat(s) == Some(d)
    ensures ParseAmount(s) == Ok(d)
  {
    RemoveAllAbsent(s, ',');
    assert s[0] in s;
  }

  /** Formatted amounts contain no comma and no parenthesis. */
  lemma FormattedHasNoMarks(d: Decimal, whole: string, fraction: string, s: string)
    requires AllDigits(whole) && AllDigits(fraction) && |whole| >= 1
    requires s == (if d.units < 0 then "-" else "") + whole + (if d.scale == 0 then "" else "." + fraction)
    ensures ',' !in s && '(' !in s && ')' !in s
  {
    forall i | 0 <= i < |s| ensures s[i] != ',' && s[i] != '(' && s[i] != ')' {
      var sign: string := if d.units < 0 then "-" else "";
      var tail: string := if d.scale == 0 then "" else "." + fraction;
      assert s == sign + whole + tail;
      if i < |sign| {
      } else if i < |sign| + |whole| {
        assert s[i] == whole[i - |sign|];
      } else {
        assert s[i] == tail[i - |sign| - |whole|];
      }
    }
  }

  /**
   * `parse_transaction_tags`: the comma-separated pieces, each stripped, or
   * `None` when every piece is blank.
   */
  function ParseTags(s: string): Option<seq<string>> {
    var pieces := Project(Split(s, ','), Strip);
    if exists i :: 0 <= i < |pieces| && pieces[i] != [] then Some(pieces) else None
  }

  /** `None` exactly when every comma-separated piece is whitespace only. */
  lemma ParseTagsNone(s: string)
    ensures ParseTags(s) == None <==> forall p :: p in Split(s, ',') ==> AllSpace(p)
  {
    var ps := Split(s, ',');
    forall i | 0 <= i < |ps| ensures Strip(ps[i]) == [] <==> AllSpace(ps[i]) {
      StripEmptyIffSpace(ps[i]);
    }
  }

  lemma StripEmptyIffSpace(s: string)
    ensures Strip(s) == [] <==> AllSpace(s)
  {
    var front, back := StripDecomposes(s);
    if Strip(s) == [] {
      assert s == front + back;
      AllSpaceConcat(front, back);
    } else if AllSpace(s) {
      assert "" + "" + s == s;
      StripOfPadded("", "", s);
    }
  }

  /** One tag per comma-separated field, so one more than the commas. */
  lemma ParseTagsCount(s: string)
    requires ParseTags(s).Some?
    ensures |ParseTags(s).value| == multiset(s)[','] + 1
  {
    SplitCount(s, ',');
  }

  lemma {:induction false} SplitCount(s: string, sep: char)
    ensures |Split(s, sep)| == multiset(s)[sep] + 1
  {
    if s != [] {
      SplitCount(s[1..], sep);
      assert s == [s[0]] + s[1..];
      assert multiset(s) == multiset([s[0]]) + multiset(s[1..]);
    }
  }

  /**
   * Joining tag pieces with commas and parsing gives back the stripped pieces,
   * when no piece holds a comma and some piece is not blank.
   */
  lemma ParseTagsOfJoined(pieces: seq<string>)
    requires |pieces| >= 1
    requires forall p :: p in pieces ==> ',' !in p
    requires exists i :: 0 <= i < |pieces| && Strip(pieces[i]) != []
    ensures ParseTags(Join(pieces, ',')) == Some(Project(pieces, Strip))
  {
    SplitJoin(pieces, ',');
    var i :| 0 <= i < |pieces| && Strip(pieces[i]) != [];
    assert Project(pieces, Strip)[i] != [];
  }

  /** The bank-account code table. */
  const BankAccountCodes: map<string, string> := map[
    "" := "NatWest",
    "B" := "Barclays",
    "W" := "Wise Virtual Card",
    "X" := "AmEx",
    "M" := "Monzo",
    "A" := "Wise Virtual Card"
  ]

  /** `parse_transaction_bank_account`: the named account, or an error for an unknown code. */
  function ParseBankAccount(code: string): Result<BankAccount, ValueError> {
    if code in BankAccountCodes && BankAccountCodes[code] != "" then Ok(BankAccount(BankAccountCodes[code], None))
    else Err(UnknownBankAccountCode(code))
  }

  /** Exactly the six codes of the table are known, each to its account, without description. */
  lemma ParseBankAccountTable(code: string)
    ensures ParseBankAccount(code).Ok? <==> code in {"", "B", "W", "X", "M", "A"}
    ensures code == "" ==> ParseBankAccount(code) == Ok(BankAccount("NatWest", None))
    ensures code == "B" ==> ParseBankAccount(code) == Ok(BankAccount("Barclays", None))
    ensures code == "X" ==> ParseBankAccount(code) == Ok(BankAccount("AmEx", None))
    ensures code == "M" ==> ParseBankAccount(code) == Ok(BankAccount("Monzo", None))
    ensures code in {"W", "A"} ==> ParseBankAccount(code) == Ok(BankAccount("Wise Virtual Card", None))
    ensures ParseBankAccount(code).Err? ==> ParseBankAccount(code).error == UnknownBankAccountCode(code)
  {
  }
}
