/**
 * The grammar of the restricted CEL language, and that the parser accepts exactly the token lists that this
 * grammar derives, each as the tree it derives.
 */
module CelGrammar {
  import opened Common
  import opened CelTokenizer
  import opened CelParser
  import opened CelRoundTrip
  import opened CelLexing

  /******* The grammar *******/

  /**
   * The tokens from `i` up to `j` are the expression `e`: level 0 is the conditional, levels 1 to 6 are the
   * binary operators, which associate to the left, level 7 the prefix operators and level 8 the rest.
   * Brackets, commas, colons and question marks are recognised by their value, whatever kind of token has it.
   */
  ghost predicate Derives(level: nat, e: Expr, ts: seq<Token>, i: nat, j: nat, v: string)
    decreases if i <= j then j - i else 0, if level <= 8 then 8 - level else 0, 1
  {
    i < j < |ts| &&
    if level == 0 then Derives(1, e, ts, i, j, v) || IsConditional(e, ts, i, j, v)
    else if level <= 6 then Derives(level + 1, e, ts, i, j, v) || IsBinary(level, e, ts, i, j, v)
    else if level == 7 then Derives(8, e, ts, i, j, v) || IsUnary(e, ts, i, j, v)
    else
      || IsAtom(e, ts, i, j, v) || IsParenthesised(e, ts, i, j, v)
      || IsArray(e, ts, i, j, v) || IsObject(e, ts, i, j, v)
  }

  ghost predicate IsConditional(e: Expr, ts: seq<Token>, i: nat, j: nat, v: string)
    requires i < j < |ts|
    decreases j - i, 8, 0
  {
    && e.Conditional?
    && exists q: nat, k: nat ::
         && i < q < k < j && ts[q].value == "?" && ts[k].value == ":"
         && Derives(1, e.condition, ts, i, q, v)
         && Derives(0, e.whenTrue, ts, q + 1, k, v) && Derives(0, e.whenFalse, ts, k + 1, j, v)
  }

  ghost predicate IsBinary(level: nat, e: Expr, ts: seq<Token>, i: nat, j: nat, v: string)
    requires i < j < |ts| && 1 <= level <= 6
    decreases j - i, 8 - level, 0
  {
    && e.Binary? && e.op in Operators(level)
    && exists q: nat ::
         && i < q < j && ts[q] == Token(Operator, e.op)
         && Derives(level, e.left, ts, i, q, v) && Derives(level + 1, e.right, ts, q + 1, j, v)
  }

  ghost predicate IsUnary(e: Expr, ts: seq<Token>, i: nat, j: nat, v: string)
    requires i < j < |ts|
    decreases j - i, 0, 0
  {
    && e.Unary? && e.op in {"!", "-", "+"} && ts[i] == Token(Operator, e.op)
    && Derives(7, e.operand, ts, i + 1, j, v)
  }

  /** Literals and the one variable; a number must be JSON-safe. */
  predicate IsAtom(e: Expr, ts: seq<Token>, i: nat, j: nat, v: string)
    requires i < j < |ts|
  {
    && j == i + 1
    && match e
       case NumberLit(lexeme) => ts[i] == Token(Number, lexeme) && IsNumber(lexeme) && JsonSafe(NumberValue(lexeme))
       case StringLit(s) => ts[i] == Token(String, s)
       case Input => ts[i] == Token(Identifier, v)
       case BoolLit(b) => ts[i] == Token(Identifier, if b then "true" else "false") && ts[i].value != v
       case NullLit => ts[i] == Token(Identifier, "null") && "null" != v
       case _ => false
  }

  ghost predicate IsParenthesised(e: Expr, ts: seq<Token>, i: nat, j: nat, v: string)
    requires i < j < |ts|
    decreases j - i, 0, 0
  {
    ts[i] == Token(Punctuation, "(") && i + 1 < j && ts[j - 1].value == ")" && Derives(0, e, ts, i + 1, j - 1, v)
  }

  /** Elements are separated by commas; a first token that reads `]` closes the array instead. */
  ghost predicate IsArray(e: Expr, ts: seq<Token>, i: nat, j: nat, v: string)
    requires i < j < |ts|
    decreases j - i, 0, 0
  {
    && e.ArrayExpr? && ts[i] == Token(Punctuation, "[")
    && if e.elements == [] then j == i + 2 && ts[i + 1].value == "]"
       else i + 1 < j && ts[i + 1].value != "]" && AreElements(e.elements, ts, i + 1, j, v)
  }

  ghost predicate AreElements(es: seq<Expr>, ts: seq<Token>, i: nat, j: nat, v: string)
    requires i < j < |ts|
    decreases j - i, 8, 2
  {
    && es != []
    && exists q: nat ::
         && i < q < j && Derives(0, es[0], ts, i, q, v)
         && if |es| == 1 then ts[q].value == "]" && j == q + 1
            else ts[q].value == "," && q + 1 < j && AreElements(es[1..], ts, q + 1, j, v)
  }

  /** Entries have string keys, all different; a first token that reads `}` closes the object instead. */
  ghost predicate IsObject(e: Expr, ts: seq<Token>, i: nat, j: nat, v: string)
    requires i < j < |ts|
    decreases j - i, 0, 0
  {
    && e.ObjectExpr? && ts[i] == Token(Punctuation, "{")
    && (forall a, b :: 0 <= a < b < |e.entries| ==> e.entries[a].key != e.entries[b].key)
    && if e.entries == [] then j == i + 2 && ts[i + 1].value == "}"
       else i + 1 < j && ts[i + 1].value != "}" && AreEntries(e.entries, ts, i + 1, j, v)
  }

  ghost predicate AreEntries(es: seq<Entry>, ts: seq<Token>, i: nat, j: nat, v: string)
    requires i < j < |ts|
    decreases j - i, 8, 2
  {
    && es != [] && i + 2 < j && ts[i] == Token(String, es[0].key) && ts[i + 1].value == ":"
    && exists q: nat ::
         && i + 2 < q < j && Derives(0, es[0].value, ts, i + 2, q, v)
         && if |es| == 1 then ts[q].value == "}" && j == q + 1
            else ts[q].value == "," && q + 1 < j && AreEntries(es[1..], ts, q + 1, j, v)
  }

  /******* What the parser reads is derived *******/

  lemma {:induction false} LevelDerives(level: nat, ts: seq<Token>, i: nat, v: string)
    requires level <= 8 && TokenList(ts) && i < |ts| && ParseLevel(level, ts, i, v).Ok?
    ensures var p := ParseLevel(level, ts, i, v).value; Derives(level, p.0, ts, i, p.1, v)
    decreases |ts| - i, 1, 8 - level, 0
  {
    hide TokenList, ParseLevel, BinaryRest, ParsePrimary, Derives, Operators;
    if level == 0 {
      ConditionalDerives(ts, i, v);
    } else if level <= 6 {
      BinaryCase(level, ts, i, v);
      LevelDerives(level + 1, ts, i, v);
      var first := ParseLevel(level + 1, ts, i, v).value;
      Lift(level, first.0, ts, i, first.1, v);
      RestDerives(level, first.0, ts, i, first.1, v);
    } else if level == 7 && ts[i].kind == Operator && ts[i].value in UNARY_OPERATORS {
      UnaryRule(ts, i, v);
      LevelDerives(7, ts, i + 1, v);
      var operand := ParseLevel(7, ts, i + 1, v).value;
      DerivesUnary(ts[i].value, operand.0, ts, i, operand.1, v);
    } else {
      PrimaryCase(level, ts, i, v);
      PrimaryDerives(ts, i, v);
      if level == 7 {
        Lift(7, ParsePrimary(ts, i, v).value.0, ts, i, ParsePrimary(ts, i, v).value.1, v);
      }
    }
  }

  lemma Lift(level: nat, e: Expr, ts: seq<Token>, i: nat, j: nat, v: string)
    requires level <= 7 && Derives(level + 1, e, ts, i, j, v)
    ensures Derives(level, e, ts, i, j, v)
  {
    InRange(level + 1, e, ts, i, j, v);
    hide IsConditional, IsBinary, IsUnary, IsAtom, IsParenthesised, IsArray, IsObject;
  }

  lemma InRange(level: nat, e: Expr, ts: seq<Token>, i: nat, j: nat, v: string)
    requires Derives(level, e, ts, i, j, v)
    ensures i < j < |ts|
  {
  }

  lemma DerivesUnary(op: string, operand: Expr, ts: seq<Token>, i: nat, j: nat, v: string)
    requires i < |ts| && ts[i].kind == Operator && ts[i].value == op && op in UNARY_OPERATORS
    requires Derives(7, operand, ts, i + 1, j, v)
    ensures Derives(7, Unary(op, operand), ts, i, j, v)
  {
    InRange(7, operand, ts, i + 1, j, v);
    assert IsUnary(Unary(op, operand), ts, i, j, v);
  }

  lemma {:induction false} ConditionalDerives(ts: seq<Token>, i: nat, v: string)
    requires TokenList(ts) && i < |ts| && ParseLevel(0, ts, i, v).Ok?
    ensures var p := ParseLevel(0, ts, i, v).value; Derives(0, p.0, ts, i, p.1, v)
    decreases |ts| - i, 1, 7, 1
  {
    hide TokenList, ParseLevel, Derives;
    ConditionalCase(ts, i, v);
    LevelDerives(1, ts, i, v);
    var c := ParseLevel(1, ts, i, v).value;
    if ts[c.1].value == "?" {
      LevelDerives(0, ts, c.1 + 1, v);
      var t := ParseLevel(0, ts, c.1 + 1, v).value;
      LevelDerives(0, ts, t.1 + 1, v);
      var f := ParseLevel(0, ts, t.1 + 1, v).value;
      DerivesConditional(c.0, t.0, f.0, ts, i, c.1, t.1, f.1, v);
    } else {
      Lift(0, c.0, ts, i, c.1, v);
    }
  }

  lemma DerivesConditional(
    c: Expr, t: Expr, f: Expr, ts: seq<Token>, i: nat, q: nat, k: nat, j: nat, v: string)
    requires q < |ts| && ts[q].value == "?" && k < |ts| && ts[k].value == ":"
    requires Derives(1, c, ts, i, q, v) && Derives(0, t, ts, q + 1, k, v) && Derives(0, f, ts, k + 1, j, v)
    ensures Derives(0, Conditional(c, t, f), ts, i, j, v)
  {
    InRange(1, c, ts, i, q, v);
    InRange(0, t, ts, q + 1, k, v);
    InRange(0, f, ts, k + 1, j, v);
    assert IsConditional(Conditional(c, t, f), ts, i, j, v);
  }

  lemma {:induction false} RestDerives(level: nat, left: Expr, ts: seq<Token>, i: nat, k: nat, v: string)
    requires 1 <= level <= 6 && TokenList(ts) && i < k < |ts| && Derives(level, left, ts, i, k, v)
    requires BinaryRest(level, left, ts, k, v).Ok?
    ensures var p := BinaryRest(level, left, ts, k, v).value; Derives(level, p.0, ts, i, p.1, v)
    decreases |ts| - k, 1, 0, 1
  {
    hide TokenList, ParseLevel, Derives, Operators;
    if ts[k].kind == Operator && ts[k].value in Operators(level) {
      TokenAt(ts, k);
      LevelDerives(level + 1, ts, k + 1, v);
      var right := ParseLevel(level + 1, ts, k + 1, v).value;
      DerivesBinary(level, ts[k].value, left, right.0, ts, i, k, right.1, v);
      RestDerives(level, Binary(ts[k].value, left, right.0), ts, i, right.1, v);
    }
  }

  lemma DerivesBinary(
    level: nat, op: string, left: Expr, right: Expr, ts: seq<Token>, i: nat, q: nat, j: nat, v: string)
    requires 1 <= level <= 6 && op in Operators(level) && q < |ts| && ts[q].kind == Operator && ts[q].value == op
    requires Derives(level, left, ts, i, q, v) && Derives(level + 1, right, ts, q + 1, j, v)
    ensures Derives(level, Binary(op, left, right), ts, i, j, v)
  {
    InRange(level, left, ts, i, q, v);
    InRange(level + 1, right, ts, q + 1, j, v);
    assert IsBinary(level, Binary(op, left, right), ts, i, j, v);
  }

  lemma {:induction false} PrimaryDerives(ts: seq<Token>, i: nat, v: string)
    requires TokenList(ts) && i < |ts| && ParsePrimary(ts, i, v).Ok?
    ensures var p := ParsePrimary(ts, i, v).value; Derives(8, p.0, ts, i, p.1, v)
    decreases |ts| - i, 0, 8, 0
  {
    hide TokenList, ParseLevel, Derives, ParseElements, ParseEntries, AreElements, AreEntries;
    TokenAt(ts, i);
    var p := ParsePrimary(ts, i, v).value;
    var value := ts[i].value;
    if ts[i].kind == Number || ts[i].kind == String || ts[i].kind == Identifier {
      AtomDerives(ts, i, v);
    } else if value == "(" {
      LevelDerives(0, ts, i + 1, v);
      ParenthesesDerive(p.0, ts, i, p.1, v);
    } else if value == "[" {
      OnlyPunctuation(ts[i]);
      ArrayPrimary(ts, i, v);
      if ts[i + 1].value != "]" {
        ElementsDerive(ts, i + 1, v);
      }
      ArrayDerives(ts, i, v);
    } else {
      OnlyPunctuation(ts[i]);
      ObjectPrimary(ts, i, v);
      if ts[i + 1].value != "}" {
        EntriesDerive(ts, i + 1, {}, v);
      }
      ObjectDerives(ts, i, v);
    }
  }

  lemma OnlyPunctuation(t: Token)
    requires Canonical(t) && t.kind != String && (t.value == "(" || t.value == "[" || t.value == "{")
    ensures t.kind == Punctuation
  {
  }

  lemma AtomDerives(ts: seq<Token>, i: nat, v: string)
    requires TokenList(ts) && i < |ts| && ParsePrimary(ts, i, v).Ok?
    requires ts[i].kind == Number || ts[i].kind == String || ts[i].kind == Identifier
    ensures var p := ParsePrimary(ts, i, v).value; Derives(8, p.0, ts, i, p.1, v)
  {
    TokenAt(ts, i);
    hide TokenList, IsParenthesised, IsArray, IsObject, ParseLevel, ParseElements, ParseEntries, NumberValue, IsNumber;
    var p := ParsePrimary(ts, i, v).value;
    assert p.1 == i + 1 && IsAtom(p.0, ts, i, p.1, v);
  }

  lemma ParenthesesDerive(e: Expr, ts: seq<Token>, i: nat, j: nat, v: string)
    requires TokenList(ts) && i + 1 < |ts| && Canonical(ts[i]) && ts[i].kind != String && ts[i].value == "("
    requires ts[i].kind != Number && ts[i].kind != Identifier
    requires ParsePrimary(ts, i, v) == Ok((e, j))
    requires ParseLevel(0, ts, i + 1, v).Ok? ==>
      Derives(0, ParseLevel(0, ts, i + 1, v).value.0, ts, i + 1, ParseLevel(0, ts, i + 1, v).value.1, v)
    ensures Derives(8, e, ts, i, j, v)
  {
    OnlyPunctuation(ts[i]);
    hide Derives, ParseLevel, ParseElements, ParseEntries, TokenList;
    InRange(0, e, ts, i + 1, j - 1, v);
    DerivesParenthesised(e, ts, i, j, v);
  }

  lemma DerivesParenthesised(e: Expr, ts: seq<Token>, i: nat, j: nat, v: string)
    requires i + 1 < j < |ts| && ts[i] == Token(Punctuation, "(") && ts[j - 1].value == ")"
    requires Derives(0, e, ts, i + 1, j - 1, v)
    ensures Derives(8, e, ts, i, j, v)
  {
    hide IsAtom, IsArray, IsObject;
    assert IsParenthesised(e, ts, i, j, v);
  }

  lemma ArrayDerives(ts: seq<Token>, i: nat, v: string)
    requires TokenList(ts) && i < |ts| && ts[i] == Token(Punctuation, "[") && ParsePrimary(ts, i, v).Ok?
    requires i + 1 < |ts|
    requires ts[i + 1].value != "]" && ParseElements(ts, i + 1, v).Ok? ==>
      var q := ParseElements(ts, i + 1, v).value; AreElements(q.0, ts, i + 1, q.1, v) && q.0 != []
    ensures var p := ParsePrimary(ts, i, v).value; Derives(8, p.0, ts, i, p.1, v)
  {
    hide ParsePrimary, ParseElements, AreElements, TokenList, IsAtom, IsParenthesised, IsObject;
    ArrayPrimary(ts, i, v);
    var p := ParsePrimary(ts, i, v).value;
    assert IsArray(p.0, ts, i, p.1, v);
  }

  lemma ObjectDerives(ts: seq<Token>, i: nat, v: string)
    requires TokenList(ts) && i < |ts| && ts[i] == Token(Punctuation, "{") && ParsePrimary(ts, i, v).Ok?
    requires i + 1 < |ts|
    requires ts[i + 1].value != "}" && ParseEntries(ts, i + 1, {}, v).Ok? ==>
      var q := ParseEntries(ts, i + 1, {}, v).value; AreEntries(q.0, ts, i + 1, q.1, v) && q.0 != [] && Fresh(q.0, {})
    ensures var p := ParsePrimary(ts, i, v).value; Derives(8, p.0, ts, i, p.1, v)
  {
    hide ParsePrimary, ParseEntries, AreEntries, TokenList, IsAtom, IsParenthesised, IsArray;
    ObjectPrimary(ts, i, v);
    var p := ParsePrimary(ts, i, v).value;
    assert IsObject(p.0, ts, i, p.1, v);
  }

  /** Keys that are all different and outside `keys`. */
  predicate Fresh(es: seq<Entry>, keys: set<string>) {
    && (forall a, b :: 0 <= a < b < |es| ==> es[a].key != es[b].key)
    && forall a :: 0 <= a < |es| ==> es[a].key !in keys
  }

  lemma {:induction false} ElementsDerive(ts: seq<Token>, i: nat, v: string)
    requires TokenList(ts) && i < |ts| && ParseElements(ts, i, v).Ok?
    ensures var p := ParseElements(ts, i, v).value; p.0 != [] && AreElements(p.0, ts, i, p.1, v)
    decreases |ts| - i, 2, 0, 0
  {
    hide TokenList, ParseLevel, Derives;
    var e := ParseLevel(0, ts, i, v).value;
    LevelDerives(0, ts, i, v);
    TokenAt(ts, e.1);
    if ts[e.1].value == "," {
      ElementsDerive(ts, e.1 + 1, v);
      var rest := ParseElements(ts, e.1 + 1, v).value;
      assert ([e.0] + rest.0)[1..] == rest.0;
    }
  }

  lemma {:induction false} EntriesDerive(ts: seq<Token>, i: nat, keys: set<string>, v: string)
    requires TokenList(ts) && i < |ts| && ParseEntries(ts, i, keys, v).Ok?
    ensures var p := ParseEntries(ts, i, keys, v).value; p.0 != [] && AreEntries(p.0, ts, i, p.1, v) && Fresh(p.0, keys)
    decreases |ts| - i, 3, 0, 0
  {
    hide TokenList, ParseLevel, Derives;
    var e := ParseEntry(ts, i, keys, v).value;
    TokenAt(ts, i);
    TokenAt(ts, i + 1);
    LevelDerives(0, ts, i + 2, v);
    TokenAt(ts, e.1);
    if ts[e.1].value == "," {
      EntriesDerive(ts, e.1 + 1, keys + {e.0.key}, v);
      var rest := ParseEntries(ts, e.1 + 1, keys + {e.0.key}, v).value;
      assert ([e.0] + rest.0)[1..] == rest.0;
    }
  }

  /******* What the grammar derives is parsed *******/

  /** An expression of the grammar that the next token does not continue is read as it is derived. */
  lemma {:induction false} DerivedIsRead(level: nat, e: Expr, ts: seq<Token>, i: nat, j: nat, v: string)
    requires level <= 8 && TokenList(ts) && Derives(level, e, ts, i, j, v) && Follow(level, ts[j])
    ensures i < j < |ts| && ParseLevel(level, ts, i, v) == Ok((e, j))
    decreases j - i, 8 - level, 4
  {
    InRange(level, e, ts, i, j, v);
    hide TokenList, ParseLevel, BinaryRest, ParsePrimary, Operators, IsConditional, IsBinary, IsUnary, IsAtom,
         IsParenthesised, IsArray, IsObject;
    if level == 0 {
      if Derives(1, e, ts, i, j, v) {
        FollowsWeaker(0, ts[j]);
        DerivedIsRead(1, e, ts, i, j, v);
        NoConditionalRule(ts, i, v, e, j);
      } else {
        ConditionalIsRead(e, ts, i, j, v);
      }
    } else if level <= 6 {
      FollowsWeaker(level, ts[j]);
      ChainIsRead(level, e, ts, i, j, v);
      ChainStops(level, e, ts, j, v);
    } else if level == 7 {
      if Derives(8, e, ts, i, j, v) {
        FollowsWeaker(7, ts[j]);
        DerivedIsRead(8, e, ts, i, j, v);
        NoOperatorFirst(e, ts, i, j, v);
        PrimaryCase(7, ts, i, v);
        PrimaryCase(8, ts, i, v);
      } else {
        UnaryIsRead(e, ts, i, j, v);
      }
    } else {
      PrimaryCase(8, ts, i, v);
      PrimaryIsRead(e, ts, i, j, v);
    }
  }

  lemma {:induction false} ConditionalIsRead(e: Expr, ts: seq<Token>, i: nat, j: nat, v: string)
    requires TokenList(ts) && i < j < |ts| && IsConditional(e, ts, i, j, v) && Follow(0, ts[j])
    ensures ParseLevel(0, ts, i, v) == Ok((e, j))
    decreases j - i, 8, 0
  {
    hide TokenList, ParseLevel, Derives, Operators;
    var q: nat, k: nat :|
      && i < q < k < j && ts[q].value == "?" && ts[k].value == ":"
      && Derives(1, e.condition, ts, i, q, v)
      && Derives(0, e.whenTrue, ts, q + 1, k, v) && Derives(0, e.whenFalse, ts, k + 1, j, v);
    SeparatorFollows(ts[q]);
    SeparatorFollows(ts[k]);
    DerivedIsRead(1, e.condition, ts, i, q, v);
    DerivedIsRead(0, e.whenTrue, ts, q + 1, k, v);
    DerivedIsRead(0, e.whenFalse, ts, k + 1, j, v);
    ConditionalRule(ts, i, v, e.condition, q, e.whenTrue, k, e.whenFalse, j);
  }

  /** No separator continues an expression; only a question mark continues a conditional. */
  lemma SeparatorFollows(t: Token)
    requires t.value in {"?", ":", ",", ")", "]", "}"}
    ensures Follow(1, t) && (t.value != "?" ==> Follow(0, t))
  {
    forall m | 1 <= m <= 6
      ensures t.value !in Operators(m)
    {
      assert m == 1 || m == 2 || m == 3 || m == 4 || m == 5 || m == 6;
    }
  }

  /** A derived chain of one level leaves the loop of that level where it stands. */
  lemma {:induction false} ChainIsRead(level: nat, e: Expr, ts: seq<Token>, i: nat, k: nat, v: string)
    requires 1 <= level <= 6 && TokenList(ts) && Derives(level, e, ts, i, k, v) && Follow(level + 1, ts[k])
    ensures i < k < |ts| && ParseLevel(level, ts, i, v) == BinaryRest(level, e, ts, k, v)
    decreases k - i, 8 - level, 0
  {
    InRange(level, e, ts, i, k, v);
    hide TokenList, ParseLevel, BinaryRest, Operators, IsBinary;
    if Derives(level + 1, e, ts, i, k, v) {
      DerivedIsRead(level + 1, e, ts, i, k, v);
      OperandRule(level, ts, i, v, e, k);
    } else {
      LinkIsRead(level, e, ts, i, k, v);
    }
  }

  lemma {:induction false} LinkIsRead(level: nat, e: Expr, ts: seq<Token>, i: nat, k: nat, v: string)
    requires 1 <= level <= 6 && TokenList(ts) && i < k < |ts| && IsBinary(level, e, ts, i, k, v)
    requires Follow(level + 1, ts[k])
    ensures ParseLevel(level, ts, i, v) == BinaryRest(level, e, ts, k, v)
    decreases k - i, 7 - level, 3
  {
    hide TokenList, ParseLevel, BinaryRest, Derives;
    var q: nat :|
      && i < q < k && ts[q] == Token(Operator, e.op)
      && Derives(level, e.left, ts, i, q, v) && Derives(level + 1, e.right, ts, q + 1, k, v);
    OperatorOfLevel(level, e.op);
    OperatorFollows(e.op);
    ChainIsRead(level, e.left, ts, i, q, v);
    DerivedIsRead(level + 1, e.right, ts, q + 1, k, v);
    LoopRule(level, e.left, ts, q, v, e.right, k);
  }

  lemma OperatorOfLevel(level: nat, op: string)
    requires 1 <= level <= 6 && op in Operators(level)
    ensures LevelOf(op) == level
  {
    LevelOfOperator(level, op);
    OperatorLevels(op);
  }

  lemma ChainStops(level: nat, e: Expr, ts: seq<Token>, j: nat, v: string)
    requires 1 <= level <= 6 && TokenList(ts) && j < |ts| && Follow(level, ts[j])
    ensures BinaryRest(level, e, ts, j, v) == Ok((e, j))
  {
    hide TokenList, ParseLevel;
  }

  lemma {:induction false} UnaryIsRead(e: Expr, ts: seq<Token>, i: nat, j: nat, v: string)
    requires TokenList(ts) && i < j < |ts| && IsUnary(e, ts, i, j, v) && Follow(7, ts[j])
    ensures ParseLevel(7, ts, i, v) == Ok((e, j))
    decreases j - i, 1, 0
  {
    hide TokenList, ParseLevel, Derives, Follow;
    DerivedIsRead(7, e.operand, ts, i + 1, j, v);
    UnaryRule(ts, i, v);
  }

  lemma NoOperatorFirst(e: Expr, ts: seq<Token>, i: nat, j: nat, v: string)
    requires Derives(8, e, ts, i, j, v)
    ensures i < |ts| && ts[i].kind != Operator
  {
    hide AreElements, AreEntries;
  }

  lemma {:induction false} PrimaryIsRead(e: Expr, ts: seq<Token>, i: nat, j: nat, v: string)
    requires TokenList(ts) && Derives(8, e, ts, i, j, v) && Follow(8, ts[j])
    ensures ParsePrimary(ts, i, v) == Ok((e, j))
    decreases j - i, 0, 2
  {
    InRange(8, e, ts, i, j, v);
    hide TokenList, ParseLevel, ParsePrimary, IsAtom, IsParenthesised, IsArray, IsObject;
    if IsAtom(e, ts, i, j, v) {
      AtomIsRead(e, ts, i, j, v);
    } else if IsParenthesised(e, ts, i, j, v) {
      ParenthesesAreRead(e, ts, i, j, v);
    } else if IsArray(e, ts, i, j, v) {
      ArrayIsRead(e, ts, i, j, v);
    } else {
      ObjectIsRead(e, ts, i, j, v);
    }
  }

  lemma AtomIsRead(e: Expr, ts: seq<Token>, i: nat, j: nat, v: string)
    requires TokenList(ts) && i < j < |ts| && IsAtom(e, ts, i, j, v) && Follow(8, ts[j])
    ensures ParsePrimary(ts, i, v) == Ok((e, j))
  {
    TokenAt(ts, i);
    hide TokenList, ParseLevel, ParseElements, ParseEntries, NumberValue, JsonSafe;
  }

  lemma {:induction false} ParenthesesAreRead(e: Expr, ts: seq<Token>, i: nat, j: nat, v: string)
    requires TokenList(ts) && i < j < |ts| && IsParenthesised(e, ts, i, j, v)
    ensures ParsePrimary(ts, i, v) == Ok((e, j))
    decreases j - i, 0, 0
  {
    hide TokenList, ParseLevel, Derives, ParsePrimary, Follow;
    SeparatorFollows(ts[j - 1]);
    DerivedIsRead(0, e, ts, i + 1, j - 1, v);
    ParenthesesRule(ts, i, v, e, j - 1);
    PrimaryCase(8, ts, i, v);
  }

  lemma {:induction false} ArrayIsRead(e: Expr, ts: seq<Token>, i: nat, j: nat, v: string)
    requires TokenList(ts) && i < j < |ts| && IsArray(e, ts, i, j, v)
    ensures ParsePrimary(ts, i, v) == Ok((e, j))
    decreases j - i, 0, 0
  {
    hide TokenList, ParseElements, AreElements, ParsePrimary;
    ArrayPrimary(ts, i, v);
    if e.elements != [] {
      ElementsAreRead(e.elements, ts, i + 1, j, v);
    }
  }

  lemma {:induction false} ElementsAreRead(es: seq<Expr>, ts: seq<Token>, i: nat, j: nat, v: string)
    requires TokenList(ts) && i < j < |ts| && AreElements(es, ts, i, j, v)
    ensures ParseElements(ts, i, v) == Ok((es, j))
    decreases j - i, 8, 2
  {
    hide TokenList, ParseLevel, Derives, Follow;
    var q: nat :|
      && i < q < j && Derives(0, es[0], ts, i, q, v)
      && if |es| == 1 then ts[q].value == "]" && j == q + 1
         else ts[q].value == "," && q + 1 < j && AreElements(es[1..], ts, q + 1, j, v);
    SeparatorFollows(ts[q]);
    DerivedIsRead(0, es[0], ts, i, q, v);
    assert es == [es[0]] + es[1..];
    if |es| > 1 {
      ElementsAreRead(es[1..], ts, q + 1, j, v);
      NextElementRule(ts, i, v, es[0], q, es[1..], j);
    } else {
      assert es == [es[0]];
      LastElementRule(ts, i, v, es[0], q);
    }
  }

  lemma {:induction false} ObjectIsRead(e: Expr, ts: seq<Token>, i: nat, j: nat, v: string)
    requires TokenList(ts) && i < j < |ts| && IsObject(e, ts, i, j, v)
    ensures ParsePrimary(ts, i, v) == Ok((e, j))
    decreases j - i, 0, 0
  {
    hide TokenList, ParseEntries, AreEntries, ParsePrimary;
    ObjectPrimary(ts, i, v);
    if e.entries != [] {
      EntriesAreRead(e.entries, {}, ts, i + 1, j, v);
    }
  }

  lemma {:induction false} EntriesAreRead(
    es: seq<Entry>, keys: set<string>, ts: seq<Token>, i: nat, j: nat, v: string)
    requires TokenList(ts) && i < j < |ts| && AreEntries(es, ts, i, j, v) && Fresh(es, keys)
    ensures ParseEntries(ts, i, keys, v) == Ok((es, j))
    decreases j - i, 8, 2
  {
    hide TokenList, ParseLevel, Derives, Follow;
    var q: nat :|
      && i + 2 < q < j && Derives(0, es[0].value, ts, i + 2, q, v)
      && if |es| == 1 then ts[q].value == "}" && j == q + 1
         else ts[q].value == "," && q + 1 < j && AreEntries(es[1..], ts, q + 1, j, v);
    SeparatorFollows(ts[q]);
    DerivedIsRead(0, es[0].value, ts, i + 2, q, v);
    EntryRule(ts, i, keys, v, es[0].key, es[0].value, q);
    if |es| > 1 {
      assert es == [es[0]] + es[1..];
      EntriesAreRead(es[1..], keys + {es[0].key}, ts, q + 1, j, v);
      NextEntryRule(ts, i, keys, v, es[0], q, es[1..], j);
    } else {
      assert es == [es[0]];
      LastEntryRule(ts, i, keys, v, es[0], q);
    }
  }

  /** The parser accepts exactly what the grammar derives, as what it derives, from the first token to the last. */
  lemma ParsesTheGrammar(ts: seq<Token>, e: Expr, v: string)
    requires TokenList(ts)
    ensures Parse(ts, v) == Ok(e) <==> Derives(0, e, ts, 0, |ts| - 1, v)
  {
    var last := |ts| - 1;
    hide Derives, ParseLevel;
    if Parse(ts, v) == Ok(e) {
      LevelDerives(0, ts, 0, v);
      TokenAt(ts, ParseLevel(0, ts, 0, v).value.1);
    }
    if Derives(0, e, ts, 0, last, v) {
      EndFollows(ts);
      DerivedIsRead(0, e, ts, 0, last, v);
    }
  }

  lemma EndFollows(ts: seq<Token>)
    requires TokenList(ts)
    ensures Follow(0, ts[|ts| - 1]) && ts[|ts| - 1].kind == Eof
  {
  }

  /** What follows an expression after a point is refused as the access of a member. */
  lemma MembersAreRefused(ts: seq<Token>, e: Expr, j: nat, v: string)
    requires TokenList(ts) && Derives(0, e, ts, 0, j, v) && ts[j].kind == Punctuation && ts[j].value == "."
    ensures Parse(ts, v) == Err(MemberAccess)
  {
    hide Derives, ParseLevel;
    InRange(0, e, ts, 0, j, v);
    PointFollows(ts[j]);
    DerivedIsRead(0, e, ts, 0, j, v);
  }

  lemma PointFollows(t: Token)
    requires t.kind == Punctuation && t.value == "."
    ensures Follow(0, t)
  {
  }

  /** A name before an opening parenthesis is refused as a call, whatever name it is. */
  lemma {:induction false} CallsAreRefused(level: nat, ts: seq<Token>, i: nat, v: string)
    requires level <= 8 && TokenList(ts) && i + 1 < |ts| && ts[i].kind == Identifier && ts[i + 1].value == "("
    ensures ParseLevel(level, ts, i, v) == Err(FunctionCall)
    decreases 8 - level
  {
    hide TokenList, BinaryRest, ParseElements, ParseEntries, NumberValue;
    if level <= 6 {
      CallsAreRefused(level + 1, ts, i, v);
    }
  }

  /** So no token list has two trees. */
  lemma Unambiguous(ts: seq<Token>, a: Expr, b: Expr, v: string)
    requires TokenList(ts) && Derives(0, a, ts, 0, |ts| - 1, v) && Derives(0, b, ts, 0, |ts| - 1, v)
    ensures a == b
  {
    ParsesTheGrammar(ts, a, v);
    ParsesTheGrammar(ts, b, v);
  }

  /**
   * From source text to tree: a source is read as `e` exactly when its longest lexemes are a sentence of the
   * grammar with this tree.
   */
  lemma SourcesAreSentences(source: string, e: Expr, v: string)
    ensures
      (Lex(source).Ok? && TokenList(Lex(source).value) && Parse(Lex(source).value, v) == Ok(e))
      <==> exists ts :: Munches(source, 0, ts) && TokenList(ts) && |ts| > 0 && Derives(0, e, ts, 0, |ts| - 1, v)
  {
    hide LexFrom, Parse, Munches, Derives, TokenList;
    if Lex(source).Ok? {
      var ts := Lex(source).value;
      MaximalMunch(source, ts);
      if TokenList(ts) {
        EndFollows(ts);
        ParsesTheGrammar(ts, e, v);
      }
    }
    forall ts | Munches(source, 0, ts) && TokenList(ts) && |ts| > 0 && Derives(0, e, ts, 0, |ts| - 1, v)
      ensures Lex(source) == Ok(ts) && Parse(ts, v) == Ok(e)
    {
      MaximalMunch(source, ts);
      ParsesTheGrammar(ts, e, v);
    }
  }
}
