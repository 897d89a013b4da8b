/** Printing syntax trees and reading them back: which trees the parser produces, and that each is recovered. */
module CelRoundTrip {
  import opened Common
  import opened CelTokenizer
  import opened CelParser

  /******* The trees the parser can produce *******/

  function LevelOf(op: string): (level: nat)
    ensures level <= 6
  {
    if op in Operators(1) then 1
    else if op in Operators(2) then 2
    else if op in Operators(3) then 3
    else if op in Operators(4) then 4
    else if op in Operators(5) then 5
    else if op in Operators(6) then 6
    else 0
  }

  /** A first key `}` would be taken for the closing brace, because `consume` compares values only. */
  predicate Producible(e: Expr)
    decreases e
  {
    match e
    case NumberLit(lexeme) => IsNumber(lexeme) && JsonSafe(NumberValue(lexeme))
    case StringLit(_) => true
    case BoolLit(_) => true
    case NullLit => true
    case Input => true
    case ArrayExpr(elements) => forall i :: 0 <= i < |elements| ==> Producible(elements[i])
    case ObjectExpr(entries) =>
      && (entries != [] ==> entries[0].key != "}")
      && (forall i, j :: 0 <= i < j < |entries| ==> entries[i].key != entries[j].key)
      && forall i :: 0 <= i < |entries| ==> Producible(entries[i].value)
    case Unary(op, operand) => op in UNARY_OPERATORS && Producible(operand)
    case Binary(op, left, right) => LevelOf(op) != 0 && Producible(left) && Producible(right)
    case Conditional(c, t, f) => Producible(c) && Producible(t) && Producible(f)
  }

  /******* Printing with as few parentheses as precedence allows *******/

  /** The level at which an expression needs no parentheses. */
  function Own(e: Expr): (level: nat)
    ensures level <= 8
  {
    match e
    case Conditional(_, _, _) => 0
    case Binary(op, _, _) => LevelOf(op)
    case Unary(_, _) => 7
    case _ => 8
  }

  function P(value: string): Token {
    Token(Punctuation, value)
  }

  /** Tokens of `e` where an expression of at least `level` is expected; level 9 always parenthesises. */
  function Print(e: Expr, level: nat, v: string): (ts: seq<Token>)
    ensures ts != []
    decreases e, 1
  {
    if Own(e) < level then [P("(")] + Bare(e, v) + [P(")")] else Bare(e, v)
  }

  function Bare(e: Expr, v: string): (ts: seq<Token>)
    ensures ts != []
    decreases e, 0
  {
    match e
    case NumberLit(lexeme) => [Token(Number, lexeme)]
    case StringLit(s) => [Token(String, s)]
    case BoolLit(b) => [Token(Identifier, if b then "true" else "false")]
    case NullLit => [Token(Identifier, "null")]
    case Input => [Token(Identifier, v)]
    case ArrayExpr(elements) => [P("[")] + PrintElements(elements, true, v) + [P("]")]
    case ObjectExpr(entries) => [P("{")] + PrintEntries(entries, v) + [P("}")]
    case Unary(op, operand) => [Token(Operator, op)] + Print(operand, 7, v)
    case Binary(op, left, right) =>
      Print(left, LevelOf(op), v) + [Token(Operator, op)] + Print(right, LevelOf(op) + 1, v)
    case Conditional(c, t, f) => Print(c, 1, v) + [P("?")] + Print(t, 0, v) + [P(":")] + Print(f, 0, v)
  }

  /** A leading string `]` would close the array, so such a first element is parenthesised. */
  function ElementLevel(e: Expr, first: bool, v: string): nat
    decreases e, 2
  {
    if first && Bare(e, v)[0] == Token(String, "]") then 9 else 0
  }

  function PrintElements(es: seq<Expr>, first: bool, v: string): seq<Token>
    decreases es, 0
  {
    if es == [] then []
    else
      Print(es[0], ElementLevel(es[0], first, v), v)
      + (if |es| == 1 then [] else [P(",")] + PrintElements(es[1..], false, v))
  }

  function PrintEntries(es: seq<Entry>, v: string): seq<Token>
    decreases es, 0
  {
    if es == [] then []
    else
      [Token(String, es[0].key), P(":")] + Print(es[0].value, 0, v)
      + (if |es| == 1 then [] else [P(",")] + PrintEntries(es[1..], v))
  }

  /******* Where a printed expression may stop *******/

  /** `next` does not continue an expression parsed at `level`. */
  predicate Follow(level: nat, next: Token) {
    && next.value != "("
    && (level == 0 ==> next.value != "?")
    && (next.kind == Operator ==> forall m :: 1 <= m <= 6 && level <= m ==> next.value !in Operators(m))
  }

  lemma OperatorLevels(op: string)
    requires LevelOf(op) != 0
    ensures 1 <= LevelOf(op) <= 6 && op in Operators(LevelOf(op))
    ensures op != "(" && op != "?"
    ensures forall m :: 1 <= m <= 6 && m != LevelOf(op) ==> op !in Operators(m)
    ensures op in DOUBLE_OPERATORS || op in SINGLE_OPERATORS
  {
    forall m | 1 <= m <= 6 && m != LevelOf(op)
      ensures op !in Operators(m)
    {
      assert m == 1 || m == 2 || m == 3 || m == 4 || m == 5 || m == 6;
    }
  }

  lemma OperatorFollows(op: string)
    requires LevelOf(op) != 0
    ensures Follow(LevelOf(op) + 1, Token(Operator, op))
  {
    OperatorLevels(op);
  }

  /** Part `part` of a token list sits at index `i`. */
  ghost predicate Has(ts: seq<Token>, i: nat, part: seq<Token>) {
    i + |part| <= |ts| && ts[i..i + |part|] == part
  }

  lemma HasSplit(ts: seq<Token>, i: nat, a: seq<Token>, b: seq<Token>)
    requires Has(ts, i, a + b)
    ensures Has(ts, i, a) && Has(ts, i + |a|, b)
  {
    var whole := ts[i..i + |a + b|];
    assert whole[..|a|] == a && whole[|a|..] == b;
    assert ts[i..i + |a|] == whole[..|a|];
    assert ts[i + |a|..i + |a| + |b|] == whole[|a|..];
  }

  lemma HasFirst(ts: seq<Token>, i: nat, part: seq<Token>)
    requires Has(ts, i, part) && part != []
    ensures i < |ts| && ts[i] == part[0]
  {
    assert ts[i..i + |part|][0] == ts[i];
  }

  lemma FollowsWeaker(level: nat, next: Token)
    requires Follow(level, next)
    ensures Follow(level + 1, next)
  {
  }

  /** `e`, printed for level `printed`, sits at `i` and is followed by a token that stops level `follow`. */
  ghost predicate Printed(e: Expr, follow: nat, printed: nat, ts: seq<Token>, i: nat, v: string) {
    && Producible(e) && v in MODEL_OPTION_NAMES && TokenList(ts)
    && Has(ts, i, Print(e, printed, v))
    && End(e, printed, i, v) < |ts| && Follow(follow, ts[End(e, printed, i, v)])
  }

  function End(e: Expr, printed: nat, i: nat, v: string): nat {
    i + |Print(e, printed, v)|
  }

  function Max(a: nat, b: nat): nat {
    if a < b then b else a
  }

  lemma HasBracketed(ts: seq<Token>, i: nat, open: Token, body: seq<Token>, close: Token)
    requires Has(ts, i, [open] + body + [close])
    ensures Has(ts, i + 1, body) && i + 1 + |body| < |ts|
    ensures ts[i] == open && ts[i + 1 + |body|] == close
  {
    HasSplit(ts, i, [open] + body, [close]);
    HasSplit(ts, i, [open], body);
    HasFirst(ts, i, [open]);
    HasFirst(ts, i + 1 + |body|, [close]);
  }

  lemma HasInfix(ts: seq<Token>, i: nat, a: seq<Token>, t: Token, b: seq<Token>)
    requires Has(ts, i, a + [t] + b)
    ensures Has(ts, i, a) && Has(ts, i + |a| + 1, b) && ts[i + |a|] == t
  {
    HasSplit(ts, i, a + [t], b);
    HasSplit(ts, i, a, [t]);
    HasFirst(ts, i + |a|, [t]);
  }

  /******* The grammar, one rule at a time *******/

  lemma ConditionalRule(
    ts: seq<Token>, i: nat, v: string, c: Expr, q: nat, t: Expr, k: nat, f: Expr, end: nat)
    requires TokenList(ts) && i < |ts| && q + 1 < |ts| && k + 1 < |ts|
    requires ParseLevel(1, ts, i, v) == Ok((c, q)) && ts[q].value == "?"
    requires ParseLevel(0, ts, q + 1, v) == Ok((t, k)) && ts[k].value == ":"
    requires ParseLevel(0, ts, k + 1, v) == Ok((f, end))
    ensures ParseLevel(0, ts, i, v) == Ok((Conditional(c, t, f), end))
  {
    hide BinaryRest, ParsePrimary;
  }

  lemma NoConditionalRule(ts: seq<Token>, i: nat, v: string, e: Expr, end: nat)
    requires TokenList(ts) && i < |ts|
    requires ParseLevel(1, ts, i, v) == Ok((e, end)) && ts[end].value != "?"
    ensures ParseLevel(0, ts, i, v) == Ok((e, end))
  {
    hide BinaryRest, ParsePrimary;
  }

  lemma ParenthesesRule(ts: seq<Token>, i: nat, v: string, e: Expr, end: nat)
    requires TokenList(ts) && i + 1 < |ts| && ts[i] == P("(")
    requires ParseLevel(0, ts, i + 1, v) == Ok((e, end)) && ts[end].value == ")"
    ensures ParseLevel(8, ts, i, v) == Ok((e, end + 1))
  {
    hide BinaryRest, ParseElements, ParseEntries;
  }

  lemma OperandRule(level: nat, ts: seq<Token>, i: nat, v: string, e: Expr, end: nat)
    requires 1 <= level <= 6 && TokenList(ts) && i < |ts|
    requires ParseLevel(level + 1, ts, i, v) == Ok((e, end))
    ensures ParseLevel(level, ts, i, v) == BinaryRest(level, e, ts, end, v)
  {
    hide BinaryRest, ParsePrimary;
  }

  lemma LoopRule(level: nat, left: Expr, ts: seq<Token>, k: nat, v: string, right: Expr, end: nat)
    requires 1 <= level <= 6 && TokenList(ts) && k + 1 < |ts|
    requires ts[k].kind == Operator && ts[k].value in Operators(level)
    requires ParseLevel(level + 1, ts, k + 1, v) == Ok((right, end))
    ensures BinaryRest(level, left, ts, k, v)
         == BinaryRest(level, Binary(ts[k].value, left, right), ts, end, v)
  {
    hide ParseLevel, Operators;
  }

  lemma LastElementRule(ts: seq<Token>, i: nat, v: string, e: Expr, end: nat)
    requires TokenList(ts) && i < |ts|
    requires ParseLevel(0, ts, i, v) == Ok((e, end)) && ts[end].value == "]"
    ensures ParseElements(ts, i, v) == Ok(([e], end + 1))
  {
    hide ParseLevel;
  }

  lemma NextElementRule(ts: seq<Token>, i: nat, v: string, e: Expr, k: nat, es: seq<Expr>, end: nat)
    requires TokenList(ts) && i < |ts| && k + 1 < |ts|
    requires ParseLevel(0, ts, i, v) == Ok((e, k)) && ts[k].value == ","
    requires ParseElements(ts, k + 1, v) == Ok((es, end))
    ensures ParseElements(ts, i, v) == Ok(([e] + es, end))
  {
    hide ParseLevel;
  }

  lemma EntryRule(ts: seq<Token>, i: nat, keys: set<string>, v: string, key: string, e: Expr, end: nat)
    requires TokenList(ts) && i + 2 < |ts|
    requires ts[i] == Token(String, key) && key !in keys && ts[i + 1].value == ":"
    requires ParseLevel(0, ts, i + 2, v) == Ok((e, end))
    ensures ParseEntry(ts, i, keys, v) == Ok((Entry(key, e), end))
  {
    hide ParseLevel;
  }

  lemma LastEntryRule(ts: seq<Token>, i: nat, keys: set<string>, v: string, e: Entry, end: nat)
    requires TokenList(ts) && i < |ts|
    requires ParseEntry(ts, i, keys, v) == Ok((e, end)) && ts[end].value == "}"
    ensures ParseEntries(ts, i, keys, v) == Ok(([e], end + 1))
  {
    hide ParseEntry;
  }

  lemma NextEntryRule(
    ts: seq<Token>, i: nat, keys: set<string>, v: string, e: Entry, k: nat, es: seq<Entry>, end: nat)
    requires TokenList(ts) && i < |ts| && k + 1 < |ts|
    requires ParseEntry(ts, i, keys, v) == Ok((e, k)) && ts[k].value == ","
    requires ParseEntries(ts, k + 1, keys + {e.key}, v) == Ok((es, end))
    ensures ParseEntries(ts, i, keys, v) == Ok(([e] + es, end))
  {
    hide ParseEntry;
  }

  /******* Reading a printed tree back *******/

  /** Parsing at `level` what was printed for `printed >= level` yields the tree and stops right after it. */
  lemma {:induction false} ReadsBack(e: Expr, level: nat, printed: nat, ts: seq<Token>, i: nat, v: string)
    requires level <= 8 && level <= printed <= 9 && Printed(e, level, printed, ts, i, v)
    ensures ParseLevel(level, ts, i, v) == Ok((e, End(e, printed, i, v)))
    decreases e, if Own(e) < printed then 1 else 0, 8 - level, 2
  {
    hide Print, Bare, ParseLevel, BinaryRest, Producible, TokenList, Has, LevelOf, Operators;
    if level == 0 {
      ReadsConditional(e, printed, ts, i, v);
    } else if level <= 6 {
      FollowsWeaker(level, ts[End(e, printed, i, v)]);
      ReadsChain(e, level, printed, ts, i, v);
      ChainStops(level, e, ts, End(e, printed, i, v), v);
    } else if level == 7 {
      ReadsUnary(e, printed, ts, i, v);
    } else if Own(e) < printed {
      ReadsParenthesised(e, printed, ts, i, v);
    } else {
      ReadsPrimary(e, ts, i, v);
    }
  }

  /** Raising the printing level past one that `e` does not own prints the same tokens. */
  lemma PrintAbove(e: Expr, printed: nat, level: nat, v: string)
    requires Own(e) != printed || printed >= level
    requires level <= printed + 1
    ensures Print(e, Max(printed, level), v) == Print(e, printed, v)
    ensures Own(e) < Max(printed, level) <==> Own(e) < printed
  {
  }

  lemma ChainStops(level: nat, e: Expr, ts: seq<Token>, end: nat, v: string)
    requires 1 <= level <= 6 && TokenList(ts) && end < |ts| && Follow(level, ts[end])
    ensures BinaryRest(level, e, ts, end, v) == Ok((e, end))
  {
  }

  lemma {:induction false} ReadsConditional(e: Expr, printed: nat, ts: seq<Token>, i: nat, v: string)
    requires printed <= 9 && Printed(e, 0, printed, ts, i, v)
    ensures ParseLevel(0, ts, i, v) == Ok((e, End(e, printed, i, v)))
    decreases e, if Own(e) < printed then 1 else 0, 8, 0
  {
    hide ParseLevel, Producible, TokenList, Has, LevelOf, Operators, Print, Bare;
    if Own(e) == 0 && printed == 0 {
      OwnZero(e);
      var c, t, f := e.condition, e.whenTrue, e.whenFalse;
      var q := i + |Print(c, 1, v)|;
      var k := q + 1 + |Print(t, 0, v)|;
      ConditionalParts(c, t, f, ts, i, v);
      ReadsBack(c, 1, 1, ts, i, v);
      ReadsBack(t, 0, 0, ts, q + 1, v);
      ReadsBack(f, 0, 0, ts, k + 1, v);
      ConditionalRule(ts, i, v, c, q, t, k, f, End(e, 0, i, v));
    } else {
      PrintAbove(e, printed, 1, v);
      FollowsWeaker(0, ts[End(e, printed, i, v)]);
      ReadsBack(e, 1, Max(printed, 1), ts, i, v);
      NoConditionalRule(ts, i, v, e, End(e, printed, i, v));
    }
  }

  lemma OwnZero(e: Expr)
    requires Producible(e) && Own(e) == 0
    ensures e.Conditional? && Producible(e.condition) && Producible(e.whenTrue) && Producible(e.whenFalse)
  {
  }

  lemma ConditionalParts(c: Expr, t: Expr, f: Expr, ts: seq<Token>, i: nat, v: string)
    requires Has(ts, i, Print(Conditional(c, t, f), 0, v))
    ensures
      var q := i + |Print(c, 1, v)|;
      var k := q + 1 + |Print(t, 0, v)|;
      && Has(ts, i, Print(c, 1, v)) && q < |ts| && ts[q] == P("?")
      && Has(ts, q + 1, Print(t, 0, v)) && k < |ts| && ts[k] == P(":")
      && Has(ts, k + 1, Print(f, 0, v))
      && End(Conditional(c, t, f), 0, i, v) == End(f, 0, k + 1, v)
  {
    hide Has;
    PrintConditional(c, t, f, v);
    hide Print;
    HasInfix(ts, i, Print(c, 1, v) + [P("?")] + Print(t, 0, v), P(":"), Print(f, 0, v));
    HasInfix(ts, i, Print(c, 1, v), P("?"), Print(t, 0, v));
  }

  lemma PrintConditional(c: Expr, t: Expr, f: Expr, v: string)
    ensures Print(Conditional(c, t, f), 0, v)
         == Print(c, 1, v) + [P("?")] + Print(t, 0, v) + [P(":")] + Print(f, 0, v)
  {
  }

  lemma PrintParenthesised(e: Expr, printed: nat, v: string)
    requires Own(e) < printed
    ensures Print(e, printed, v) == [P("(")] + Print(e, 0, v) + [P(")")]
  {
    hide Bare;
  }

  lemma PrintArray(es: seq<Expr>, v: string)
    ensures Print(ArrayExpr(es), 8, v) == [P("[")] + PrintElements(es, true, v) + [P("]")]
  {
    hide PrintElements;
  }

  lemma PrintObject(es: seq<Entry>, v: string)
    ensures Print(ObjectExpr(es), 8, v) == [P("{")] + PrintEntries(es, v) + [P("}")]
  {
    hide PrintEntries;
  }

  lemma PrintBinary(op: string, l: Expr, r: Expr, v: string)
    ensures Print(Binary(op, l, r), LevelOf(op), v)
         == Print(l, LevelOf(op), v) + [Token(Operator, op)] + Print(r, LevelOf(op) + 1, v)
  {
  }

  /** A left-associative chain: after reading `e` the loop of the level goes on with `e` as its left operand. */
  lemma {:induction false} ReadsChain(e: Expr, level: nat, printed: nat, ts: seq<Token>, i: nat, v: string)
    requires 1 <= level <= 6 && level <= printed <= 9 && Printed(e, level + 1, printed, ts, i, v)
    ensures ParseLevel(level, ts, i, v) == BinaryRest(level, e, ts, End(e, printed, i, v), v)
    decreases e, if Own(e) < printed then 1 else 0, 8 - level, 0
  {
    hide ParseLevel, BinaryRest, Print, Bare, TokenList, Has, LevelOf, Operators;
    if Own(e) == level && printed == level {
      var op, l, r := e.op, e.left, e.right;
      var pl, pr := Print(l, level, v), Print(r, level + 1, v);
      var k := i + |pl|;
      PrintBinary(op, l, r, v);
      OperatorLevels(op);
      OperatorFollows(op);
      HasInfix(ts, i, pl, Token(Operator, op), pr);
      ReadsChain(l, level, level, ts, i, v);
      ReadsBack(r, level + 1, level + 1, ts, k + 1, v);
      LoopRule(level, l, ts, k, v, r, End(e, level, i, v));
    } else {
      hide Producible;
      PrintAbove(e, printed, level + 1, v);
      ReadsBack(e, level + 1, Max(printed, level + 1), ts, i, v);
      OperandRule(level, ts, i, v, e, End(e, printed, i, v));
    }
  }

  lemma {:induction false} ReadsUnary(e: Expr, printed: nat, ts: seq<Token>, i: nat, v: string)
    requires 7 <= printed <= 9 && Printed(e, 7, printed, ts, i, v)
    ensures ParseLevel(7, ts, i, v) == Ok((e, End(e, printed, i, v)))
    decreases e, if Own(e) < printed then 1 else 0, 1, 0
  {
    hide Has, LevelOf, Operators, TokenList, ParseLevel, Producible, Print, Bare;
    if Own(e) == 7 && printed == 7 {
      OwnSeven(e);
      var op := Token(Operator, e.op);
      PrintUnary(e, v);
      HasSplit(ts, i, [op], Print(e.operand, 7, v));
      HasFirst(ts, i, [op]);
      ReadsBack(e.operand, 7, 7, ts, i + 1, v);
      UnaryRule(ts, i, v);
    } else {
      PrintAbove(e, printed, 8, v);
      FollowsWeaker(7, ts[End(e, printed, i, v)]);
      NotAnOperator(e, printed, v);
      HasFirst(ts, i, Print(e, printed, v));
      ReadsBack(e, 8, Max(printed, 8), ts, i, v);
      PrimaryCase(7, ts, i, v);
      PrimaryCase(8, ts, i, v);
    }
  }

  lemma PrintUnary(e: Expr, v: string)
    requires e.Unary?
    ensures Print(e, 7, v) == [Token(Operator, e.op)] + Print(e.operand, 7, v)
  {
  }

  lemma UnaryRule(ts: seq<Token>, i: nat, v: string)
    requires TokenList(ts) && i < |ts| && ts[i].kind == Operator && ts[i].value in UNARY_OPERATORS
    ensures i + 1 < |ts|
    ensures ParseLevel(7, ts, i, v) ==
      match ParseLevel(7, ts, i + 1, v)
      case Ok(operand) => Ok((Unary(ts[i].value, operand.0), operand.1))
      case Err(e) => Err(e)
  {
    hide BinaryRest, ParsePrimary;
    TokenAt(ts, i);
  }

  lemma OwnSeven(e: Expr)
    requires Producible(e) && Own(e) == 7
    ensures e.Unary? && Producible(e.operand) && e.op in UNARY_OPERATORS
  {
    if e.Binary? {
      OperatorLevels(e.op);
    }
  }

  lemma NotAnOperator(e: Expr, printed: nat, v: string)
    requires Own(e) == 8 || Own(e) < printed
    ensures Print(e, printed, v)[0].kind != Operator
  {
    if e.Binary? && Own(e) == 8 {
      OperatorLevels(e.op);
    }
  }

  lemma {:induction false} ReadsParenthesised(e: Expr, printed: nat, ts: seq<Token>, i: nat, v: string)
    requires Own(e) < printed <= 9 && Printed(e, 8, printed, ts, i, v)
    ensures ParseLevel(8, ts, i, v) == Ok((e, End(e, printed, i, v)))
    decreases e, 1, 0, 0
  {
    hide ParseLevel, Has, Producible, Bare, TokenList, Print, Own;
    var inner := Print(e, 0, v);
    PrintParenthesised(e, printed, v);
    HasBracketed(ts, i, P("("), inner, P(")"));
    ReadsBack(e, 0, 0, ts, i + 1, v);
    ParenthesesRule(ts, i, v, e, i + 1 + |inner|);
  }

  lemma {:induction false} ReadsPrimary(e: Expr, ts: seq<Token>, i: nat, v: string)
    requires Own(e) == 8 && Printed(e, 8, 8, ts, i, v)
    ensures ParseLevel(8, ts, i, v) == Ok((e, End(e, 8, i, v)))
    decreases e, 0, 0, 1
  {
    hide Has, TokenList;
    HasFirst(ts, i, Print(e, 8, v));
    match e
    case ArrayExpr(elements) =>
      hide Producible, Print;
      ReadsArray(elements, ts, i, v);
    case ObjectExpr(entries) =>
      hide Producible, Print;
      ReadsObject(entries, ts, i, v);
    case Binary(op, _, _) =>
      OperatorLevels(op);
      assert false;
    case NumberLit(lexeme) =>
      ReadsAtom(e, ts, i, v);
    case StringLit(_) =>
      ReadsAtom(e, ts, i, v);
    case BoolLit(_) =>
      ReadsAtom(e, ts, i, v);
    case NullLit =>
      ReadsAtom(e, ts, i, v);
    case Input =>
      ReadsAtom(e, ts, i, v);
  }

  lemma ReadsAtom(e: Expr, ts: seq<Token>, i: nat, v: string)
    requires e.NumberLit? || e.StringLit? || e.BoolLit? || e.NullLit? || e.Input?
    requires Producible(e) && v in MODEL_OPTION_NAMES && TokenList(ts) && i + 1 < |ts|
    requires ts[i] == Bare(e, v)[0] && ts[i + 1].value != "("
    ensures ParsePrimary(ts, i, v) == Ok((e, i + 1))
  {
    hide TokenList, ParseLevel, ParseElements, ParseEntries, NumberValue, JsonSafe, IsNumber;
  }

  lemma {:induction false} ReadsArray(es: seq<Expr>, ts: seq<Token>, i: nat, v: string)
    requires Printed(ArrayExpr(es), 8, 8, ts, i, v)
    ensures ParsePrimary(ts, i, v) == Ok((ArrayExpr(es), End(ArrayExpr(es), 8, i, v)))
    decreases ArrayExpr(es), 0, 0, 0
  {
    hide Has, Print, Bare, ParsePrimary, TokenList;
    var body := PrintElements(es, true, v);
    PrintArray(es, v);
    HasBracketed(ts, i, P("["), body, P("]"));
    TokenAt(ts, i + 1);
    ArrayPrimary(ts, i, v);
    if es != [] {
      HasFirst(ts, i + 1, body);
      FirstElementIsNotCloser(es, v);
      if ts[i + 1].value == "]" {
        CloserIsPunctuation(ts[i + 1]);
      }
      ReadsElements(es, true, ts, i + 1, v);
    }
  }

  /** Only a bracket or a string literal reads `]`. */
  lemma CloserIsPunctuation(t: Token)
    requires Canonical(t) && (t.value == "]" || t.value == "}")
    ensures t.kind == Punctuation || t.kind == String
  {
  }

  lemma {:induction false} BareIsNotCloser(e: Expr, v: string)
    ensures Bare(e, v)[0] != P("]") && Bare(e, v)[0] != P("}")
    decreases e
  {
    match e
    case Binary(op, left, _) =>
      BareIsNotCloser(left, v);
    case Conditional(c, _, _) =>
      BareIsNotCloser(c, v);
    case _ =>
  }

  lemma FirstElementIsNotCloser(es: seq<Expr>, v: string)
    requires es != []
    ensures PrintElements(es, true, v) != []
    ensures PrintElements(es, true, v)[0] != P("]") && PrintElements(es, true, v)[0] != Token(String, "]")
  {
    BareIsNotCloser(es[0], v);
    var first := Print(es[0], ElementLevel(es[0], true, v), v);
    assert PrintElements(es, true, v)[0] == first[0];
  }

  lemma {:induction false} ReadsElements(es: seq<Expr>, first: bool, ts: seq<Token>, i: nat, v: string)
    requires es != [] && forall n :: 0 <= n < |es| ==> Producible(es[n])
    requires v in MODEL_OPTION_NAMES && TokenList(ts)
    requires Has(ts, i, PrintElements(es, first, v))
    requires i + |PrintElements(es, first, v)| < |ts| && ts[i + |PrintElements(es, first, v)|] == P("]")
    ensures ParseElements(ts, i, v) == Ok((es, i + |PrintElements(es, first, v)| + 1))
    decreases es, 0, 0, 0
  {
    hide ParseLevel, ParseElements, Has, Producible, Print, PrintElements, TokenList, ElementLevel;
    var printed := ElementLevel(es[0], first, v);
    var k := End(es[0], printed, i, v);
    ElementLevelBound(es[0], first, v);
    ElementParts(es, first, ts, i, v);
    ReadsBack(es[0], 0, printed, ts, i, v);
    if |es| == 1 {
      LastElementRule(ts, i, v, es[0], k);
      assert es == [es[0]];
    } else {
      ReadsElements(es[1..], false, ts, k + 1, v);
      NextElementRule(ts, i, v, es[0], k, es[1..], k + 1 + |PrintElements(es[1..], false, v)| + 1);
      assert es == [es[0]] + es[1..];
    }
  }

  /** Where the pieces of a printed element list are. */
  lemma ElementParts(es: seq<Expr>, first: bool, ts: seq<Token>, i: nat, v: string)
    requires es != [] && Has(ts, i, PrintElements(es, first, v))
    ensures
      var printed := ElementLevel(es[0], first, v);
      var k := End(es[0], printed, i, v);
      && Has(ts, i, Print(es[0], printed, v))
      && (|es| == 1 ==> k == i + |PrintElements(es, first, v)|)
      && (|es| > 1 ==>
            && k < |ts| && ts[k] == P(",") && Has(ts, k + 1, PrintElements(es[1..], false, v))
            && k + 1 + |PrintElements(es[1..], false, v)| == i + |PrintElements(es, first, v)|)
  {
    hide Has, Print, ElementLevel;
    var head := Print(es[0], ElementLevel(es[0], first, v), v);
    var k := i + |head|;
    if |es| == 1 {
      assert PrintElements(es, first, v) == head;
    } else {
      var tail := PrintElements(es[1..], false, v);
      assert PrintElements(es, first, v) == head + ([P(",")] + tail);
      HasSplit(ts, i, head, [P(",")] + tail);
      HasSplit(ts, k, [P(",")], tail);
      HasFirst(ts, k, [P(",")]);
    }
  }

  lemma ElementLevelBound(e: Expr, first: bool, v: string)
    ensures ElementLevel(e, first, v) <= 9
  {
  }

  lemma {:induction false} ReadsObject(es: seq<Entry>, ts: seq<Token>, i: nat, v: string)
    requires Printed(ObjectExpr(es), 8, 8, ts, i, v)
    ensures ParsePrimary(ts, i, v) == Ok((ObjectExpr(es), End(ObjectExpr(es), 8, i, v)))
    decreases ObjectExpr(es), 0, 0, 0
  {
    hide Has, Print, Bare, ParsePrimary, TokenList;
    var body := PrintEntries(es, v);
    PrintObject(es, v);
    HasBracketed(ts, i, P("{"), body, P("}"));
    ObjectPrimary(ts, i, v);
    if es != [] {
      HasFirst(ts, i + 1, body);
      assert body[0] == Token(String, es[0].key);
      ReadsEntries(es, {}, ts, i + 1, v);
    }
  }

  /** Where the pieces of a printed entry list are. */
  lemma EntryParts(es: seq<Entry>, ts: seq<Token>, i: nat, v: string)
    requires es != [] && Has(ts, i, PrintEntries(es, v))
    ensures
      var k := End(es[0].value, 0, i + 2, v);
      && i + 2 < |ts| && ts[i] == Token(String, es[0].key) && ts[i + 1] == P(":")
      && Has(ts, i + 2, Print(es[0].value, 0, v))
      && (|es| == 1 ==> k == i + |PrintEntries(es, v)|)
      && (|es| > 1 ==>
            && k < |ts| && ts[k] == P(",") && Has(ts, k + 1, PrintEntries(es[1..], v))
            && k + 1 + |PrintEntries(es[1..], v)| == i + |PrintEntries(es, v)|)
  {
    hide Has, Print;
    var key, value := Token(String, es[0].key), Print(es[0].value, 0, v);
    var k := i + 2 + |value|;
    if |es| == 1 {
      assert PrintEntries(es, v) == [key] + ([P(":")] + value);
      HasSplit(ts, i, [key], [P(":")] + value);
      HasSplit(ts, i + 1, [P(":")], value);
      HasFirst(ts, i, [key]);
      HasFirst(ts, i + 1, [P(":")]);
      HasFirst(ts, i + 2, value);
    } else {
      var rest := PrintEntries(es[1..], v);
      assert PrintEntries(es, v) == [key] + ([P(":")] + (value + ([P(",")] + rest)));
      HasSplit(ts, i, [key], [P(":")] + (value + ([P(",")] + rest)));
      HasSplit(ts, i + 1, [P(":")], value + ([P(",")] + rest));
      HasSplit(ts, i + 2, value, [P(",")] + rest);
      HasSplit(ts, k, [P(",")], rest);
      HasFirst(ts, i, [key]);
      HasFirst(ts, i + 1, [P(":")]);
      HasFirst(ts, i + 2, value);
      HasFirst(ts, k, [P(",")]);
    }
  }

  lemma {:induction false} ReadsEntries(es: seq<Entry>, keys: set<string>, ts: seq<Token>, i: nat, v: string)
    requires es != [] && forall n :: 0 <= n < |es| ==> Producible(es[n].value)
    requires forall m, n :: 0 <= m < n < |es| ==> es[m].key != es[n].key
    requires forall n :: 0 <= n < |es| ==> es[n].key !in keys
    requires v in MODEL_OPTION_NAMES && TokenList(ts)
    requires Has(ts, i, PrintEntries(es, v))
    requires i + |PrintEntries(es, v)| < |ts| && ts[i + |PrintEntries(es, v)|] == P("}")
    ensures ParseEntries(ts, i, keys, v) == Ok((es, i + |PrintEntries(es, v)| + 1))
    decreases es, 0, 0, 0
  {
    hide ParseLevel, ParseEntry, ParseEntries, Has, Producible, Print, TokenList, PrintEntries;
    var first := es[0];
    var k := End(first.value, 0, i + 2, v);
    assert first.value < first;
    EntryParts(es, ts, i, v);
    ReadsBack(first.value, 0, 0, ts, i + 2, v);
    EntryRule(ts, i, keys, v, first.key, first.value, k);
    if |es| == 1 {
      LastEntryRule(ts, i, keys, v, first, k);
      assert es == [first];
    } else {
      ReadsEntries(es[1..], keys + {first.key}, ts, k + 1, v);
      NextEntryRule(ts, i, keys, v, first, k, es[1..], k + 1 + |PrintEntries(es[1..], v)| + 1);
      assert es == [first] + es[1..];
    }
  }

  /******* Printed tokens are canonical *******/

  lemma KeywordsAreIdentifiers(s: string)
    requires s in MODEL_OPTION_NAMES || s == "true" || s == "false" || s == "null"
    ensures IsIdentifier(s)
  {
    assert forall k :: 0 <= k < |s| ==> IsIdentifierPart(s[k]);
  }

  lemma ConcatCanonical(a: seq<Token>, b: seq<Token>)
    requires AllCanonical(a) && AllCanonical(b)
    ensures AllCanonical(a + b)
  {
  }

  lemma OneCanonical(t: Token)
    requires Canonical(t)
    ensures AllCanonical([t])
  {
  }

  lemma {:induction false} PrintCanonical(e: Expr, level: nat, v: string)
    requires Producible(e) && v in MODEL_OPTION_NAMES
    ensures AllCanonical(Print(e, level, v))
    decreases e, 1
  {
    hide AllCanonical, Bare, Producible;
    BareCanonical(e, v);
    OneCanonical(P("("));
    OneCanonical(P(")"));
    ConcatCanonical([P("(")], Bare(e, v));
    ConcatCanonical([P("(")] + Bare(e, v), [P(")")]);
  }

  lemma {:induction false} BareCanonical(e: Expr, v: string)
    requires Producible(e) && v in MODEL_OPTION_NAMES
    ensures AllCanonical(Bare(e, v))
    decreases e, 0
  {
    hide AllCanonical, Print, Canonical;
    match e
    case NumberLit(lexeme) => LeafCanonical(e, v);
    case StringLit(_) => LeafCanonical(e, v);
    case BoolLit(_) => LeafCanonical(e, v);
    case NullLit => LeafCanonical(e, v);
    case Input => LeafCanonical(e, v);
    case ArrayExpr(elements) =>
      ElementsCanonical(elements, true, v);
      BracketsCanonical("[", PrintElements(elements, true, v), "]");
    case ObjectExpr(entries) =>
      EntriesCanonical(entries, v);
      BracketsCanonical("{", PrintEntries(entries, v), "}");
    case Unary(op, operand) =>
      PrintCanonical(operand, 7, v);
      OperatorCanonical(op);
      ConcatCanonical([Token(Operator, op)], Print(operand, 7, v));
    case Binary(op, left, right) =>
      PrintCanonical(left, LevelOf(op), v);
      PrintCanonical(right, LevelOf(op) + 1, v);
      OperatorCanonical(op);
      ConcatCanonical(Print(left, LevelOf(op), v), [Token(Operator, op)]);
      ConcatCanonical(Print(left, LevelOf(op), v) + [Token(Operator, op)], Print(right, LevelOf(op) + 1, v));
    case Conditional(c, t, f) =>
      PrintCanonical(c, 1, v);
      PrintCanonical(t, 0, v);
      PrintCanonical(f, 0, v);
      PunctuationCanonical("?");
      PunctuationCanonical(":");
      var pc, pt, pf := Print(c, 1, v), Print(t, 0, v), Print(f, 0, v);
      ConcatCanonical(pc, [P("?")]);
      ConcatCanonical(pc + [P("?")], pt);
      ConcatCanonical(pc + [P("?")] + pt, [P(":")]);
      ConcatCanonical(pc + [P("?")] + pt + [P(":")], pf);
  }

  lemma LeafCanonical(e: Expr, v: string)
    requires e.NumberLit? || e.StringLit? || e.BoolLit? || e.NullLit? || e.Input?
    requires Producible(e) && v in MODEL_OPTION_NAMES
    ensures AllCanonical(Bare(e, v))
  {
    KeywordsAreIdentifiers("true");
    KeywordsAreIdentifiers("false");
    KeywordsAreIdentifiers("null");
    KeywordsAreIdentifiers(v);
    hide IsIdentifier, IsNumber;
    OneCanonical(Bare(e, v)[0]);
  }

  lemma PunctuationCanonical(s: string)
    requires s in PUNCTUATION
    ensures AllCanonical([P(s)])
  {
  }

  lemma OperatorCanonical(op: string)
    requires LevelOf(op) != 0 || op in UNARY_OPERATORS
    ensures AllCanonical([Token(Operator, op)])
  {
    if LevelOf(op) != 0 {
      OperatorLevels(op);
    }
    OneCanonical(Token(Operator, op));
  }

  lemma BracketsCanonical(open: string, body: seq<Token>, close: string)
    requires open in PUNCTUATION && close in PUNCTUATION && AllCanonical(body)
    ensures AllCanonical([P(open)] + body + [P(close)])
  {
    hide AllCanonical;
    PunctuationCanonical(open);
    PunctuationCanonical(close);
    ConcatCanonical([P(open)], body);
    ConcatCanonical([P(open)] + body, [P(close)]);
  }

  lemma {:induction false} ElementsCanonical(es: seq<Expr>, first: bool, v: string)
    requires forall n :: 0 <= n < |es| ==> Producible(es[n])
    requires v in MODEL_OPTION_NAMES
    ensures AllCanonical(PrintElements(es, first, v))
    decreases es, 0
  {
    hide Print, Producible, ElementLevel;
    if es != [] {
      hide AllCanonical;
      var head := Print(es[0], ElementLevel(es[0], first, v), v);
      PrintCanonical(es[0], ElementLevel(es[0], first, v), v);
      if |es| > 1 {
        ElementsCanonical(es[1..], false, v);
        PunctuationCanonical(",");
        ConcatCanonical([P(",")], PrintElements(es[1..], false, v));
        ConcatCanonical(head, [P(",")] + PrintElements(es[1..], false, v));
      } else {
        assert head + [] == head;
      }
    }
  }

  lemma {:induction false} EntriesCanonical(es: seq<Entry>, v: string)
    requires forall n :: 0 <= n < |es| ==> Producible(es[n].value)
    requires v in MODEL_OPTION_NAMES
    ensures AllCanonical(PrintEntries(es, v))
    decreases es, 0
  {
    hide Print, Producible;
    if es != [] {
      assert es[0].value < es[0];
      var lead, value := [Token(String, es[0].key), P(":")], Print(es[0].value, 0, v);
      assert AllCanonical(lead);
      hide AllCanonical;
      PrintCanonical(es[0].value, 0, v);
      ConcatCanonical(lead, value);
      if |es| > 1 {
        EntriesCanonical(es[1..], v);
        PunctuationCanonical(",");
        ConcatCanonical([P(",")], PrintEntries(es[1..], v));
        ConcatCanonical(lead + value, [P(",")] + PrintEntries(es[1..], v));
      } else {
        assert lead + value + [] == lead + value;
      }
    }
  }

  /******* The parser produces nothing but producible trees *******/

  lemma {:induction false} LevelProducible(level: nat, ts: seq<Token>, i: nat, v: string)
    requires level <= 8 && TokenList(ts) && i < |ts| && ParseLevel(level, ts, i, v).Ok?
    ensures Producible(ParseLevel(level, ts, i, v).value.0)
    decreases |ts| - i, 1, 8 - level, 1
  {
    hide TokenList, ParseLevel, BinaryRest, ParsePrimary, Operators, Producible;
    if level == 0 {
      ConditionalProducible(ts, i, v);
    } else if level <= 6 {
      BinaryCase(level, ts, i, v);
      LevelProducible(level + 1, ts, i, v);
      var first := ParseLevel(level + 1, ts, i, v).value;
      RestProducible(level, first.0, ts, first.1, v);
    } else if level == 7 && ts[i].kind == Operator && ts[i].value in UNARY_OPERATORS {
      UnaryCase(ts, i, v);
      LevelProducible(7, ts, i + 1, v);
    } else {
      PrimaryCase(level, ts, i, v);
      PrimaryProducible(ts, i, v);
    }
  }

  /** The conditional level, with the level proper of both branches. */
  lemma {:induction false} ConditionalProducible(ts: seq<Token>, i: nat, v: string)
    requires TokenList(ts) && i < |ts| && ParseLevel(0, ts, i, v).Ok?
    ensures Producible(ParseLevel(0, ts, i, v).value.0)
    decreases |ts| - i, 1, 8, 0
  {
    hide TokenList, ParseLevel, Operators;
    ConditionalCase(ts, i, v);
    LevelProducible(1, ts, i, v);
    var c := ParseLevel(1, ts, i, v).value;
    if ts[c.1].value == "?" {
      LevelProducible(0, ts, c.1 + 1, v);
      LevelProducible(0, ts, ParseLevel(0, ts, c.1 + 1, v).value.1 + 1, v);
    }
  }

  lemma ConditionalCase(ts: seq<Token>, i: nat, v: string)
    requires TokenList(ts) && i < |ts| && ParseLevel(0, ts, i, v).Ok?
    ensures ParseLevel(1, ts, i, v).Ok?
    ensures
      var c := ParseLevel(1, ts, i, v).value;
      if ts[c.1].value != "?" then ParseLevel(0, ts, i, v) == Ok(c)
      else
        && c.1 + 1 < |ts| && ParseLevel(0, ts, c.1 + 1, v).Ok?
        && var t := ParseLevel(0, ts, c.1 + 1, v).value;
           && t.1 + 1 < |ts| && ts[t.1].value == ":" && ParseLevel(0, ts, t.1 + 1, v).Ok?
           && var f := ParseLevel(0, ts, t.1 + 1, v).value;
              ParseLevel(0, ts, i, v) == Ok((Conditional(c.0, t.0, f.0), f.1))
  {
    hide TokenList, BinaryRest, ParsePrimary;
    var c := ParseLevel(1, ts, i, v).value;
    if ts[c.1].value == "?" {
      TokenAt(ts, c.1);
      TokenAt(ts, ParseLevel(0, ts, c.1 + 1, v).value.1);
    }
  }

  lemma BinaryCase(level: nat, ts: seq<Token>, i: nat, v: string)
    requires 1 <= level <= 6 && TokenList(ts) && i < |ts| && ParseLevel(level, ts, i, v).Ok?
    ensures ParseLevel(level + 1, ts, i, v).Ok?
    ensures
      var first := ParseLevel(level + 1, ts, i, v).value;
      ParseLevel(level, ts, i, v) == BinaryRest(level, first.0, ts, first.1, v)
  {
    hide BinaryRest, ParsePrimary;
  }

  lemma UnaryCase(ts: seq<Token>, i: nat, v: string)
    requires TokenList(ts) && i < |ts| && ts[i].kind == Operator && ts[i].value in UNARY_OPERATORS
    requires ParseLevel(7, ts, i, v).Ok?
    ensures i + 1 < |ts| && ParseLevel(7, ts, i + 1, v).Ok?
    ensures Producible(ParseLevel(7, ts, i + 1, v).value.0) ==> Producible(ParseLevel(7, ts, i, v).value.0)
  {
    hide BinaryRest, ParsePrimary;
    TokenAt(ts, i);
  }

  lemma PrimaryCase(level: nat, ts: seq<Token>, i: nat, v: string)
    requires 7 <= level <= 8 && TokenList(ts) && i < |ts|
    requires level == 8 || ts[i].kind != Operator || ts[i].value !in UNARY_OPERATORS
    ensures ParseLevel(level, ts, i, v) == ParsePrimary(ts, i, v)
  {
    hide BinaryRest, ParsePrimary;
  }

  lemma LevelOfOperator(level: nat, op: string)
    requires 1 <= level <= 6 && op in Operators(level)
    ensures LevelOf(op) != 0
  {
    assert level == 1 || level == 2 || level == 3 || level == 4 || level == 5 || level == 6;
  }

  lemma {:induction false} RestProducible(level: nat, left: Expr, ts: seq<Token>, i: nat, v: string)
    requires 1 <= level <= 6 && TokenList(ts) && i < |ts| && Producible(left)
    requires BinaryRest(level, left, ts, i, v).Ok?
    ensures Producible(BinaryRest(level, left, ts, i, v).value.0)
    decreases |ts| - i, 0, 0
  {
    hide TokenList, ParseLevel, Operators, LevelOf;
    if ts[i].kind == Operator && ts[i].value in Operators(level) {
      TokenAt(ts, i);
      LevelProducible(level + 1, ts, i + 1, v);
      var right := ParseLevel(level + 1, ts, i + 1, v).value;
      LevelOfOperator(level, ts[i].value);
      assert Producible(Binary(ts[i].value, left, right.0));
      RestProducible(level, Binary(ts[i].value, left, right.0), ts, right.1, v);
    }
  }

  lemma {:induction false} PrimaryProducible(ts: seq<Token>, i: nat, v: string)
    requires TokenList(ts) && i < |ts| && ParsePrimary(ts, i, v).Ok?
    ensures Producible(ParsePrimary(ts, i, v).value.0)
    decreases |ts| - i, 0, 0
  {
    hide TokenList, ParseLevel, ParseElements, ParseEntries;
    TokenAt(ts, i);
    var token := ts[i];
    if token.kind == Punctuation && token.value == "(" {
      LevelProducible(0, ts, i + 1, v);
    } else if token.kind == Punctuation && token.value == "[" && ts[i + 1].value != "]" {
      ElementsProducible(ts, i + 1, v);
    } else if token.kind == Punctuation && token.value == "{" && ts[i + 1].value != "}" {
      EntriesProducible(ts, i + 1, {}, v);
    }
  }

  lemma {:induction false} ElementsProducible(ts: seq<Token>, i: nat, v: string)
    requires TokenList(ts) && i < |ts| && ParseElements(ts, i, v).Ok?
    ensures forall n :: 0 <= n < |ParseElements(ts, i, v).value.0| ==> Producible(ParseElements(ts, i, v).value.0[n])
    decreases |ts| - i, 2, 0
  {
    hide TokenList, ParseLevel, Producible;
    LevelProducible(0, ts, i, v);
    var k := ParseLevel(0, ts, i, v).value.1;
    TokenAt(ts, k);
    if ts[k].value == "," {
      ElementsProducible(ts, k + 1, v);
    }
  }

  lemma {:induction false} EntriesProducible(ts: seq<Token>, i: nat, keys: set<string>, v: string)
    requires TokenList(ts) && i < |ts| && ParseEntries(ts, i, keys, v).Ok?
    ensures
      var es := ParseEntries(ts, i, keys, v).value.0;
      && es != [] && ts[i].value == es[0].key
      && (forall n :: 0 <= n < |es| ==> Producible(es[n].value) && es[n].key !in keys)
      && (forall m, n :: 0 <= m < n < |es| ==> es[m].key != es[n].key)
    decreases |ts| - i, 3, 0
  {
    hide TokenList, ParseLevel, Producible;
    TokenAt(ts, i);
    var entry := ParseEntry(ts, i, keys, v).value;
    TokenAt(ts, i + 1);
    LevelProducible(0, ts, i + 2, v);
    TokenAt(ts, entry.1);
    if ts[entry.1].value == "," {
      EntriesProducible(ts, entry.1 + 1, keys + {entry.0.key}, v);
    }
  }

  /******* Main results *******/

  datatype SourceError = LexFailure(lex: LexError) | ParseFailure(parse: ParseError)

  /** `parseRestrictedCel(tokenizeRestrictedCel(source), variableName)`. */
  function ParseSource(source: string, v: string): Result<Expr, SourceError> {
    match Lex(source)
    case Err(e) => Err(LexFailure(e))
    case Ok(ts) =>
      LexGivesTokenList(source);
      match Parse(ts, v)
      case Err(e) => Err(ParseFailure(e))
      case Ok(e) => Ok(e)
  }

  lemma LexGivesTokenList(source: string)
    requires Lex(source).Ok?
    ensures TokenList(Lex(source).value)
  {
    LexedTokensAreCanonical(source, 0);
  }

  /** Source text for a tree. */
  function PrintSource(e: Expr, v: string): string {
    Render(Print(e, 0, v))
  }

  lemma RoundTrip(e: Expr, v: string)
    requires Producible(e) && v in MODEL_OPTION_NAMES
    ensures ParseSource(PrintSource(e, v), v) == Ok(e)
  {
    hide Producible, Print, AllCanonical, ParseLevel, Render, LexFrom;
    var printed := Print(e, 0, v);
    var ts := printed + [EOF];
    PrintCanonical(e, 0, v);
    RenderReadsBack(printed);
    assert ts[..|ts| - 1] == printed && ts[0..|printed|] == printed;
    ReadsBack(e, 0, 0, ts, 0, v);
  }

  /** The parser produces exactly the producible trees, and each of them from its printed form. */
  lemma ParserImage(e: Expr, v: string)
    requires v in MODEL_OPTION_NAMES
    ensures (exists source :: ParseSource(source, v) == Ok(e)) <==> Producible(e)
  {
    hide Producible, ParseLevel, Lex;
    if Producible(e) {
      RoundTrip(e, v);
    }
    if exists source :: ParseSource(source, v) == Ok(e) {
      var source :| ParseSource(source, v) == Ok(e);
      LexGivesTokenList(source);
      LevelProducible(0, Lex(source).value, 0, v);
    }
  }

  /******* Where comparing values instead of kinds shows *******/

  /**
   * A bracketed list whose elements are printed without protecting the first one is read back
   * exactly when it does not start with the string literal `]`.
   */
  lemma PlainArrayReadsBack(es: seq<Expr>, v: string)
    requires Producible(ArrayExpr(es)) && v in MODEL_OPTION_NAMES
    ensures
      var ts := [P("[")] + PrintElements(es, false, v) + [P("]")] + [EOF];
      TokenList(ts) &&
      (Parse(ts, v) == Ok(ArrayExpr(es)) <==> es == [] || Print(es[0], 0, v)[0] != Token(String, "]"))
  {
    hide Print, AllCanonical, ParseLevel;
    var body := PrintElements(es, false, v);
    var printed := [P("[")] + body + [P("]")];
    var ts := printed + [EOF];
    ElementsCanonical(es, false, v);
    BracketsCanonical("[", body, "]");
    assert ts[..|ts| - 1] == printed;
    if es == [] || Print(es[0], 0, v)[0] != Token(String, "]") {
      PlainIsProtected(es, v);
      PrintArray(es, v);
      assert Print(ArrayExpr(es), 8, v) == Print(ArrayExpr(es), 0, v) by {
        PrintIsBare(ArrayExpr(es), v);
      }
      assert ts[0..|printed|] == printed;
      ReadsBack(ArrayExpr(es), 0, 0, ts, 0, v);
    } else {
      PlainStartsWithElement(es, v);
      assert ts[1] == Token(String, "]");
      if ParseLevel(0, ts, 0, v).Ok? {
        ClosesEarly(0, ts, v);
      }
    }
  }

  lemma PrintIsBare(e: Expr, v: string)
    requires Own(e) == 8
    ensures Print(e, 8, v) == Print(e, 0, v)
  {
    hide Bare;
  }

  lemma PlainIsProtected(es: seq<Expr>, v: string)
    requires es == [] || Print(es[0], 0, v)[0] != Token(String, "]")
    ensures PrintElements(es, false, v) == PrintElements(es, true, v)
  {
  }

  lemma PlainStartsWithElement(es: seq<Expr>, v: string)
    requires es != []
    ensures PrintElements(es, false, v) != [] && PrintElements(es, false, v)[0] == Print(es[0], 0, v)[0]
  {
    hide Print;
  }

  /** A leading string `]` closes the array at once: no level reads anything but the empty array there. */
  lemma {:induction false} ClosesEarly(level: nat, ts: seq<Token>, v: string)
    requires level <= 8 && TokenList(ts) && |ts| > 2 && ts[0] == P("[") && ts[1] == Token(String, "]")
    requires ParseLevel(level, ts, 0, v).Ok?
    ensures
      var e := ParseLevel(level, ts, 0, v).value.0;
      e == ArrayExpr([]) || e.Binary? || e.Conditional?
    decreases 8 - level
  {
    hide TokenList, BinaryRest;
    if level == 0 {
      ClosesEarly(1, ts, v);
    } else if level <= 6 {
      ClosesEarly(level + 1, ts, v);
      var first := ParseLevel(level + 1, ts, 0, v).value;
      RestShape(level, first.0, ts, first.1, v);
    } else {
      TokenAt(ts, 0);
      TokenAt(ts, 1);
    }
  }

  /** An object printed with distinct keys is read back exactly when its first key is not the brace that closes it. */
  lemma PlainObjectReadsBack(es: seq<Entry>, v: string)
    requires forall i, j :: 0 <= i < j < |es| ==> es[i].key != es[j].key
    requires forall i :: 0 <= i < |es| ==> Producible(es[i].value)
    requires v in MODEL_OPTION_NAMES
    ensures
      var ts := [P("{")] + PrintEntries(es, v) + [P("}")] + [EOF];
      TokenList(ts) && (Parse(ts, v) == Ok(ObjectExpr(es)) <==> es == [] || es[0].key != "}")
  {
    hide Print, AllCanonical, ParseLevel;
    var body := PrintEntries(es, v);
    var printed := [P("{")] + body + [P("}")];
    var ts := printed + [EOF];
    EntriesCanonical(es, v);
    BracketsCanonical("{", body, "}");
    assert ts[..|ts| - 1] == printed;
    if es == [] || es[0].key != "}" {
      PrintObject(es, v);
      PrintIsBare(ObjectExpr(es), v);
      assert ts[0..|printed|] == printed;
      ReadsBack(ObjectExpr(es), 0, 0, ts, 0, v);
    } else {
      assert body[0] == Token(String, "}") && ts[1] == body[0];
      if ParseLevel(0, ts, 0, v).Ok? {
        ObjectClosesEarly(0, ts, v);
      }
    }
  }

  /** A first key `}` closes the object at once: no level reads anything but the empty object there. */
  lemma {:induction false} ObjectClosesEarly(level: nat, ts: seq<Token>, v: string)
    requires level <= 8 && TokenList(ts) && |ts| > 2 && ts[0] == P("{") && ts[1] == Token(String, "}")
    requires ParseLevel(level, ts, 0, v).Ok?
    ensures
      var e := ParseLevel(level, ts, 0, v).value.0;
      e == ObjectExpr([]) || e.Binary? || e.Conditional?
    decreases 8 - level
  {
    hide TokenList, BinaryRest;
    if level == 0 {
      ObjectClosesEarly(1, ts, v);
    } else if level <= 6 {
      ObjectClosesEarly(level + 1, ts, v);
      var first := ParseLevel(level + 1, ts, 0, v).value;
      RestShape(level, first.0, ts, first.1, v);
    } else {
      TokenAt(ts, 0);
      TokenAt(ts, 1);
    }
  }

  lemma {:induction false} RestShape(level: nat, left: Expr, ts: seq<Token>, i: nat, v: string)
    requires 1 <= level <= 6 && TokenList(ts) && i < |ts| && BinaryRest(level, left, ts, i, v).Ok?
    ensures
      var e := BinaryRest(level, left, ts, i, v).value.0;
      e == left || e.Binary?
    decreases |ts| - i
  {
    hide TokenList, ParseLevel, Operators;
    if ts[i].kind == Operator && ts[i].value in Operators(level) {
      TokenAt(ts, i);
      var right := ParseLevel(level + 1, ts, i + 1, v).value;
      RestShape(level, Binary(ts[i].value, left, right.0), ts, right.1, v);
    }
  }
}
