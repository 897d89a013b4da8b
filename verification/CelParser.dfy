/** The recursive-descent parser of the restricted CEL language (model-option-map/src/parser.ts). */
module CelParser {
  import opened Common
  import opened CelTokenizer

  /** Syntax trees without offsets. A number keeps its lexeme; `NumberValue` is what it denotes. */
  datatype Expr =
    | NumberLit(lexeme: string)
    | StringLit(s: string)
    | BoolLit(b: bool)
    | NullLit
    | Input
    | ArrayExpr(elements: seq<Expr>)
    | ObjectExpr(entries: seq<Entry>)
    | Unary(op: string, operand: Expr)
    | Binary(op: string, left: Expr, right: Expr)
    | Conditional(condition: Expr, whenTrue: Expr, whenFalse: Expr)

  datatype Entry = Entry(key: string, value: Expr)

  datatype ParseError =
    | MemberAccess
    | FunctionCall
    | UnexpectedToken
    | UnsafeNumber
    | UnknownIdentifier
    | Expected(value: string)
    | KeyNotString
    | DuplicateKey

  const MODEL_OPTION_NAMES: set<string> := {"reasoningLevel", "maxOutputTokens", "speed"}

  const UNARY_OPERATORS: set<string> := {"!", "-", "+"}

  /** The binary operators of one precedence level; levels 1 to 6 bind ever more tightly. */
  function Operators(level: nat): set<string> {
    match level
    case 1 => {"||"}
    case 2 => {"&&"}
    case 3 => {"==", "!="}
    case 4 => {"<", "<=", ">", ">="}
    case 5 => {"+", "-"}
    case 6 => {"*", "/", "%"}
    case _ => {}
  }

  /******* Numbers *******/

  const MAX_SAFE_INTEGER: real := 9007199254740991.0

  predicate IsInteger(r: real) {
    r == r.Floor as real
  }

  predicate JsonSafe(r: real) {
    IsInteger(r) ==> -MAX_SAFE_INTEGER <= r <= MAX_SAFE_INTEGER
  }

  function Pow10(n: nat): (p: real)
    ensures p >= 1.0
  {
    if n == 0 then 1.0 else 10.0 * Pow10(n - 1)
  }

  function DigitsValue(s: string, i: nat, end: nat): nat
    requires i <= end <= |s|
    requires forall k :: i <= k < end ==> IsDigit(s[k])
    decreases end - i
  {
    if i == end then 0
    else
      assert IsDigit(s[end - 1]);
      10 * DigitsValue(s, i, end - 1) + HexValue(s[end - 1])
  }

  /** The exact decimal value of a number lexeme. */
  function NumberValue(s: string): real
    requires IsNumber(s)
  {
    var whole := IntegerEnd(s, 0);
    var fraction := FractionEnd(s, whole);
    var integer := DigitsValue(s, 0, whole) as real;
    var mantissa :=
      if fraction == whole then integer
      else integer + DigitsValue(s, whole + 1, fraction) as real / Pow10(fraction - whole - 1);
    if fraction == |s| then mantissa
    else
      var exponent := Pow10(DigitsValue(s, ExponentDigits(s, fraction), |s|));
      if s[fraction + 1] == '-' then mantissa / exponent else mantissa * exponent
  }

  /******* Specification: parsing from an index *******/

  /** What the tokenizer hands over: canonical tokens closed by the end marker. */
  predicate TokenList(ts: seq<Token>) {
    ts != [] && ts[|ts| - 1] == EOF && AllCanonical(ts[..|ts| - 1])
  }

  lemma TokenAt(ts: seq<Token>, i: nat)
    requires TokenList(ts) && i < |ts|
    ensures ts[i].kind == Eof <==> i == |ts| - 1
    ensures i < |ts| - 1 ==> Canonical(ts[i])
  {
    if i < |ts| - 1 {
      assert ts[..|ts| - 1][i] == ts[i];
    }
  }

  type Parsed = Result<(Expr, nat), ParseError>

  /** Level 0 is the conditional, 1 to 6 the binary operators, 7 unary, 8 primary. */
  function ParseLevel(level: nat, ts: seq<Token>, i: nat, v: string): (r: Parsed)
    requires level <= 8 && TokenList(ts) && i < |ts|
    ensures r.Ok? ==> i < r.value.1 < |ts|
    decreases |ts| - i, 1, 8 - level
  {
    if level == 0 then
      var condition :- ParseLevel(1, ts, i, v);
      if ts[condition.1].value != "?" then Ok(condition)
      else
        TokenAt(ts, condition.1);
        var whenTrue :- ParseLevel(0, ts, condition.1 + 1, v);
        if ts[whenTrue.1].value != ":" then Err(Expected(":"))
        else
          TokenAt(ts, whenTrue.1);
          var whenFalse :- ParseLevel(0, ts, whenTrue.1 + 1, v);
          Ok((Conditional(condition.0, whenTrue.0, whenFalse.0), whenFalse.1))
    else if level <= 6 then
      var first :- ParseLevel(level + 1, ts, i, v);
      BinaryRest(level, first.0, ts, first.1, v)
    else if level == 7 && ts[i].kind == Operator && ts[i].value in UNARY_OPERATORS then
      TokenAt(ts, i);
      var operand :- ParseLevel(7, ts, i + 1, v);
      Ok((Unary(ts[i].value, operand.0), operand.1))
    else ParsePrimary(ts, i, v)
  }

  /** The loop after the first operand of a binary level: operators associate to the left. */
  function BinaryRest(level: nat, left: Expr, ts: seq<Token>, i: nat, v: string): (r: Parsed)
    requires 1 <= level <= 6 && TokenList(ts) && i < |ts|
    ensures r.Ok? ==> i <= r.value.1 < |ts|
    decreases |ts| - i, 0, 0
  {
    if ts[i].kind == Operator && ts[i].value in Operators(level) then
      TokenAt(ts, i);
      var right :- ParseLevel(level + 1, ts, i + 1, v);
      BinaryRest(level, Binary(ts[i].value, left, right.0), ts, right.1, v)
    else Ok((left, i))
  }

  function ParsePrimary(ts: seq<Token>, i: nat, v: string): (r: Parsed)
    requires TokenList(ts) && i < |ts|
    ensures r.Ok? ==> i < r.value.1 < |ts|
    decreases |ts| - i, 0, 0
  {
    TokenAt(ts, i);
    var token := ts[i];
    if token.kind == Number then
      if JsonSafe(NumberValue(token.value)) then Ok((NumberLit(token.value), i + 1)) else Err(UnsafeNumber)
    else if token.kind == String then Ok((StringLit(token.value), i + 1))
    else if token.kind == Identifier then
      if ts[i + 1].value == "(" then Err(FunctionCall)
      else if token.value == v then Ok((Input, i + 1))
      else if token.value == "true" || token.value == "false" then Ok((BoolLit(token.value == "true"), i + 1))
      else if token.value == "null" then Ok((NullLit, i + 1))
      else Err(UnknownIdentifier)
    else if token.value == "(" then
      var inner :- ParseLevel(0, ts, i + 1, v);
      TokenAt(ts, inner.1);
      if ts[inner.1].value == ")" then Ok((inner.0, inner.1 + 1)) else Err(Expected(")"))
    else if token.value == "[" then
      TokenAt(ts, i + 1);
      if ts[i + 1].value == "]" then Ok((ArrayExpr([]), i + 2))
      else
        var elements :- ParseElements(ts, i + 1, v);
        Ok((ArrayExpr(elements.0), elements.1))
    else if token.value == "{" then
      TokenAt(ts, i + 1);
      if ts[i + 1].value == "}" then Ok((ObjectExpr([]), i + 2))
      else
        var entries :- ParseEntries(ts, i + 1, {}, v);
        Ok((ObjectExpr(entries.0), entries.1))
    else Err(UnexpectedToken)
  }

  /** One or more elements and the closing bracket. */
  function ParseElements(ts: seq<Token>, i: nat, v: string): (r: Result<(seq<Expr>, nat), ParseError>)
    requires TokenList(ts) && i < |ts|
    ensures r.Ok? ==> i < r.value.1 < |ts|
    decreases |ts| - i, 2, 0
  {
    var element :- ParseLevel(0, ts, i, v);
    TokenAt(ts, element.1);
    if ts[element.1].value == "," then
      var rest :- ParseElements(ts, element.1 + 1, v);
      Ok(([element.0] + rest.0, rest.1))
    else if ts[element.1].value == "]" then Ok(([element.0], element.1 + 1))
    else Err(Expected("]"))
  }

  /** One `"key": value` pair whose key is outside `keys`. */
  function ParseEntry(ts: seq<Token>, i: nat, keys: set<string>, v: string)
    : (r: Result<(Entry, nat), ParseError>)
    requires TokenList(ts) && i < |ts|
    ensures r.Ok? ==> i < r.value.1 < |ts|
    decreases |ts| - i, 2, 0
  {
    TokenAt(ts, i);
    var key := ts[i];
    if key.kind != String then Err(KeyNotString)
    else if key.value in keys then Err(DuplicateKey)
    else if ts[i + 1].value != ":" then Err(Expected(":"))
    else
      TokenAt(ts, i + 1);
      var value :- ParseLevel(0, ts, i + 2, v);
      Ok((Entry(key.value, value.0), value.1))
  }

  /** One or more entries with keys outside `keys`, and the closing brace. */
  function ParseEntries(ts: seq<Token>, i: nat, keys: set<string>, v: string)
    : (r: Result<(seq<Entry>, nat), ParseError>)
    requires TokenList(ts) && i < |ts|
    ensures r.Ok? ==> i < r.value.1 < |ts|
    decreases |ts| - i, 3, 0
  {
    var entry :- ParseEntry(ts, i, keys, v);
    TokenAt(ts, entry.1);
    if ts[entry.1].value == "," then
      var rest :- ParseEntries(ts, entry.1 + 1, keys + {entry.0.key}, v);
      Ok(([entry.0] + rest.0, rest.1))
    else if ts[entry.1].value == "}" then Ok(([entry.0], entry.1 + 1))
    else Err(Expected("}"))
  }

  /** `parse()`: one expression and nothing after it. */
  function Parse(ts: seq<Token>, v: string): Result<Expr, ParseError>
    requires TokenList(ts)
  {
    var parsed :- ParseLevel(0, ts, 0, v);
    var trailing := ts[parsed.1];
    if trailing.kind == Eof then Ok(parsed.0)
    else if trailing.value == "." then Err(MemberAccess)
    else if trailing.value == "(" then Err(FunctionCall)
    else Err(UnexpectedToken)
  }

  /** What a list is once `done` has been read and `rest` is what is read from here. */
  predicate Remains<T(==)>(
    whole: Result<(seq<T>, nat), ParseError>, done: seq<T>, rest: Result<(seq<T>, nat), ParseError>)
  {
    match rest
    case Ok(tail) => whole == Ok((done + tail.0, tail.1))
    case Err(e) => whole == Err(e)
  }

  lemma NothingRead<T>(whole: Result<(seq<T>, nat), ParseError>)
    ensures Remains(whole, [], whole)
  {
    if whole.Ok? {
      AppendLaws(whole.value.0, [], []);
    }
  }

  /** What the element list is after one more element: the rest after a comma, or its end. */
  lemma ElementRead(
    ts: seq<Token>, i: nat, v: string, whole: Result<(seq<Expr>, nat), ParseError>, done: seq<Expr>)
    requires TokenList(ts) && i < |ts| && Remains(whole, done, ParseElements(ts, i, v))
    ensures
      match ParseLevel(0, ts, i, v)
      case Err(e) => whole == Err(e)
      case Ok(element) =>
        if ts[element.1].value == "," then
          element.1 + 1 < |ts| && Remains(whole, done + [element.0], ParseElements(ts, element.1 + 1, v))
        else
          whole == if ts[element.1].value == "]" then Ok((done + [element.0], element.1 + 1)) else Err(Expected("]"))
  {
    hide ParseLevel, ParseEntries, ParseEntry;
    var element := ParseLevel(0, ts, i, v);
    if element.Ok? {
      TokenAt(ts, element.value.1);
      if ts[element.value.1].value == "," {
        var rest := ParseElements(ts, element.value.1 + 1, v);
        if rest.Ok? {
          AppendLaws(done, [element.value.0], rest.value.0);
        }
      }
    }
  }

  /** What the entry list is after one more entry: the rest after a comma, or its end. */
  lemma EntryRead(
    ts: seq<Token>, i: nat, keys: set<string>, v: string,
    whole: Result<(seq<Entry>, nat), ParseError>, done: seq<Entry>)
    requires TokenList(ts) && i < |ts| && Remains(whole, done, ParseEntries(ts, i, keys, v))
    ensures
      match ParseEntry(ts, i, keys, v)
      case Err(e) => whole == Err(e)
      case Ok(entry) =>
        if ts[entry.1].value == "," then
          && entry.1 + 1 < |ts|
          && Remains(whole, done + [entry.0], ParseEntries(ts, entry.1 + 1, keys + {entry.0.key}, v))
        else
          whole == if ts[entry.1].value == "}" then Ok((done + [entry.0], entry.1 + 1)) else Err(Expected("}"))
  {
    hide ParseEntry, ParseLevel, ParseElements;
    var entry := ParseEntry(ts, i, keys, v);
    if entry.Ok? {
      TokenAt(ts, entry.value.1);
      if ts[entry.value.1].value == "," {
        var rest := ParseEntries(ts, entry.value.1 + 1, keys + {entry.value.0.key}, v);
        if rest.Ok? {
          AppendLaws(done, [entry.value.0], rest.value.0);
        }
      }
    }
  }

  lemma ArrayPrimary(ts: seq<Token>, i: nat, v: string)
    requires TokenList(ts) && i < |ts| && ts[i].kind == Punctuation && ts[i].value == "["
    ensures i + 1 < |ts| && ParsePrimary(ts, i, v) ==
      if ts[i + 1].value == "]" then Ok((ArrayExpr([]), i + 2))
      else
        match ParseElements(ts, i + 1, v)
        case Ok(elements) => Ok((ArrayExpr(elements.0), elements.1))
        case Err(e) => Err(e)
  {
    TokenAt(ts, i);
  }

  lemma ObjectPrimary(ts: seq<Token>, i: nat, v: string)
    requires TokenList(ts) && i < |ts| && ts[i].kind == Punctuation && ts[i].value == "{"
    ensures i + 1 < |ts| && ParsePrimary(ts, i, v) ==
      if ts[i + 1].value == "}" then Ok((ObjectExpr([]), i + 2))
      else
        match ParseEntries(ts, i + 1, {}, v)
        case Ok(entries) => Ok((ObjectExpr(entries.0), entries.1))
        case Err(e) => Err(e)
  {
    TokenAt(ts, i);
  }

  /******* Implementation *******/

  class Parser {
    const tokens: seq<Token>
    const variableName: string
    var index: nat

    constructor (tokens: seq<Token>, variableName: string)
      requires TokenList(tokens)
      ensures Valid() && index == 0 && this.tokens == tokens && this.variableName == variableName
    {
      this.tokens := tokens;
      this.variableName := variableName;
      index := 0;
    }

    ghost predicate Valid()
      reads this
    {
      TokenList(tokens) && index < |tokens|
    }

    /** A method result, together with where the index stands, is what the specification says. */
    ghost predicate Agrees(spec: Parsed, r: Result<Expr, ParseError>)
      reads this
    {
      match r
      case Ok(e) => spec == Ok((e, index))
      case Err(error) => spec == Err(error)
    }

    function Current(): Token
      requires Valid()
      reads this
    {
      tokens[index]
    }

    method Advance() returns (token: Token)
      requires Valid()
      modifies this`index
      ensures Valid()
      ensures token == tokens[old(index)]
      ensures index == if token.kind == Eof then old(index) else old(index) + 1
    {
      TokenAt(tokens, index);
      token := Current();
      if token.kind != Eof {
        index := index + 1;
      }
    }

    method Consume(value: string) returns (consumed: bool)
      requires Valid() && value != ""
      modifies this`index
      ensures Valid()
      ensures consumed <==> tokens[old(index)].value == value
      ensures index == if consumed then old(index) + 1 else old(index)
    {
      TokenAt(tokens, index);
      if Current().value != value {
        return false;
      }
      index := index + 1;
      return true;
    }

    method Expect(value: string) returns (r: Result<Token, ParseError>)
      requires Valid() && value != ""
      modifies this`index
      ensures Valid()
      ensures r == if tokens[old(index)].value == value then Ok(tokens[old(index)]) else Err(Expected(value))
      ensures index == if r.Ok? then old(index) + 1 else old(index)
    {
      TokenAt(tokens, index);
      var token := Current();
      if token.value != value {
        return Err(Expected(value));
      }
      index := index + 1;
      return Ok(token);
    }

    method ParseAll() returns (r: Result<Expr, ParseError>)
      requires Valid() && index == 0
      modifies this`index
      ensures r == Parse(tokens, variableName)
    {
      var expression := ParseConditional();
      if expression.Err? {
        return expression;
      }
      var trailing := Current();
      if trailing.kind != Eof {
        if trailing.value == "." {
          return Err(MemberAccess);
        }
        if trailing.value == "(" {
          return Err(FunctionCall);
        }
        return Err(UnexpectedToken);
      }
      return expression;
    }

    method ParseConditional() returns (r: Result<Expr, ParseError>)
      requires Valid()
      modifies this`index
      ensures Valid() && Agrees(ParseLevel(0, tokens, old(index), variableName), r)
      decreases |tokens| - index, 1, 8, 0
    {
      var condition := ParseBinary(1);
      if condition.Err? {
        return condition;
      }
      var question := Consume("?");
      if !question {
        return condition;
      }
      var whenTrue := ParseConditional();
      if whenTrue.Err? {
        return whenTrue;
      }
      var colon := Expect(":");
      if colon.Err? {
        return Err(colon.error);
      }
      var whenFalse := ParseConditional();
      if whenFalse.Err? {
        return whenFalse;
      }
      return Ok(Conditional(condition.value, whenTrue.value, whenFalse.value));
    }

    /** The six binary levels; the operand parser of a level is the next level. */
    method ParseBinary(level: nat) returns (r: Result<Expr, ParseError>)
      requires Valid() && 1 <= level <= 6
      modifies this`index
      ensures Valid() && Agrees(ParseLevel(level, tokens, old(index), variableName), r)
      decreases |tokens| - index, 1, 8 - level, 0
    {
      var first := ParseOperand(level + 1);
      if first.Err? {
        return first;
      }
      var expression := first.value;
      while Current().kind == Operator && Current().value in Operators(level)
        invariant Valid() && old(index) < index
        invariant ParseLevel(level, tokens, old(index), variableName)
               == BinaryRest(level, expression, tokens, index, variableName)
        decreases |tokens| - index
      {
        var operator := Advance();
        var right := ParseOperand(level + 1);
        if right.Err? {
          return right;
        }
        expression := Binary(operator.value, expression, right.value);
      }
      return Ok(expression);
    }

    method ParseOperand(level: nat) returns (r: Result<Expr, ParseError>)
      requires Valid() && 2 <= level <= 7
      modifies this`index
      ensures Valid() && Agrees(ParseLevel(level, tokens, old(index), variableName), r)
      decreases |tokens| - index, 1, 8 - level, 1
    {
      if level <= 6 {
        r := ParseBinary(level);
      } else {
        r := ParseUnary();
      }
    }

    method ParseUnary() returns (r: Result<Expr, ParseError>)
      requires Valid()
      modifies this`index
      ensures Valid() && Agrees(ParseLevel(7, tokens, old(index), variableName), r)
      decreases |tokens| - index, 1, 1, 0
    {
      var token := Current();
      if token.kind == Operator && token.value in UNARY_OPERATORS {
        var _ := Advance();
        var operand := ParseUnary();
        if operand.Err? {
          return operand;
        }
        return Ok(Unary(token.value, operand.value));
      }
      r := ParsePrimaryToken();
    }

    method ParsePrimaryToken() returns (r: Result<Expr, ParseError>)
      requires Valid()
      modifies this`index
      ensures Valid() && Agrees(ParsePrimary(tokens, old(index), variableName), r)
      decreases |tokens| - index, 1, 0, 0
    {
      TokenAt(tokens, index);
      var token := Advance();
      if token.kind == Number {
        if !JsonSafe(NumberValue(token.value)) {
          return Err(UnsafeNumber);
        }
        return Ok(NumberLit(token.value));
      }
      if token.kind == String {
        return Ok(StringLit(token.value));
      }
      if token.kind == Identifier {
        if Current().value == "(" {
          return Err(FunctionCall);
        }
        if token.value == variableName {
          return Ok(Input);
        }
        if token.value == "true" || token.value == "false" {
          return Ok(BoolLit(token.value == "true"));
        }
        if token.value == "null" {
          return Ok(NullLit);
        }
        return Err(UnknownIdentifier);
      }
      if token.value == "(" {
        var expression := ParseConditional();
        if expression.Err? {
          return expression;
        }
        var close := Expect(")");
        if close.Err? {
          return Err(close.error);
        }
        return expression;
      }
      if token.value == "[" {
        r := ParseArray();
        return;
      }
      if token.value == "{" {
        r := ParseObject();
        return;
      }
      return Err(UnexpectedToken);
    }

    method ParseArray() returns (r: Result<Expr, ParseError>)
      requires Valid() && index > 0 && tokens[index - 1].kind == Punctuation && tokens[index - 1].value == "["
      modifies this`index
      ensures Valid() && Agrees(ParsePrimary(tokens, old(index) - 1, variableName), r)
      decreases |tokens| - index, 3, 0
    {
      hide ParseLevel, ParsePrimary, ParseElements, Remains;
      ArrayPrimary(tokens, index - 1, variableName);
      var elements: seq<Expr> := [];
      var empty := Consume("]");
      if !empty {
        var start := index;
        ghost var whole := ParseElements(tokens, start, variableName);
        NothingRead(whole);
        var more := true;
        while more
          invariant Valid() && start <= index
          invariant more ==> Remains(whole, elements, ParseElements(tokens, index, variableName))
          invariant !more ==>
            whole == if tokens[index].value == "]" then Ok((elements, index + 1)) else Err(Expected("]"))
          decreases |tokens| - index, more
        {
          ElementRead(tokens, index, variableName, whole, elements);
          var element := ParseConditional();
          if element.Err? {
            return element;
          }
          elements := elements + [element.value];
          more := Consume(",");
        }
        var close := Expect("]");
        if close.Err? {
          return Err(close.error);
        }
      }
      return Ok(ArrayExpr(elements));
    }

    method ParseKeyValue(keys: set<string>) returns (r: Result<Entry, ParseError>)
      requires Valid()
      modifies this`index
      ensures Valid()
      ensures ParseEntry(tokens, old(index), keys, variableName) ==
        match r {
          case Ok(entry) => Ok((entry, index))
          case Err(e) => Err(e)
        }
      decreases |tokens| - index, 2, 0
    {
      TokenAt(tokens, index);
      var key := Advance();
      if key.kind != String {
        return Err(KeyNotString);
      }
      if key.value in keys {
        return Err(DuplicateKey);
      }
      var colon := Expect(":");
      if colon.Err? {
        return Err(colon.error);
      }
      var value := ParseConditional();
      if value.Err? {
        return Err(value.error);
      }
      return Ok(Entry(key.value, value.value));
    }

    method ParseObject() returns (r: Result<Expr, ParseError>)
      requires Valid() && index > 0 && tokens[index - 1].kind == Punctuation && tokens[index - 1].value == "{"
      modifies this`index
      ensures Valid() && Agrees(ParsePrimary(tokens, old(index) - 1, variableName), r)
      decreases |tokens| - index, 3, 0
    {
      hide ParseEntry, ParsePrimary, ParseEntries, Remains;
      ObjectPrimary(tokens, index - 1, variableName);
      var entries: seq<Entry> := [];
      var keys: set<string> := {};
      var empty := Consume("}");
      if !empty {
        var start := index;
        ghost var whole := ParseEntries(tokens, start, {}, variableName);
        NothingRead(whole);
        var more := true;
        while more
          invariant Valid() && start <= index
          invariant more ==> Remains(whole, entries, ParseEntries(tokens, index, keys, variableName))
          invariant !more ==>
            whole == if tokens[index].value == "}" then Ok((entries, index + 1)) else Err(Expected("}"))
          decreases |tokens| - index, more
        {
          EntryRead(tokens, index, keys, variableName, whole, entries);
          var entry := ParseKeyValue(keys);
          if entry.Err? {
            return Err(entry.error);
          }
          keys := keys + {entry.value.key};
          entries := entries + [entry.value];
          more := Consume(",");
        }
        var close := Expect("}");
        if close.Err? {
          return Err(close.error);
        }
      }
      return Ok(ObjectExpr(entries));
    }
  }
}
