/** The tokenizer of the restricted CEL language (model-option-map/src/tokenizer.ts). */
module CelTokenizer {
  import opened Common

  datatype TokenKind = Identifier | String | Number | Operator | Punctuation | Eof

  datatype Token = Token(kind: TokenKind, value: string)

  datatype LexError =
    | UnterminatedString
    | UnterminatedEscape
    | InvalidUnicodeEscape
    | UnsupportedEscape
    | SurrogateEscape // a lone UTF-16 half: has no `char` in the model
    | UnsupportedToken

  const EOF := Token(Eof, "")

  const DOUBLE_OPERATORS: set<string> := {"&&", "||", "==", "!=", "<=", ">="}
  const SINGLE_OPERATORS: set<string> := {"+", "-", "*", "/", "%", "!", "<", ">"}
  const PUNCTUATION: set<string> := {"{", "}", "[", "]", "(", ")", ",", ":", "?", "."}

  /******* Character classes *******/

  predicate IsDigit(c: char) {
    '0' <= c <= '9'
  }

  predicate IsHexDigit(c: char) {
    '0' <= c <= '9' || 'a' <= c <= 'f' || 'A' <= c <= 'F'
  }

  predicate IsIdentifierStart(c: char) {
    'a' <= c <= 'z' || 'A' <= c <= 'Z' || c == '_'
  }

  predicate IsIdentifierPart(c: char) {
    IsIdentifierStart(c) || IsDigit(c)
  }

  /** White space and line terminators of ECMAScript. */
  predicate IsSpace(c: char) {
    || '\U{9}' <= c <= '\U{D}' || c == ' ' || c == '\U{A0}' || c == '\U{1680}'
    || '\U{2000}' <= c <= '\U{200A}' || c == '\U{2028}' || c == '\U{2029}'
    || c == '\U{202F}' || c == '\U{205F}' || c == '\U{3000}' || c == '\U{FEFF}'
  }

  function SimpleEscape(c: char): Option<char> {
    match c
    case '\'' => Some('\'')
    case '"' => Some('"')
    case '\\' => Some('\\')
    case 'b' => Some('\U{8}')
    case 'f' => Some('\U{C}')
    case 'n' => Some('\n')
    case 'r' => Some('\r')
    case 't' => Some('\t')
    case _ => None
  }

  function HexValue(c: char): (n: nat)
    requires IsHexDigit(c)
    ensures n < 16
  {
    if IsDigit(c) then c as int - '0' as int
    else if 'a' <= c <= 'f' then c as int - 'a' as int + 10
    else c as int - 'A' as int + 10
  }

  /** The code unit named by four hexadecimal digits. */
  function HexNumber(digits: string): (n: nat)
    requires |digits| == 4 && forall c :: c in digits ==> IsHexDigit(c)
    ensures n < 0x10000
  {
    0x1000 * HexValue(digits[0]) + 0x100 * HexValue(digits[1]) + 0x10 * HexValue(digits[2]) + HexValue(digits[3])
  }

  /******* What one step of the tokenizer recognises at an offset *******/

  function SpanDigits(s: string, i: nat): (end: nat)
    requires i <= |s|
    ensures i <= end <= |s|
    ensures forall k :: i <= k < end ==> IsDigit(s[k])
    ensures end < |s| ==> !IsDigit(s[end])
    decreases |s| - i
  {
    if i == |s| || !IsDigit(s[i]) then i else SpanDigits(s, i + 1)
  }

  function SpanIdentifier(s: string, i: nat): (end: nat)
    requires i <= |s|
    ensures i <= end <= |s|
    ensures forall k :: i <= k < end ==> IsIdentifierPart(s[k])
    ensures end < |s| ==> !IsIdentifierPart(s[end])
    decreases |s| - i
  {
    if i == |s| || !IsIdentifierPart(s[i]) then i else SpanIdentifier(s, i + 1)
  }

  function IntegerEnd(s: string, i: nat): (end: nat)
    requires i < |s|
    ensures i <= end <= |s|
  {
    if s[i] == '0' then i + 1 else SpanDigits(s, i)
  }

  function FractionEnd(s: string, i: nat): (end: nat)
    requires i <= |s|
    ensures i <= end <= |s|
  {
    if i < |s| && s[i] == '.' && SpanDigits(s, i + 1) > i + 1 then SpanDigits(s, i + 1) else i
  }

  function ExponentDigits(s: string, i: nat): (start: nat)
    requires i < |s|
    ensures i < start <= |s|
  {
    if i + 1 < |s| && (s[i + 1] == '+' || s[i + 1] == '-') then i + 2 else i + 1
  }

  function ExponentEnd(s: string, i: nat): (end: nat)
    requires i <= |s|
    ensures i <= end <= |s|
  {
    if i < |s| && (s[i] == 'e' || s[i] == 'E') && SpanDigits(s, ExponentDigits(s, i)) > ExponentDigits(s, i)
    then SpanDigits(s, ExponentDigits(s, i))
    else i
  }

  /** The end of the longest match of the number pattern. */
  function NumberEnd(s: string, i: nat): (end: nat)
    requires i < |s|
    ensures i <= end <= |s|
    ensures IsDigit(s[i]) ==> i < end
  {
    ExponentEnd(s, FractionEnd(s, IntegerEnd(s, i)))
  }

  function UnicodeEscape(digits: string): Result<char, LexError>
    requires |digits| == 4
  {
    if !(forall c :: c in digits ==> IsHexDigit(c)) then Err(InvalidUnicodeEscape)
    else
      var unit := HexNumber(digits);
      if 0xD800 <= unit < 0xE000 then Err(SurrogateEscape) else Ok(unit as char)
  }

  /** One character of a string literal, and the offset after it. */
  function StringChar(s: string, i: nat): (r: Result<(char, nat), LexError>)
    requires i < |s|
    ensures r.Ok? ==> i < r.value.1 <= |s|
  {
    if s[i] == '\n' || s[i] == '\r' then Err(UnterminatedString)
    else if s[i] != '\\' then Ok((s[i], i + 1))
    else if i + 1 == |s| then Err(UnterminatedEscape)
    else if SimpleEscape(s[i + 1]).Some? then Ok((SimpleEscape(s[i + 1]).value, i + 2))
    else if s[i + 1] == 'u' then
      if i + 6 > |s| then Err(InvalidUnicodeEscape)
      else
        var unit :- UnicodeEscape(s[i + 2..i + 6]);
        Ok((unit, i + 6))
    else Err(UnsupportedEscape)
  }

  /** A string literal from the offset after its opening quote: its value, and where it ends. */
  function StringBody(s: string, i: nat, quote: char): (r: Result<(string, nat), LexError>)
    requires i <= |s|
    ensures r.Ok? ==> i < r.value.1 <= |s|
    decreases |s| - i
  {
    if i == |s| then Err(UnterminatedString)
    else if s[i] == quote then Ok(("", i + 1))
    else
      var c :- StringChar(s, i);
      var rest :- StringBody(s, c.1, quote);
      Ok(([c.0] + rest.0, rest.1))
  }

  datatype Lexed = Space | Lexeme(token: Token, end: nat) | Failed(error: LexError)

  function LexOne(s: string, i: nat): (r: Lexed)
    requires i < |s|
    ensures r.Lexeme? ==> i < r.end <= |s|
  {
    if IsSpace(s[i]) then Space
    else if s[i] == '\'' || s[i] == '"' then
      match StringBody(s, i + 1, s[i]) {
        case Ok(v) => Lexeme(Token(String, v.0), v.1)
        case Err(e) => Failed(e)
      }
    else if IsDigit(s[i]) then Lexeme(Token(Number, s[i..NumberEnd(s, i)]), NumberEnd(s, i))
    else if IsIdentifierStart(s[i]) then
      var end := SpanIdentifier(s, i + 1);
      Lexeme(Token(Identifier, s[i..end]), end)
    else LexSymbol(s, i)
  }

  /** Two-character operators first, then single characters. */
  function LexSymbol(s: string, i: nat): (r: Lexed)
    requires i < |s|
    ensures r.Lexeme? ==> i < r.end <= |s| && r.token.value == s[i..r.end]
  {
    if i + 2 <= |s| && s[i..i + 2] in DOUBLE_OPERATORS then Lexeme(Token(Operator, s[i..i + 2]), i + 2)
    else if s[i..i + 1] in SINGLE_OPERATORS then Lexeme(Token(Operator, s[i..i + 1]), i + 1)
    else if s[i..i + 1] in PUNCTUATION then Lexeme(Token(Punctuation, s[i..i + 1]), i + 1)
    else Failed(UnsupportedToken)
  }

  function LexFrom(s: string, i: nat): (r: Result<seq<Token>, LexError>)
    requires i <= |s|
    ensures r.Ok? ==> r.value != [] && r.value[|r.value| - 1] == EOF
    decreases |s| - i
  {
    if i == |s| then Ok([EOF])
    else
      match LexOne(s, i)
      case Space => LexFrom(s, i + 1)
      case Lexeme(token, end) => var rest :- LexFrom(s, end); Ok([token] + rest)
      case Failed(e) => Err(e)
  }

  /** All tokens of a source text, closed by the end marker. */
  function Lex(s: string): Result<seq<Token>, LexError> {
    LexFrom(s, 0)
  }

  /******* Implementation *******/

  method ReadWhileIdentifier(source: string, offset: nat) returns (cursor: nat)
    requires offset <= |source|
    ensures cursor == SpanIdentifier(source, offset)
  {
    cursor := offset;
    while cursor < |source| && IsIdentifierPart(source[cursor])
      invariant offset <= cursor <= |source|
      invariant SpanIdentifier(source, offset) == SpanIdentifier(source, cursor)
    {
      cursor := cursor + 1;
    }
  }

  /** Reads the literal whose opening quote is at `offset`. */
  method ReadString(source: string, offset: nat, quote: char)
    returns (r: Result<(string, nat), LexError>)
    requires offset < |source|
    ensures r == StringBody(source, offset + 1, quote)
  {
    hide UnicodeEscape, SimpleEscape;
    var cursor := offset + 1;
    var value := "";
    ghost var whole := StringBody(source, cursor, quote);
    if whole.Ok? {
      AppendLaws(whole.value.0, [], []);
    }
    while cursor < |source|
      invariant offset < cursor <= |source|
      invariant StringBody(source, cursor, quote).Err? ==>
        StringBody(source, offset + 1, quote) == StringBody(source, cursor, quote)
      invariant StringBody(source, cursor, quote).Ok? ==>
        var tail := StringBody(source, cursor, quote).value;
        StringBody(source, offset + 1, quote) == Ok((value + tail.0, tail.1))
    {
      ghost var before, start := value, cursor;
      var character := source[cursor];
      if character == quote {
        AppendLaws(value, [], []);
        return Ok((value, cursor + 1));
      }
      if character == '\n' || character == '\r' {
        return Err(UnterminatedString);
      }
      if character != '\\' {
        value := value + [character];
        cursor := cursor + 1;
      } else {
        cursor := cursor + 1;
        if cursor == |source| {
          return Err(UnterminatedEscape);
        }
        var escaped := source[cursor];
        var simpleEscape := SimpleEscape(escaped);
        if simpleEscape.Some? {
          value := value + [simpleEscape.value];
          cursor := cursor + 1;
        } else if escaped == 'u' {
          if cursor + 5 > |source| {
            return Err(InvalidUnicodeEscape);
          }
          var unit := UnicodeEscape(source[cursor + 1..cursor + 5]);
          if unit.Err? {
            return Err(unit.error);
          }
          value := value + [unit.value];
          cursor := cursor + 5;
        } else {
          return Err(UnsupportedEscape);
        }
      }
      assert StringChar(source, start) == Ok((value[|before|], cursor)) && value == before + [value[|before|]];
      if StringBody(source, cursor, quote).Ok? {
        AppendLaws(before, [value[|before|]], StringBody(source, cursor, quote).value.0);
      }
    }
    r := Err(UnterminatedString);
  }

  /** What one pass adds to the tokens already found. */
  lemma TokenFound(s: string, i: nat, tokens: seq<Token>, whole: Result<seq<Token>, LexError>)
    requires i < |s| && LexOne(s, i).Lexeme?
    requires LexFrom(s, i).Err? ==> whole == LexFrom(s, i)
    requires LexFrom(s, i).Ok? ==> whole == Ok(tokens + LexFrom(s, i).value)
    ensures var found := LexOne(s, i);
      && (LexFrom(s, found.end).Err? ==> whole == LexFrom(s, found.end))
      && (LexFrom(s, found.end).Ok? ==> whole == Ok(tokens + [found.token] + LexFrom(s, found.end).value))
  {
    hide LexOne;
    var found := LexOne(s, i);
    if LexFrom(s, found.end).Ok? {
      AppendLaws(tokens, [found.token], LexFrom(s, found.end).value);
    }
  }

  method Tokenize(source: string) returns (r: Result<seq<Token>, LexError>)
    ensures r == Lex(source)
  {
    hide LexOne;
    var tokens: seq<Token> := [];
    var offset := 0;
    if Lex(source).Ok? {
      AppendLaws(Lex(source).value, [], []);
    }
    while offset < |source|
      invariant 0 <= offset <= |source|
      invariant LexFrom(source, offset).Err? ==> Lex(source) == LexFrom(source, offset)
      invariant LexFrom(source, offset).Ok? ==> Lex(source) == Ok(tokens + LexFrom(source, offset).value)
    {
      var next := NextToken(source, offset);
      match next {
        case Space =>
          offset := offset + 1;
        case Lexeme(token, end) =>
          TokenFound(source, offset, tokens, Lex(source));
          tokens := tokens + [token];
          offset := end;
        case Failed(e) =>
          return Err(e);
      }
    }
    r := Ok(tokens + [EOF]);
  }

  /** One pass through the tokenizer's branches. */
  method NextToken(source: string, offset: nat) returns (r: Lexed)
    requires offset < |source|
    ensures r == LexOne(source, offset)
  {
    var character := source[offset];
    if IsSpace(character) {
      return Space;
    }
    if character == '\'' || character == '"' {
      var read := ReadString(source, offset, character);
      match read {
        case Ok(v) => return Lexeme(Token(String, v.0), v.1);
        case Err(e) => return Failed(e);
      }
    }
    if IsDigit(character) {
      var end := NumberEnd(source, offset);
      return Lexeme(Token(Number, source[offset..end]), end);
    }
    if IsIdentifierStart(character) {
      var end := ReadWhileIdentifier(source, offset + 1);
      return Lexeme(Token(Identifier, source[offset..end]), end);
    }
    if offset + 2 <= |source| && source[offset..offset + 2] in DOUBLE_OPERATORS {
      return Lexeme(Token(Operator, source[offset..offset + 2]), offset + 2);
    }
    if source[offset..offset + 1] in SINGLE_OPERATORS {
      return Lexeme(Token(Operator, source[offset..offset + 1]), offset + 1);
    }
    if source[offset..offset + 1] in PUNCTUATION {
      return Lexeme(Token(Punctuation, source[offset..offset + 1]), offset + 1);
    }
    return Failed(UnsupportedToken);
  }

  /******* The token lists the tokenizer can produce *******/

  predicate IsIdentifier(s: string) {
    s != "" && IsIdentifierStart(s[0]) && SpanIdentifier(s, 0) == |s|
  }

  predicate IsNumber(s: string) {
    s != "" && IsDigit(s[0]) && NumberEnd(s, 0) == |s|
  }

  predicate Canonical(t: Token) {
    match t.kind
    case Identifier => IsIdentifier(t.value)
    case Number => IsNumber(t.value)
    case String => true
    case Operator => t.value in DOUBLE_OPERATORS || t.value in SINGLE_OPERATORS
    case Punctuation => t.value in PUNCTUATION
    case Eof => false
  }

  predicate AllCanonical(tokens: seq<Token>) {
    forall i :: 0 <= i < |tokens| ==> Canonical(tokens[i])
  }

  function EscapedChar(c: char): string {
    if c == '"' then "\\\""
    else if c == '\\' then "\\\\"
    else if c == '\n' then "\\n"
    else if c == '\r' then "\\r"
    else [c]
  }

  function Escaped(s: string): string {
    if s == "" then "" else EscapedChar(s[0]) + Escaped(s[1..])
  }

  function Text(t: Token): string {
    if t.kind == String then "\"" + Escaped(t.value) + "\"" else t.value
  }

  /** Source text for a token list: the tokens separated by single spaces. */
  function Render(tokens: seq<Token>): string {
    if tokens == [] then ""
    else if |tokens| == 1 then Text(tokens[0])
    else Text(tokens[0]) + " " + Render(tokens[1..])
  }

  /******* Every rendered token list is read back *******/

  ghost predicate At(s: string, i: nat, text: string) {
    i + |text| <= |s| && forall k :: 0 <= k < |text| ==> s[i + k] == text[k]
  }

  predicate EndsToken(s: string, end: nat) {
    end == |s| || (end < |s| && s[end] == ' ')
  }

  /** Spans seen through the window `s[i..end]`. */
  lemma {:induction false} SpanDigitsWindow(s: string, i: nat, end: nat, k: nat)
    requires i + k <= end <= |s|
    ensures SpanDigits(s[i..end], k) == (if SpanDigits(s, i + k) <= end then SpanDigits(s, i + k) else end) - i
    decreases end - k
  {
    if i + k < end && IsDigit(s[i + k]) {
      SpanDigitsWindow(s, i, end, k + 1);
    }
  }

  lemma {:induction false} SpanIdentifierWindow(s: string, i: nat, end: nat, k: nat)
    requires i + k <= end <= |s|
    ensures SpanIdentifier(s[i..end], k)
         == (if SpanIdentifier(s, i + k) <= end then SpanIdentifier(s, i + k) else end) - i
    decreases end - k
  {
    if i + k < end && IsIdentifierPart(s[i + k]) {
      SpanIdentifierWindow(s, i, end, k + 1);
    }
  }

  lemma IntegerWindow(s: string, i: nat, end: nat)
    requires i < end <= |s| && IntegerEnd(s, i) <= end
    ensures IntegerEnd(s[i..end], 0) == IntegerEnd(s, i) - i
  {
    SpanDigitsWindow(s, i, end, 0);
  }

  lemma FractionWindow(s: string, i: nat, end: nat, k: nat)
    requires i + k <= end <= |s| && FractionEnd(s, i + k) <= end
    ensures FractionEnd(s[i..end], k) == FractionEnd(s, i + k) - i
  {
    if i + k < end {
      SpanDigitsWindow(s, i, end, k + 1);
    }
  }

  lemma ExponentWindow(s: string, i: nat, end: nat, k: nat)
    requires i + k <= end <= |s| && ExponentEnd(s, i + k) <= end
    ensures ExponentEnd(s[i..end], k) == ExponentEnd(s, i + k) - i
  {
    hide SpanDigits;
    if i + k < end {
      SpanDigitsWindow(s, i, end, ExponentDigits(s[i..end], k));
    }
  }

  lemma NumberWindow(s: string, i: nat, end: nat)
    requires i < end <= |s| && NumberEnd(s, i) <= end
    ensures NumberEnd(s[i..end], 0) == NumberEnd(s, i) - i
  {
    hide IntegerEnd, FractionEnd, ExponentEnd;
    var whole := IntegerEnd(s, i);
    IntegerWindow(s, i, end);
    FractionWindow(s, i, end, whole - i);
    ExponentWindow(s, i, end, FractionEnd(s, whole) - i);
  }

  /** A number never runs past a space. */
  lemma NumberStopsAtSpace(s: string, i: nat, end: nat)
    requires i < end && EndsToken(s, end)
    ensures NumberEnd(s, i) <= end
  {
  }

  lemma AtIsWindow(s: string, i: nat, text: string)
    requires At(s, i, text)
    ensures s[i..i + |text|] == text
  {
  }

  lemma NumberReadsBack(s: string, i: nat, t: Token)
    requires t.kind == Number && IsNumber(t.value) && At(s, i, t.value) && EndsToken(s, i + |t.value|)
    ensures LexOne(s, i) == Lexeme(t, i + |t.value|)
  {
    hide NumberEnd;
    var end := i + |t.value|;
    AtIsWindow(s, i, t.value);
    NumberStopsAtSpace(s, i, end);
    NumberWindow(s, i, end);
    assert s[i] == t.value[0];
  }

  lemma IdentifierReadsBack(s: string, i: nat, t: Token)
    requires t.kind == Identifier && IsIdentifier(t.value) && At(s, i, t.value) && EndsToken(s, i + |t.value|)
    ensures LexOne(s, i) == Lexeme(t, i + |t.value|)
  {
    AtIsWindow(s, i, t.value);
    SpanIdentifierWindow(s, i, i + |t.value|, 1);
    assert s[i] == t.value[0];
  }

  lemma EscapedCharReadsBack(s: string, i: nat, c: char)
    requires At(s, i, EscapedChar(c))
    ensures s[i] != '"' && StringChar(s, i) == Ok((c, i + |EscapedChar(c)|))
  {
    assert s[i] == EscapedChar(c)[0];
    if |EscapedChar(c)| == 2 {
      assert s[i + 1] == EscapedChar(c)[1];
    }
  }

  lemma {:induction false} EscapedReadsBack(s: string, i: nat, v: string)
    requires At(s, i, Escaped(v)) && i + |Escaped(v)| < |s| && s[i + |Escaped(v)|] == '"'
    ensures StringBody(s, i, '"') == Ok((v, i + |Escaped(v)| + 1))
    decreases |v|
  {
    hide StringChar, EscapedChar;
    if v != "" {
      var e := EscapedChar(v[0]);
      assert Escaped(v) == e + Escaped(v[1..]);
      assert At(s, i, e) by {
        assert forall k :: 0 <= k < |e| ==> Escaped(v)[k] == e[k];
      }
      assert At(s, i + |e|, Escaped(v[1..])) by {
        forall k | 0 <= k < |Escaped(v[1..])|
          ensures s[i + |e| + k] == Escaped(v[1..])[k]
        {
          assert Escaped(v)[|e| + k] == Escaped(v[1..])[k];
        }
      }
      EscapedCharReadsBack(s, i, v[0]);
      EscapedReadsBack(s, i + |e|, v[1..]);
      assert v == [v[0]] + v[1..];
    }
  }

  lemma StringReadsBack(s: string, i: nat, t: Token)
    requires t.kind == String && At(s, i, Text(t))
    ensures LexOne(s, i) == Lexeme(t, i + |Text(t)|)
  {
    hide StringBody, Escaped;
    var text, e := Text(t), Escaped(t.value);
    assert s[i] == text[0];
    assert s[i + 1 + |e|] == text[1 + |e|];
    assert At(s, i + 1, e) by {
      forall k | 0 <= k < |e|
        ensures s[i + 1 + k] == e[k]
      {
        assert text[1 + k] == e[k];
      }
    }
    EscapedReadsBack(s, i + 1, t.value);
  }

  predicate IsSymbol(c: char) {
    !IsSpace(c) && !IsDigit(c) && !IsIdentifierStart(c) && c != '\'' && c != '"'
  }

  lemma OperatorShapes(s: string)
    ensures s in DOUBLE_OPERATORS ==> |s| == 2 && s[1] != ' ' && IsSymbol(s[0])
    ensures s in SINGLE_OPERATORS ==> |s| == 1 && IsSymbol(s[0])
    ensures s in PUNCTUATION ==> |s| == 1 && IsSymbol(s[0]) && s !in SINGLE_OPERATORS
  {
  }

  lemma SymbolReadsBack(s: string, i: nat, t: Token)
    requires Canonical(t) && (t.kind == Operator || t.kind == Punctuation)
    requires At(s, i, t.value) && EndsToken(s, i + |t.value|)
    ensures LexOne(s, i) == Lexeme(t, i + |t.value|)
  {
    OperatorShapes(t.value);
    AtIsWindow(s, i, t.value);
    assert s[i] == t.value[0];
    if |t.value| == 1 && i + 2 <= |s| {
      OperatorShapes(s[i..i + 2]);
      assert s[i..i + 2][1] == ' ';
    }
  }

  lemma TokenReadsBack(s: string, i: nat, t: Token)
    requires Canonical(t) && At(s, i, Text(t)) && EndsToken(s, i + |Text(t)|) && i < |s|
    ensures LexOne(s, i) == Lexeme(t, i + |Text(t)|)
  {
    hide LexOne, At;
    match t.kind
    case String => StringReadsBack(s, i, t);
    case Number => NumberReadsBack(s, i, t);
    case Identifier => IdentifierReadsBack(s, i, t);
    case Operator => SymbolReadsBack(s, i, t);
    case Punctuation => SymbolReadsBack(s, i, t);
  }

  lemma TextIsNonEmpty(t: Token)
    requires Canonical(t)
    ensures Text(t) != ""
  {
    OperatorShapes(t.value);
  }

  lemma AtSplit(s: string, i: nat, a: string, b: string)
    requires At(s, i, a + b)
    ensures At(s, i, a) && At(s, i + |a|, b)
  {
    assert forall k :: 0 <= k < |a| ==> (a + b)[k] == a[k];
    forall k | 0 <= k < |b|
      ensures s[i + |a| + k] == b[k]
    {
      assert (a + b)[|a| + k] == b[k];
    }
  }

  lemma {:induction false} RenderReadsBackFrom(s: string, i: nat, tokens: seq<Token>)
    requires AllCanonical(tokens) && At(s, i, Render(tokens)) && i + |Render(tokens)| == |s|
    ensures LexFrom(s, i) == Ok(tokens + [EOF])
    decreases |tokens|
  {
    hide Canonical, LexOne, Text, At;
    if tokens == [] {
      AppendLaws([EOF], [], []);
    } else {
      var text, tail := Text(tokens[0]), tokens[1..];
      var rest := if |tokens| == 1 then "" else " " + Render(tail);
      assert Render(tokens) == text + rest;
      AtSplit(s, i, text, rest);
      TextIsNonEmpty(tokens[0]);
      var end := i + |text|;
      if |tokens| > 1 {
        AtSplit(s, end, " ", Render(tail));
        SpaceAt(s, end);
        assert LexFrom(s, end) == LexFrom(s, end + 1);
      } else {
        AtEnd(s, end);
      }
      TokenReadsBack(s, i, tokens[0]);
      RenderReadsBackFrom(s, |s| - |Render(tail)|, tail);
      assert [tokens[0]] + (tail + [EOF]) == tokens + [EOF];
    }
  }

  lemma SpaceAt(s: string, i: nat)
    requires At(s, i, " ")
    ensures i < |s| && s[i] == ' ' && LexOne(s, i) == Space
  {
    assert s[i + 0] == " "[0];
  }

  lemma AtEnd(s: string, i: nat)
    requires i == |s|
    ensures At(s, i, "")
  {
  }

  lemma RenderReadsBack(tokens: seq<Token>)
    requires AllCanonical(tokens)
    ensures Lex(Render(tokens)) == Ok(tokens + [EOF])
  {
    RenderReadsBackFrom(Render(tokens), 0, tokens);
  }

  /******* ... and nothing else is ever produced *******/

  lemma LexemeIsCanonical(s: string, i: nat)
    requires i < |s| && LexOne(s, i).Lexeme?
    ensures Canonical(LexOne(s, i).token)
  {
    hide NumberEnd, StringBody;
    var r := LexOne(s, i);
    if r.token.kind == Number {
      NumberWindow(s, i, r.end);
    } else if r.token.kind == Identifier {
      SpanIdentifierWindow(s, i, r.end, 0);
    }
  }

  lemma {:induction false} LexedTokensAreCanonical(s: string, i: nat)
    requires i <= |s| && LexFrom(s, i).Ok?
    ensures AllCanonical(LexFrom(s, i).value[..|LexFrom(s, i).value| - 1])
    decreases |s| - i
  {
    hide LexOne, Canonical;
    if i < |s| {
      match LexOne(s, i)
      case Space =>
        LexedTokensAreCanonical(s, i + 1);
      case Lexeme(token, end) =>
        LexemeIsCanonical(s, i);
        LexedTokensAreCanonical(s, end);
        var rest := LexFrom(s, end).value;
        assert ([token] + rest)[..|rest|] == [token] + rest[..|rest| - 1];
    }
  }

  /** A token list can be read from some source text exactly when it is canonical. */
  lemma TokenizerImage(tokens: seq<Token>)
    ensures (exists source :: Lex(source) == Ok(tokens + [EOF])) <==> AllCanonical(tokens)
  {
    hide LexFrom, AllCanonical, Render;
    if AllCanonical(tokens) {
      RenderReadsBack(tokens);
    }
    if exists source :: Lex(source) == Ok(tokens + [EOF]) {
      var source :| Lex(source) == Ok(tokens + [EOF]);
      LexedTokensAreCanonical(source, 0);
      assert (tokens + [EOF])[..|tokens|] == tokens;
    }
  }
}
