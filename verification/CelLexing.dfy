/**
 * The lexical grammar of the restricted CEL language, text by text, and that the tokenizer cuts a source
 * exactly into the longest lexemes of this grammar, whatever the spacing.
 */
module CelLexing {
  import opened Common
  import opened CelTokenizer
  import opened CelParser

  /******* Numerals *******/

  predicate Digits(t: string) {
    t != "" && forall k :: 0 <= k < |t| ==> '0' <= t[k] <= '9'
  }

  function ExponentStart(t: string, b: nat): nat {
    if b + 1 < |t| && (t[b + 1] == '+' || t[b + 1] == '-') then b + 2 else b + 1
  }

  /** A numeral with its integer part in `t[..a]`, its fraction in `t[a..b]` and its exponent in `t[b..]`. */
  predicate NumeralAt(t: string, a: nat, b: nat) {
    && 1 <= a <= b <= |t|
    && Digits(t[..a]) && (t[0] == '0' ==> a == 1)
    && (a < b ==> t[a] == '.' && Digits(t[a + 1..b]))
    && (b < |t| ==> (t[b] == 'e' || t[b] == 'E') && ExponentStart(t, b) < |t| && Digits(t[ExponentStart(t, b)..]))
  }

  function Power(n: nat): (p: nat)
    ensures p >= 1
  {
    if n == 0 then 1 else 10 * Power(n - 1)
  }

  function DigitOf(c: char): nat {
    if '0' <= c <= '9' then c as int - '0' as int else 0
  }

  /** Each digit counts by its place. */
  function Positional(t: string): nat {
    if t == "" then 0 else DigitOf(t[0]) * Power(|t| - 1) + Positional(t[1..])
  }

  function Mantissa(t: string, a: nat, b: nat): real
    requires NumeralAt(t, a, b)
  {
    if a == b then Positional(t[..a]) as real
    else Positional(t[..a]) as real + Positional(t[a + 1..b]) as real / Power(b - a - 1) as real
  }

  function Denotes(t: string, a: nat, b: nat): real
    requires NumeralAt(t, a, b)
  {
    if b == |t| then Mantissa(t, a, b)
    else if t[b + 1] == '-' then
      Mantissa(t, a, b) / Power(Positional(t[ExponentStart(t, b)..])) as real
    else
      Mantissa(t, a, b) * Power(Positional(t[ExponentStart(t, b)..])) as real
  }

  lemma SpanIs(t: string, i: nat, end: nat)
    requires i <= end <= |t| && (forall k :: i <= k < end ==> IsDigit(t[k]))
    requires end < |t| ==> !IsDigit(t[end])
    ensures SpanDigits(t, i) == end
  {
  }

  /** The number pattern matches exactly the numerals. */
  lemma NumbersAreNumerals(t: string)
    ensures IsNumber(t) <==> exists a, b :: NumeralAt(t, a, b)
  {
    if IsNumber(t) {
      var a := IntegerEnd(t, 0);
      var b := FractionEnd(t, a);
      assert NumeralAt(t, a, b);
    }
    forall a, b | NumeralAt(t, a, b)
      ensures IsNumber(t)
    {
      PartsAre(t, a, b);
    }
  }

  lemma PartsAre(t: string, a: nat, b: nat)
    requires NumeralAt(t, a, b)
    ensures IntegerEnd(t, 0) == a && FractionEnd(t, a) == b && ExponentEnd(t, b) == |t| && IsDigit(t[0])
  {
    hide IntegerEnd, FractionEnd, ExponentEnd, Digits;
    IntegerPart(t, a);
    FractionPart(t, a, b);
    ExponentPart(t, b);
  }

  lemma IntegerPart(t: string, a: nat)
    requires 1 <= a <= |t| && Digits(t[..a]) && (t[0] == '0' ==> a == 1)
    requires a < |t| ==> !IsDigit(t[a])
    ensures IntegerEnd(t, 0) == a && IsDigit(t[0])
  {
    hide Digits, SpanDigits;
    assert t[0..a] == t[..a];
    DigitsIn(t, 0, a);
    SpanIs(t, 0, a);
  }

  lemma FractionPart(t: string, a: nat, b: nat)
    requires a <= b <= |t| && (a < b ==> t[a] == '.' && Digits(t[a + 1..b]))
    requires b < |t| ==> t[b] == 'e' || t[b] == 'E'
    ensures FractionEnd(t, a) == b
  {
    hide Digits, SpanDigits;
    if a < b {
      DigitsIn(t, a + 1, b);
      SpanIs(t, a + 1, b);
    }
  }

  lemma ExponentPart(t: string, b: nat)
    requires b <= |t|
    requires b < |t| ==> (t[b] == 'e' || t[b] == 'E') && ExponentStart(t, b) < |t| && Digits(t[ExponentStart(t, b)..])
    ensures ExponentEnd(t, b) == |t|
  {
    hide Digits, SpanDigits;
    if b < |t| {
      var start := ExponentStart(t, b);
      assert t[start..] == t[start..|t|];
      DigitsIn(t, start, |t|);
      SpanIs(t, start, |t|);
    }
  }

  lemma DigitsIn(t: string, i: nat, end: nat)
    requires i <= end <= |t| && Digits(t[i..end])
    ensures i < end && forall k :: i <= k < end ==> IsDigit(t[k])
  {
    forall k | i <= k < end
      ensures IsDigit(t[k])
    {
      assert t[k] == t[i..end][k - i];
    }
  }

  lemma {:induction false} PositionalLast(t: string)
    requires t != ""
    ensures Positional(t) == 10 * Positional(t[..|t| - 1]) + DigitOf(t[|t| - 1])
    decreases |t|
  {
    hide DigitOf, Power;
    var front, rest := t[..|t| - 1], t[1..];
    if |t| > 1 {
      PositionalLast(rest);
      assert rest[..|rest| - 1] == front[1..] && rest[|rest| - 1] == t[|t| - 1] && front[0] == t[0];
      TenTimes(DigitOf(t[0]), |t| - 2);
    } else {
      assert rest == "" && front == "";
      OnePower();
    }
  }

  lemma TenTimes(d: nat, n: nat)
    ensures d * Power(n + 1) == 10 * (d * Power(n))
  {
    var p := Power(n);
    assert Power(n + 1) == 10 * p;
    assert d * (10 * p) == 10 * (d * p);
  }

  lemma OnePower()
    ensures Power(0) == 1
  {
  }

  lemma {:induction false} DigitsArePositional(t: string, i: nat, end: nat)
    requires i <= end <= |t| && forall k :: i <= k < end ==> IsDigit(t[k])
    ensures DigitsValue(t, i, end) == Positional(t[i..end])
    decreases end - i
  {
    if i < end {
      DigitsArePositional(t, i, end - 1);
      var window := t[i..end];
      PositionalLast(window);
      assert window[..|window| - 1] == t[i..end - 1];
    } else {
      assert t[i..end] == "";
    }
  }

  lemma {:induction false} PowersOfTen(n: nat)
    ensures Pow10(n) == Power(n) as real
  {
    if n > 0 {
      PowersOfTen(n - 1);
    }
  }

  lemma IntegerDenotes(t: string, a: nat)
    requires 1 <= a <= |t| && Digits(t[..a])
    ensures (forall k :: 0 <= k < a ==> IsDigit(t[k])) && DigitsValue(t, 0, a) == Positional(t[..a])
  {
    assert t[0..a] == t[..a];
    DigitsIn(t, 0, a);
    DigitsArePositional(t, 0, a);
  }

  lemma WindowDenotes(t: string, i: nat, end: nat)
    requires i <= end <= |t| && Digits(t[i..end])
    ensures (forall k :: i <= k < end ==> IsDigit(t[k])) && DigitsValue(t, i, end) == Positional(t[i..end])
  {
    DigitsIn(t, i, end);
    DigitsArePositional(t, i, end);
  }

  /** What the parser takes a numeral for is what its digits, its point and its exponent denote. */
  lemma NumeralDenotes(t: string, a: nat, b: nat)
    requires NumeralAt(t, a, b)
    ensures IsNumber(t) && NumberValue(t) == Denotes(t, a, b)
  {
    hide Positional, DigitsValue, Power, Pow10, Digits, IntegerEnd, FractionEnd, ExponentEnd;
    PartsAre(t, a, b);
    assert NumberEnd(t, 0) == |t|;
    IntegerDenotes(t, a);
    if a < b {
      WindowDenotes(t, a + 1, b);
      PowersOfTen(b - a - 1);
    }
    if b < |t| {
      var start := ExponentStart(t, b);
      assert t[start..] == t[start..|t|];
      WindowDenotes(t, start, |t|);
      PowersOfTen(Positional(t[start..]));
    }
  }

  /******* String literals *******/

  predicate HexDigitIs(c: char, n: nat) {
    n < 16 && (c == "0123456789abcdef"[n] || c == "0123456789ABCDEF"[n])
  }

  ghost predicate UnitIs(d: string, unit: nat) {
    && |d| == 4
    && exists p: nat, q: nat, r: nat, s: nat ::
         HexDigitIs(d[0], p) && HexDigitIs(d[1], q) && HexDigitIs(d[2], r) && HexDigitIs(d[3], s)
         && unit == 4096 * p + 256 * q + 16 * r + s
  }

  predicate EscapeIs(e: char, c: char) {
    || (e == '\'' && c == '\'') || (e == '"' && c == '"') || (e == '\\' && c == '\\')
    || (e == 'b' && c as int == 8) || (e == 't' && c as int == 9) || (e == 'n' && c as int == 10)
    || (e == 'f' && c as int == 12) || (e == 'r' && c as int == 13)
  }

  /** One character of a literal: itself, an escape, or the code of a character that is no surrogate. */
  ghost predicate Piece(t: string, quote: char, c: char) {
    || (|t| == 1 && t[0] == c && c != quote && c != '\\' && c as int != 10 && c as int != 13)
    || (|t| == 2 && t[0] == '\\' && EscapeIs(t[1], c))
    || (|t| == 6 && t[0] == '\\' && t[1] == 'u' && UnitIs(t[2..], c as int))
  }

  /** The text between the quotes is a sequence of pieces that spell `value`. */
  ghost predicate Content(t: string, quote: char, value: string)
    decreases |t|
  {
    if t == "" then value == ""
    else
      && value != ""
      && exists n: nat :: 1 <= n <= |t| && Piece(t[..n], quote, value[0]) && Content(t[n..], quote, value[1..])
  }

  lemma HexValueIs(c: char, n: nat)
    ensures HexDigitIs(c, n) <==> IsHexDigit(c) && HexValue(c) == n
  {
    if HexDigitIs(c, n) {
      HexTable(n);
    } else if IsHexDigit(c) {
      HexTable(HexValue(c));
    }
  }

  lemma HexTable(n: nat)
    requires n < 16
    ensures "0123456789abcdef"[n] as int == if n < 10 then '0' as int + n else 'a' as int + n - 10
    ensures "0123456789ABCDEF"[n] as int == if n < 10 then '0' as int + n else 'A' as int + n - 10
  {
  }

  lemma UnitsAgree(d: string, c: char)
    requires |d| == 4
    ensures UnitIs(d, c as int) <==> UnicodeEscape(d) == Ok(c)
  {
    HexAgree(d);
    hide HexDigitIs, HexValue, IsHexDigit, UnitIs, HexNumber;
  }

  lemma HexAgree(d: string)
    requires |d| == 4
    ensures (exists unit: nat :: UnitIs(d, unit)) <==> forall k :: k in d ==> IsHexDigit(k)
    ensures (forall k :: k in d ==> IsHexDigit(k)) ==> forall unit: nat :: UnitIs(d, unit) <==> unit == HexNumber(d)
  {
    forall i: nat, n: nat | i < 4
      ensures HexDigitIs(d[i], n) <==> IsHexDigit(d[i]) && HexValue(d[i]) == n
    {
      HexValueIs(d[i], n);
    }
    hide HexDigitIs, HexValue;
    assert d == [d[0], d[1], d[2], d[3]];
    if forall k :: k in d ==> IsHexDigit(k) {
      assert IsHexDigit(d[0]) && IsHexDigit(d[1]) && IsHexDigit(d[2]) && IsHexDigit(d[3]);
      assert HexDigitIs(d[0], HexValue(d[0])) && HexDigitIs(d[1], HexValue(d[1]));
      assert HexDigitIs(d[2], HexValue(d[2])) && HexDigitIs(d[3], HexValue(d[3]));
      assert UnitIs(d, HexNumber(d));
    }
    forall unit: nat | UnitIs(d, unit)
      ensures forall k :: k in d ==> IsHexDigit(k)
    {
    }
  }

  /** A piece at an offset is what the tokenizer reads there, and it reads nothing else. */
  lemma PieceIsRead(s: string, i: nat, n: nat, quote: char, c: char)
    requires i + n <= |s| && n > 0 && (quote == '\'' || quote == '"')
    ensures Piece(s[i..i + n], quote, c) <==> s[i] != quote && StringChar(s, i) == Ok((c, i + n))
  {
    var t := s[i..i + n];
    assert t[0] == s[i];
    if n >= 2 {
      assert t[1] == s[i + 1];
    }
    if n == 6 {
      assert t[2..] == s[i + 2..i + 6];
      UnitsAgree(t[2..], c);
    }
    hide UnicodeEscape, UnitIs;
    EscapesAgree(c);
  }

  lemma EscapesAgree(c: char)
    ensures forall e :: EscapeIs(e, c) <==> SimpleEscape(e) == Some(c)
  {
  }

  /** A literal is read up to its first closing quote, as the value that its content spells. */
  lemma {:induction false} ContentIsRead(s: string, i: nat, end: nat, quote: char, value: string)
    requires i <= end < |s| && (quote == '\'' || quote == '"')
    ensures s[end] == quote && Content(s[i..end], quote, value) <==> StringBody(s, i, quote) == Ok((value, end + 1))
    decreases end - i
  {
    hide Piece, StringChar, StringBody, Content;
    BodyGoesOn(s, i, quote);
    if i == end {
      assert s[i..end] == "";
      NoContent(quote, value);
      if s[i] != quote && StringChar(s, i).Ok? {
        BodyMoves(s, StringChar(s, i).value.1, quote);
      }
    } else {
      if s[end] == quote && Content(s[i..end], quote, value) {
        var n := FirstPiece(s, i, end, quote, value);
        PieceIsRead(s, i, n, quote, value[0]);
        ContentIsRead(s, i + n, end, quote, value[1..]);
        assert value == [value[0]] + value[1..];
      }
      if StringBody(s, i, quote) == Ok((value, end + 1)) {
        BodyAfter(s, i, quote, value, end);
        var n: nat := StringChar(s, i).value.1 - i;
        PieceIsRead(s, i, n, quote, value[0]);
        ContentIsRead(s, i + n, end, quote, value[1..]);
        ContentFrom(s, i, end, quote, value, n);
      }
    }
  }

  lemma NoContent(quote: char, value: string)
    ensures Content("", quote, value) <==> value == ""
  {
  }

  lemma FirstPiece(s: string, i: nat, end: nat, quote: char, value: string) returns (n: nat)
    requires i < end <= |s| && Content(s[i..end], quote, value)
    ensures 1 <= n <= end - i && value != ""
    ensures Piece(s[i..i + n], quote, value[0]) && Content(s[i + n..end], quote, value[1..])
  {
    hide Piece;
    var t := s[i..end];
    n :| 1 <= n <= |t| && Piece(t[..n], quote, value[0]) && Content(t[n..], quote, value[1..]);
    assert t[..n] == s[i..i + n] && t[n..] == s[i + n..end];
  }

  lemma ContentFrom(s: string, i: nat, end: nat, quote: char, value: string, n: nat)
    requires i < end <= |s| && 1 <= n <= end - i && value != ""
    requires Piece(s[i..i + n], quote, value[0]) && Content(s[i + n..end], quote, value[1..])
    ensures Content(s[i..end], quote, value)
  {
    hide Piece;
    var t := s[i..end];
    assert t[..n] == s[i..i + n] && t[n..] == s[i + n..end];
  }

  lemma BodyMoves(s: string, i: nat, quote: char)
    requires i <= |s|
    ensures StringBody(s, i, quote).Ok? ==> StringBody(s, i, quote).value.1 > i
  {
  }

  lemma BodyGoesOn(s: string, i: nat, quote: char)
    requires i < |s|
    ensures StringBody(s, i, quote) ==
      if s[i] == quote then Ok(("", i + 1))
      else if StringChar(s, i).Err? then Err(StringChar(s, i).error)
      else
        var c := StringChar(s, i).value;
        var rest := StringBody(s, c.1, quote);
        if rest.Err? then rest else Ok(([c.0] + rest.value.0, rest.value.1))
  {
    hide StringChar;
  }

  lemma BodyAfter(s: string, i: nat, quote: char, value: string, end: nat)
    requires i < end < |s| && StringBody(s, i, quote) == Ok((value, end + 1))
    ensures s[i] != quote && StringChar(s, i).Ok? && value != "" && value[0] == StringChar(s, i).value.0
    ensures StringChar(s, i).value.1 <= end
    ensures StringBody(s, StringChar(s, i).value.1, quote) == Ok((value[1..], end + 1))
  {
    BodyGoesOn(s, i, quote);
    hide StringChar, StringBody;
    var rest := StringBody(s, StringChar(s, i).value.1, quote);
    assert ([StringChar(s, i).value.0] + rest.value.0)[1..] == rest.value.0;
  }

  /******* Lexemes *******/

  predicate Letter(c: char) {
    'a' <= c <= 'z' || 'A' <= c <= 'Z' || c == '_'
  }

  /** `t` is the text of one token. */
  ghost predicate LexemeIs(t: string, token: Token) {
    match token.kind
    case Identifier =>
      t == token.value && t != "" && Letter(t[0]) && forall k :: 0 <= k < |t| ==> Letter(t[k]) || '0' <= t[k] <= '9'
    case Number => t == token.value && exists a, b :: NumeralAt(t, a, b)
    case String =>
      && |t| >= 2 && (t[0] == '\'' || t[0] == '"') && t[|t| - 1] == t[0]
      && Content(t[1..|t| - 1], t[0], token.value)
    case Operator =>
      && t == token.value
      && t in {"&&", "||", "==", "!=", "<=", ">=", "+", "-", "*", "/", "%", "!", "<", ">"}
    case Punctuation => t == token.value && t in {"{", "}", "[", "]", "(", ")", ",", ":", "?", "."}
    case Eof => false
  }

  /** No longer text from the same offset on is one token. */
  ghost predicate Longest(s: string, i: nat, end: nat, token: Token) {
    && i < end <= |s| && LexemeIs(s[i..end], token)
    && forall e, other :: end < e <= |s| ==> !LexemeIs(s[i..e], other)
  }

  /** The source from `i` on is cut into these tokens: blanks apart, always the longest lexeme. */
  ghost predicate Munches(s: string, i: nat, tokens: seq<Token>)
    decreases |s| - i
  {
    if i >= |s| then tokens == [EOF]
    else if IsSpace(s[i]) then Munches(s, i + 1, tokens)
    else tokens != [] && exists end: nat :: Longest(s, i, end, tokens[0]) && Munches(s, end, tokens[1..])
  }

  lemma {:induction false} SpanReaches(s: string, i: nat, end: nat)
    requires i <= end <= |s| && forall k :: i <= k < end ==> IsIdentifierPart(s[k])
    ensures SpanIdentifier(s, i) >= end
    decreases end - i
  {
    if i < end {
      SpanReaches(s, i + 1, end);
    }
  }

  lemma IdentifierAgrees(s: string, i: nat, e: nat, u: Token)
    requires i < e <= |s| && u.kind == Identifier && LexemeIs(s[i..e], u)
    ensures var r := LexOne(s, i);
      r.Lexeme? && r.end >= e && (r.end == e ==> r.token == u)
  {
    var t := s[i..e];
    assert t[0] == s[i];
    forall k | i <= k < e
      ensures IsIdentifierPart(s[k])
    {
      assert s[k] == t[k - i];
    }
    SpanReaches(s, i + 1, e);
  }

  lemma NumberAgrees(s: string, i: nat, e: nat, u: Token)
    requires i < e <= |s| && u.kind == Number && LexemeIs(s[i..e], u)
    ensures var r := LexOne(s, i);
      r.Lexeme? && r.end >= e && (r.end == e ==> r.token == u)
  {
    var t := s[i..e];
    assert t[0] == s[i];
    NumbersAreNumerals(t);
    hide NumberEnd, NumeralAt;
    if NumberEnd(s, i) <= e {
      NumberWindow(s, i, e);
    }
  }

  lemma StringAgrees(s: string, i: nat, e: nat, u: Token)
    requires i < e <= |s| && u.kind == String && LexemeIs(s[i..e], u)
    ensures LexOne(s, i) == Lexeme(u, e)
  {
    var t := s[i..e];
    assert t[0] == s[i] && t[|t| - 1] == s[e - 1];
    Inside(s, i, e);
    hide Content, StringBody;
    ContentIsRead(s, i + 1, e - 1, s[i], u.value);
  }

  lemma SymbolAgrees(s: string, i: nat, e: nat, u: Token)
    requires i < e <= |s| && (u.kind == Operator || u.kind == Punctuation) && LexemeIs(s[i..e], u)
    ensures var r := LexOne(s, i);
      r.Lexeme? && r.end >= e && (r.end == e ==> r.token == u)
  {
    var t := s[i..e];
    OperatorShapes(t);
    assert t[0] == s[i];
    if |t| == 1 {
      assert t == s[i..i + 1];
    }
  }

  /** Wherever the grammar has a lexeme, the tokenizer reads one that is no shorter. */
  lemma LexemeAgrees(s: string, i: nat, e: nat, u: Token)
    requires i < e <= |s| && LexemeIs(s[i..e], u)
    ensures var r := LexOne(s, i);
      r.Lexeme? && r.end >= e && (r.end == e ==> r.token == u)
  {
    hide LexOne, LexemeIs;
    match u.kind
    case Identifier => IdentifierAgrees(s, i, e, u);
    case Number => NumberAgrees(s, i, e, u);
    case String => StringAgrees(s, i, e, u);
    case Operator => SymbolAgrees(s, i, e, u);
    case Punctuation => SymbolAgrees(s, i, e, u);
    case Eof => NoEnd(s[i..e], u);
  }

  lemma NoEnd(t: string, u: Token)
    requires u.kind == Eof
    ensures !LexemeIs(t, u)
  {
  }

  lemma Inside(s: string, i: nat, e: nat)
    requires i + 2 <= e <= |s|
    ensures s[i..e][1..e - i - 1] == s[i + 1..e - 1]
  {
    var a, b := s[i..e][1..e - i - 1], s[i + 1..e - 1];
    assert |a| == |b| && forall k :: 0 <= k < |a| ==> a[k] == b[k];
  }

  /** What the tokenizer reads is a lexeme. */
  lemma ReadsLexeme(s: string, i: nat)
    requires i < |s| && LexOne(s, i).Lexeme?
    ensures LexemeIs(s[i..LexOne(s, i).end], LexOne(s, i).token)
  {
    hide Content, StringBody, NumberEnd, NumeralAt;
    if s[i] == '\'' || s[i] == '"' {
      ReadsString(s, i);
    } else if IsDigit(s[i]) {
      NumberWindow(s, i, NumberEnd(s, i));
      NumbersAreNumerals(s[i..NumberEnd(s, i)]);
    } else if IsIdentifierStart(s[i]) {
      ReadsIdentifier(s, i);
    } else {
      ReadsSymbol(s, i);
    }
  }

  lemma ReadsString(s: string, i: nat)
    requires i < |s| && (s[i] == '\'' || s[i] == '"') && LexOne(s, i).Lexeme?
    ensures LexemeIs(s[i..LexOne(s, i).end], LexOne(s, i).token)
  {
    hide Content, StringBody;
    var r := LexOne(s, i);
    BodyEnds(s, i + 1, s[i]);
    ContentIsRead(s, i + 1, r.end - 1, s[i], r.token.value);
    Inside(s, i, r.end);
  }

  lemma ReadsIdentifier(s: string, i: nat)
    requires i < |s| && IsIdentifierStart(s[i]) && LexOne(s, i).Lexeme?
    ensures LexemeIs(s[i..LexOne(s, i).end], LexOne(s, i).token)
  {
    hide SpanIdentifier, StringBody, NumberEnd;
  }

  lemma ReadsSymbol(s: string, i: nat)
    requires i < |s| && s[i] != '\'' && s[i] != '"' && !IsDigit(s[i]) && !IsIdentifierStart(s[i])
    requires LexOne(s, i).Lexeme?
    ensures LexemeIs(s[i..LexOne(s, i).end], LexOne(s, i).token)
  {
    hide StringBody, NumberEnd, SpanIdentifier;
  }

  lemma {:induction false} BodyEnds(s: string, i: nat, quote: char)
    requires i <= |s| && StringBody(s, i, quote).Ok?
    ensures i < StringBody(s, i, quote).value.1 <= |s|
  {
  }

  lemma ReadsLongest(s: string, i: nat, end: nat, token: Token)
    requires i < |s| && !IsSpace(s[i])
    ensures Longest(s, i, end, token) <==> LexOne(s, i) == Lexeme(token, end)
  {
    hide LexOne, LexemeIs;
    if LexOne(s, i) == Lexeme(token, end) {
      ReadsLexeme(s, i);
      forall e, other | end < e <= |s|
        ensures !LexemeIs(s[i..e], other)
      {
        if LexemeIs(s[i..e], other) {
          LexemeAgrees(s, i, e, other);
        }
      }
    }
    if Longest(s, i, end, token) {
      LexemeAgrees(s, i, end, token);
      ReadsLexeme(s, i);
    }
  }

  lemma {:induction false} MunchesFrom(s: string, i: nat, tokens: seq<Token>)
    requires i <= |s|
    ensures LexFrom(s, i) == Ok(tokens) <==> Munches(s, i, tokens)
    decreases |s| - i
  {
    hide LexOne, Longest;
    if i < |s| {
      SpacesAreRead(s, i);
      if IsSpace(s[i]) {
        MunchesFrom(s, i + 1, tokens);
      } else {
        forall end: nat, token
          ensures Longest(s, i, end, token) <==> LexOne(s, i) == Lexeme(token, end)
        {
          ReadsLongest(s, i, end, token);
        }
        if tokens != [] && LexOne(s, i).Lexeme? {
          MunchesFrom(s, LexOne(s, i).end, tokens[1..]);
          assert tokens == [tokens[0]] + tokens[1..];
        }
      }
    }
  }

  lemma SpacesAreRead(s: string, i: nat)
    requires i < |s|
    ensures LexOne(s, i) == Space <==> IsSpace(s[i])
  {
    hide NumberEnd, StringBody, SpanIdentifier, IsSpace, LexSymbol;
    SymbolIsNoSpace(s, i);
  }

  lemma SymbolIsNoSpace(s: string, i: nat)
    requires i < |s|
    ensures LexSymbol(s, i) != Space
  {
  }

  /** The tokens of a source are its longest lexemes; there are none exactly when it cannot be cut like that. */
  lemma MaximalMunch(source: string, tokens: seq<Token>)
    ensures Lex(source) == Ok(tokens) <==> Munches(source, 0, tokens)
  {
    MunchesFrom(source, 0, tokens);
  }
}
