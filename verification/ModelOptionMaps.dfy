/** The memoising compilers and the per-request option maps (model-option-map/src/compiler.ts, option-maps.ts). */
module ModelOptionMaps {
  import opened Common
  import opened Json
  import opened CelTokenizer
  import opened CelParser
  import opened CelRoundTrip
  import opened CelEvaluator
  import opened MergePatch

  datatype CompileError = EmptyExpression | Source(error: SourceError) | NotAnObjectExpression

  /** A compiled program: its trimmed source and the tree that `evaluate` closes over. */
  datatype Program = Program(source: string, expression: Expr)

  /******* What a fresh compilation gives *******/

  function TrimStart(s: string): (t: string)
    ensures t == "" || !IsSpace(t[0])
  {
    if s != "" && IsSpace(s[0]) then TrimStart(s[1..]) else s
  }

  function TrimEnd(s: string): (t: string)
    ensures t == "" || !IsSpace(t[|t| - 1])
  {
    if s != "" && IsSpace(s[|s| - 1]) then TrimEnd(s[..|s| - 1]) else s
  }

  function NormalizeSource(source: string): Result<string, CompileError> {
    var normalized := TrimEnd(TrimStart(source));
    if normalized == "" then Err(EmptyExpression) else Ok(normalized)
  }

  function FreshExpression(source: string, v: string): Result<Expr, CompileError> {
    match ParseSource(source, v)
    case Ok(e) => Ok(e)
    case Err(error) => Err(Source(error))
  }

  function FreshCel(source: string, v: string): Result<Program, CompileError> {
    var normalized :- NormalizeSource(source);
    var expression :- FreshExpression(normalized, v);
    Ok(Program(normalized, expression))
  }

  function FreshOptionMap(source: string, v: string): Result<Program, CompileError> {
    var normalized :- NormalizeSource(source);
    var expression :- FreshExpression(normalized, v);
    if ObjectResult(expression) then Ok(Program(normalized, expression)) else Err(NotAnObjectExpression)
  }

  /** `evaluate` of an option-map program, with its dynamic object check. */
  function EvaluateOptionMap(p: Program, input: JsonValue): Result<JsonObject, EvalError>
    requires Producible(p.expression)
  {
    var value :- EvaluateCel(p.expression, input);
    if value.Object? then Ok(value.fields) else Err(NotAnObject)
  }

  /******* The caches *******/

  function CacheKey(source: string, v: string): string {
    v + "\0" + source
  }

  lemma CacheKeyInjective(s1: string, v1: string, s2: string, v2: string)
    requires v1 in MODEL_OPTION_NAMES && v2 in MODEL_OPTION_NAMES
    requires CacheKey(s1, v1) == CacheKey(s2, v2)
    ensures s1 == s2 && v1 == v2
  {
    NoSeparator(v1);
    NoSeparator(v2);
    var key := CacheKey(s1, v1);
    assert key[|v1|] == '\0' && key[|v2|] == '\0';
    assert forall i :: 0 <= i < |v1| ==> key[i] == v1[i];
    assert forall i :: 0 <= i < |v2| ==> key[i] == v2[i];
    assert key[..|v1|] == v1 && key[|v1| + 1..] == s1;
    assert key[..|v2|] == v2 && key[|v2| + 1..] == s2;
  }

  lemma NoSeparator(v: string)
    requires v in MODEL_OPTION_NAMES
    ensures forall i :: 0 <= i < |v| ==> v[i] != '\0'
  {
  }

  /** The three module-level caches. */
  class Compiler {
    var programCache: map<string, Program>
    var optionMapCache: map<string, Program>
    var expressionCache: map<string, Expr>

    /** Every entry is what a fresh compilation of its key gives. */
    ghost predicate Valid()
      reads this
    {
      forall s, v {:trigger CacheKey(s, v)} :: v in MODEL_OPTION_NAMES ==>
        && (CacheKey(s, v) in expressionCache ==> FreshExpression(s, v) == Ok(expressionCache[CacheKey(s, v)]))
        && (CacheKey(s, v) in programCache ==>
              FreshExpression(s, v).Ok? && programCache[CacheKey(s, v)] == Program(s, FreshExpression(s, v).value))
        && (CacheKey(s, v) in optionMapCache ==>
              && FreshExpression(s, v).Ok? && ObjectResult(FreshExpression(s, v).value)
              && optionMapCache[CacheKey(s, v)] == Program(s, FreshExpression(s, v).value))
    }

    constructor ()
      ensures Valid()
    {
      programCache, optionMapCache, expressionCache := map[], map[], map[];
    }

    method ParseExpression(source: string, v: string) returns (r: Result<Expr, CompileError>)
      requires Valid() && v in MODEL_OPTION_NAMES
      modifies this`expressionCache
      ensures Valid()
      ensures r == FreshExpression(source, v)
      ensures expressionCache ==
        if r.Ok? then old(expressionCache)[CacheKey(source, v) := r.value] else old(expressionCache)
    {
      hide ParseSource;
      var cacheKey := CacheKey(source, v);
      if cacheKey in expressionCache {
        assert FreshExpression(source, v) == Ok(expressionCache[cacheKey]);
        return Ok(expressionCache[cacheKey]);
      }
      var tokens := Tokenize(source);
      if tokens.Err? {
        LexFailureIsFresh(source, v);
        return Err(Source(LexFailure(tokens.error)));
      }
      LexGivesTokenList(source);
      var parser := new Parser(tokens.value, v);
      var expression := parser.ParseAll();
      ParsedIsFresh(source, v);
      if expression.Err? {
        return Err(Source(ParseFailure(expression.error)));
      }
      forall s, w | w in MODEL_OPTION_NAMES && CacheKey(s, w) == cacheKey
        ensures s == source && w == v
      {
        CacheKeyInjective(s, w, source, v);
      }
      expressionCache := expressionCache[cacheKey := expression.value];
      return Ok(expression.value);
    }

    method CompileRestrictedCel(source: string, v: string) returns (r: Result<Program, CompileError>)
      requires Valid() && v in MODEL_OPTION_NAMES
      modifies this
      ensures Valid()
      ensures r == FreshCel(source, v)
      ensures optionMapCache == old(optionMapCache)
    {
      hide FreshExpression;
      var normalized := NormalizeSource(source);
      if normalized.Err? {
        return Err(normalized.error);
      }
      var normalizedSource := normalized.value;
      var cacheKey := CacheKey(normalizedSource, v);
      if cacheKey in programCache {
        assert FreshExpression(normalizedSource, v).Ok?;
        return Ok(programCache[cacheKey]);
      }
      var expression := ParseExpression(normalizedSource, v);
      if expression.Err? {
        return Err(expression.error);
      }
      var program := Program(normalizedSource, expression.value);
      forall s, w | w in MODEL_OPTION_NAMES && CacheKey(s, w) == cacheKey
        ensures s == normalizedSource && w == v
      {
        CacheKeyInjective(s, w, normalizedSource, v);
      }
      programCache := programCache[cacheKey := program];
      return Ok(program);
    }

    method CompileModelOptionMap(source: string, v: string) returns (r: Result<Program, CompileError>)
      requires Valid() && v in MODEL_OPTION_NAMES
      modifies this
      ensures Valid()
      ensures r == FreshOptionMap(source, v)
      ensures programCache == old(programCache)
    {
      hide FreshExpression, ObjectResult;
      var normalized := NormalizeSource(source);
      if normalized.Err? {
        return Err(normalized.error);
      }
      var normalizedSource := normalized.value;
      var cacheKey := CacheKey(normalizedSource, v);
      if cacheKey in optionMapCache {
        assert FreshExpression(normalizedSource, v).Ok?;
        return Ok(optionMapCache[cacheKey]);
      }
      var expression := ParseExpression(normalizedSource, v);
      if expression.Err? {
        return Err(expression.error);
      }
      if !ObjectResult(expression.value) {
        return Err(NotAnObjectExpression);
      }
      var program := Program(normalizedSource, expression.value);
      forall s, w | w in MODEL_OPTION_NAMES && CacheKey(s, w) == cacheKey
        ensures s == normalizedSource && w == v
      {
        CacheKeyInjective(s, w, normalizedSource, v);
      }
      optionMapCache := optionMapCache[cacheKey := program];
      return Ok(program);
    }
  }

  lemma LexFailureIsFresh(source: string, v: string)
    requires Lex(source).Err?
    ensures FreshExpression(source, v) == Err(Source(LexFailure(Lex(source).error)))
  {
  }

  lemma ParsedIsFresh(source: string, v: string)
    requires Lex(source).Ok? && TokenList(Lex(source).value)
    ensures FreshExpression(source, v) ==
      match Parse(Lex(source).value, v)
      case Ok(e) => Ok(e)
      case Err(e) => Err(Source(ParseFailure(e)))
  {
    hide Parse, Lex;
  }

  /******* Accepted programs are safe on every input *******/

  lemma FreshIsProducible(source: string, v: string)
    requires v in MODEL_OPTION_NAMES && FreshExpression(source, v).Ok?
    ensures Producible(FreshExpression(source, v).value)
  {
    hide ParseSource;
    ParserImage(FreshExpression(source, v).value, v);
  }

  /** The dynamic object check of an accepted option map never fires, and its result is JSON-safe. */
  lemma OptionMapIsSafe(source: string, v: string, input: JsonValue)
    requires v in MODEL_OPTION_NAMES && FreshOptionMap(source, v).Ok?
    ensures Producible(FreshOptionMap(source, v).value.expression)
    ensures
      var r := EvaluateOptionMap(FreshOptionMap(source, v).value, input);
      && r != Err(NotAnObject)
      && (r.Ok? ==> Safe(Object(r.value)))
  {
    hide FreshExpression, Producible, Evaluate, ObjectResult;
    var p := FreshOptionMap(source, v).value;
    FreshIsProducible(p.source, v);
    if Evaluate(p.expression, input).Ok? {
      ObjectResultEvaluates(p.expression, input);
      if Safe(input) {
        EvaluateSafe(p.expression, input);
      }
    } else {
      NeverNotAnObject(p.expression, input);
    }
  }

  lemma OperatorsNeverNotAnObject()
    ensures forall op, v :: ApplyUnary(op, v) != Err(NotAnObject)
    ensures forall op, l, r :: Apply(op, l, r) != Err(NotAnObject)
  {
    hide JsonEquals, Remainder;
  }

  lemma BinaryNeverNotAnObject(e: Expr, input: JsonValue)
    requires Producible(e) && e.Binary?
    requires Evaluate(e.left, input) != Err(NotAnObject) && Evaluate(e.right, input) != Err(NotAnObject)
    ensures Evaluate(e, input) != Err(NotAnObject)
  {
    hide LevelOf, Apply;
    OperatorsNeverNotAnObject();
  }

  lemma {:induction false} NeverNotAnObject(e: Expr, input: JsonValue)
    requires Producible(e)
    ensures Evaluate(e, input) != Err(NotAnObject)
    decreases e, 1
  {
    hide NumberValue, IsNumber, LevelOf, Apply, ApplyUnary;
    match e
    case ArrayExpr(elements) => ElementsNeverNotAnObject(elements, input);
    case ObjectExpr(entries) => EntriesNeverNotAnObject(entries, input);
    case Unary(_, operand) =>
      OperatorsNeverNotAnObject();
      NeverNotAnObject(operand, input);
    case Binary(_, left, right) =>
      NeverNotAnObject(left, input);
      NeverNotAnObject(right, input);
      BinaryNeverNotAnObject(e, input);
    case Conditional(c, t, f) =>
      NeverNotAnObject(c, input);
      NeverNotAnObject(t, input);
      NeverNotAnObject(f, input);
    case _ =>
  }

  lemma {:induction false} ElementsNeverNotAnObject(es: seq<Expr>, input: JsonValue)
    requires forall i :: 0 <= i < |es| ==> Producible(es[i])
    ensures EvaluateElements(es, input) != Err(NotAnObject)
    decreases es, 0
  {
    if es != [] {
      NeverNotAnObject(es[0], input);
      ElementsNeverNotAnObject(es[1..], input);
    }
  }

  lemma {:induction false} EntriesNeverNotAnObject(es: seq<Entry>, input: JsonValue)
    requires forall i :: 0 <= i < |es| ==> Producible(es[i].value)
    ensures EvaluateEntries(es, input) != Err(NotAnObject)
    decreases es, 0
  {
    if es != [] {
      assert es[0].value < es[0];
      NeverNotAnObject(es[0].value, input);
      EntriesNeverNotAnObject(es[1..], input);
    }
  }

  /******* Option maps of a model *******/

  datatype ApplyError = MissingValue(option: string) | Evaluation(error: EvalError) | Conflicting(c: Conflict)

  datatype OptionValues = OptionValues(
    reasoningLevel: Option<string>, maxOutputTokens: Option<real>, speed: Option<string>)

  /** Programs compiled once per model; `speed` may be absent. */
  datatype CompiledMaps = CompiledMaps(reasoningLevel: Program, maxOutputTokens: Program, speed: Option<Program>) {
    ghost predicate Valid() {
      && Producible(reasoningLevel.expression)
      && Producible(maxOutputTokens.expression)
      && (speed.Some? ==> Producible(speed.value.expression))
    }
  }

  function OptionPatch(option: string, p: Program, value: JsonValue): Result<NamedPatch, ApplyError>
    requires Producible(p.expression)
  {
    match EvaluateOptionMap(p, value)
    case Ok(patch) => Ok(NamedPatch(option, patch))
    case Err(e) => Err(Evaluation(e))
  }

  /** The patches of one request, in the fixed order reasoning level, output tokens, speed. */
  function Patches(maps: CompiledMaps, values: OptionValues): Result<seq<NamedPatch>, ApplyError>
    requires maps.Valid()
  {
    if values.reasoningLevel.None? then Err(MissingValue("reasoningLevel"))
    else
      var reasoning :- OptionPatch("reasoningLevel", maps.reasoningLevel, Str(values.reasoningLevel.value));
      var tokens :- OptionPatch("maxOutputTokens", maps.maxOutputTokens,
        if values.maxOutputTokens.Some? then Num(values.maxOutputTokens.value) else Null);
      if maps.speed.None? then Ok([reasoning, tokens])
      else if values.speed.None? then Err(MissingValue("speed"))
      else
        var speed :- OptionPatch("speed", maps.speed.value, Str(values.speed.value));
        Ok([reasoning, tokens, speed])
  }

  method ApplyMaps(maps: CompiledMaps, body: JsonObject, values: OptionValues)
    returns (r: Result<JsonObject, ApplyError>)
    requires maps.Valid()
    ensures Patches(maps, values).Err? ==> r == Err(Patches(maps, values).error)
    ensures Patches(maps, values).Ok? ==>
      var patches := Patches(maps, values).value;
      && (r.Ok? <==> NonConflicting(patches))
      && (r.Ok? ==> r.value == Fold(body, patches))
      && (r.Err? ==> r.error.Conflicting? && ConflictBetween(patches, r.error.c))
  {
    var patches: seq<NamedPatch> := [];
    if values.reasoningLevel.None? {
      return Err(MissingValue("reasoningLevel"));
    }
    var patch := OptionPatch("reasoningLevel", maps.reasoningLevel, Str(values.reasoningLevel.value));
    if patch.Err? {
      return Err(patch.error);
    }
    patches := patches + [patch.value];
    patch := OptionPatch("maxOutputTokens", maps.maxOutputTokens,
      if values.maxOutputTokens.Some? then Num(values.maxOutputTokens.value) else Null);
    if patch.Err? {
      return Err(patch.error);
    }
    patches := patches + [patch.value];
    if maps.speed.Some? {
      if values.speed.None? {
        return Err(MissingValue("speed"));
      }
      patch := OptionPatch("speed", maps.speed.value, Str(values.speed.value));
      if patch.Err? {
        return Err(patch.error);
      }
      patches := patches + [patch.value];
    }
    assert patches == Patches(maps, values).value;
    var merged := ApplyOrderedJsonMergePatches(body, patches);
    match merged {
      case Ok(result) => r := Ok(result);
      case Err(c) => r := Err(Conflicting(c));
    }
  }

  /** Merging safe patches into a safe document keeps every number JSON-safe. */
  lemma {:induction false} MergedSafe(target: JsonObject, patch: JsonObject)
    requires Safe(Object(target)) && Safe(Object(patch))
    ensures Safe(Object(Merged(target, patch)))
    decreases Object(patch)
  {
    forall k | k in Merged(target, patch)
      ensures Safe(Merged(target, patch)[k])
    {
      if k in patch {
        assert Safe(patch[k]);
        if patch[k].Object? {
          assert k in target ==> Safe(target[k]);
          assert Safe(Object(SubObject(target, k)));
          MergedSafe(SubObject(target, k), patch[k].fields);
        }
      } else {
        assert Safe(target[k]);
      }
    }
  }

  lemma {:induction false} FoldSafe(body: JsonObject, patches: seq<NamedPatch>)
    requires Safe(Object(body)) && forall i :: 0 <= i < |patches| ==> Safe(Object(patches[i].patch))
    ensures Safe(Object(Fold(body, patches)))
    decreases |patches|
  {
    if patches != [] {
      assert Safe(Object(patches[0].patch));
      MergedSafe(body, patches[0].patch);
      FoldSafe(Merged(body, patches[0].patch), patches[1..]);
    }
  }

  /** Option maps compiled from accepted sources turn a safe body into a safe body, whatever the values. */
  lemma RequestIsSafe(
    reasoningSource: string, tokensSource: string, speedSource: Option<string>,
    maps: CompiledMaps, body: JsonObject, values: OptionValues)
    requires FreshOptionMap(reasoningSource, "reasoningLevel") == Ok(maps.reasoningLevel)
    requires FreshOptionMap(tokensSource, "maxOutputTokens") == Ok(maps.maxOutputTokens)
    requires speedSource.Some? <==> maps.speed.Some?
    requires speedSource.Some? ==> FreshOptionMap(speedSource.value, "speed") == Ok(maps.speed.value)
    requires Safe(Object(body))
    ensures maps.Valid()
    ensures Patches(maps, values).Err? ==> Patches(maps, values).error != Evaluation(NotAnObject)
    ensures Patches(maps, values).Ok? ==> Safe(Object(Fold(body, Patches(maps, values).value)))
  {
    hide FreshOptionMap, EvaluateOptionMap, Producible, Fold, Safe;
    OptionMapIsSafe(reasoningSource, "reasoningLevel",
      Str(if values.reasoningLevel.Some? then values.reasoningLevel.value else ""));
    OptionMapIsSafe(tokensSource, "maxOutputTokens",
      if values.maxOutputTokens.Some? then Num(values.maxOutputTokens.value) else Null);
    if speedSource.Some? {
      OptionMapIsSafe(speedSource.value, "speed", Str(if values.speed.Some? then values.speed.value else ""));
    }
    if Patches(maps, values).Ok? {
      FoldSafe(body, Patches(maps, values).value);
    }
  }

  /******* Compiling what was printed *******/

  lemma TextHasNoEdgeSpace(t: Token)
    requires Canonical(t)
    ensures Text(t) != "" && !IsSpace(Text(t)[0]) && !IsSpace(Text(t)[|Text(t)| - 1])
  {
    OperatorShapes(t.value);
    if t.kind == Number {
      NumberEndsInDigit(t.value);
    } else if t.kind == Identifier {
      assert IsIdentifierPart(t.value[|t.value| - 1]);
    } else if t.kind == Operator && |t.value| == 2 {
      assert t.value in DOUBLE_OPERATORS;
      assert !IsSpace(t.value[1]);
    }
  }

  lemma NumberEndsInDigit(s: string)
    requires IsNumber(s)
    ensures IsDigit(s[|s| - 1])
  {
    var whole := IntegerEnd(s, 0);
    var fraction := FractionEnd(s, whole);
    assert IsDigit(s[whole - 1]);
    assert fraction > whole ==> IsDigit(s[fraction - 1]);
  }

  lemma {:induction false} RenderHasNoEdgeSpace(tokens: seq<Token>)
    requires AllCanonical(tokens) && tokens != []
    ensures
      var s := Render(tokens);
      s != "" && !IsSpace(s[0]) && !IsSpace(s[|s| - 1])
    decreases |tokens|
  {
    hide Text, IsSpace, Canonical;
    TextHasNoEdgeSpace(tokens[0]);
    if |tokens| > 1 {
      RenderHasNoEdgeSpace(tokens[1..]);
      var tail := Render(tokens[1..]);
      assert Render(tokens)[|Render(tokens)| - 1] == tail[|tail| - 1];
    }
  }

  /** Every producible tree has a source that compiles to exactly that tree. */
  lemma CompileRoundTrip(e: Expr, v: string)
    requires Producible(e) && v in MODEL_OPTION_NAMES
    ensures FreshCel(PrintSource(e, v), v) == Ok(Program(PrintSource(e, v), e))
    ensures FreshOptionMap(PrintSource(e, v), v).Ok? <==> ObjectResult(e)
  {
    hide Producible, ParseSource, Render, AllCanonical, IsSpace;
    RoundTrip(e, v);
    PrintCanonical(e, 0, v);
    RenderHasNoEdgeSpace(Print(e, 0, v));
  }
}
