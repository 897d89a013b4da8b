/** What a request is turned into: each option's value goes to its own program, and the results are merged. */
module OptionMeaning {
  import opened Common
  import opened Json
  import opened CelTokenizer
  import opened CelParser
  import opened CelRoundTrip
  import opened CelEvaluator
  import opened CelSemantics
  import opened CelLexing
  import opened CelGrammar
  import opened MergePatch
  import opened ModelOptionMaps

  /******* Sources *******/

  predicate Blank(s: string) {
    forall k :: 0 <= k < |s| ==> IsSpace(s[k])
  }

  predicate NoEdgeBlank(s: string) {
    s != "" && !IsSpace(s[0]) && !IsSpace(s[|s| - 1])
  }

  lemma {:induction false} TrimsStart(a: string, s: string)
    requires Blank(a) && (s == "" || !IsSpace(s[0]))
    ensures TrimStart(a + s) == s
    decreases |a|
  {
    hide IsSpace;
    if a == "" {
      assert a + s == s;
    } else {
      assert (a + s)[0] == a[0] && (a + s)[1..] == a[1..] + s;
      TrimsStart(a[1..], s);
    }
  }

  lemma {:induction false} TrimsEnd(s: string, b: string)
    requires Blank(b) && (s == "" || !IsSpace(s[|s| - 1]))
    ensures TrimEnd(s + b) == s
    decreases |b|
  {
    hide IsSpace;
    if b == "" {
      assert s + b == s;
    } else {
      var less := b[..|b| - 1];
      assert (s + b)[|s + b| - 1] == b[|b| - 1] && (s + b)[..|s + b| - 1] == s + less;
      TrimsEnd(s, less);
    }
  }

  /** Blanks around a source do not matter, and a blank source is refused. */
  lemma BlanksDoNotMatter(a: string, s: string, b: string)
    requires Blank(a) && Blank(b) && NoEdgeBlank(s)
    ensures NormalizeSource(a + s + b) == Ok(s) && NormalizeSource(a + b) == Err(EmptyExpression)
  {
    hide IsSpace;
    assert a + s + b == a + (s + b);
    assert (s + b)[0] == s[0];
    TrimsStart(a, s + b);
    TrimsEnd(s, b);
    assert Blank(a + b);
    TrimsStart(a + b, "");
    assert (a + b) + "" == a + b;
  }

  /** A trimmed source compiles to `e` exactly when its longest lexemes are a sentence with the tree `e`. */
  lemma CompilesSentences(source: string, e: Expr, v: string)
    requires NoEdgeBlank(source)
    ensures FreshCel(source, v) == Ok(Program(source, e)) <==>
      exists ts :: Munches(source, 0, ts) && TokenList(ts) && |ts| > 0 && Derives(0, e, ts, 0, |ts| - 1, v)
  {
    hide IsSpace, Munches, Derives, Parse, Lex;
    BlanksDoNotMatter("", source, "");
    assert "" + source + "" == source;
    SourcesAreSentences(source, e, v);
    if Lex(source).Ok? {
      LexGivesTokenList(source);
    }
  }

  /******* Requests *******/

  /** What an option-map program gives for a string or a JSON-safe number: the object that its tree means. */
  lemma ProgramMeans(p: Program, input: JsonValue, patch: JsonObject)
    requires Producible(p.expression)
    ensures EvaluateOptionMap(p, input) == Ok(patch) <==>
      && (input.Str? || (input.Num? && Gives(input.n, Ok(input))))
      && Means(p.expression, input, Ok(Object(patch)))
  {
    EvaluatesToMeaning(p.expression, input);
    hide Means, Evaluate, Producible;
  }

  /**
   * The patches of a request, exactly: the reasoning level goes to its own program, the number of output
   * tokens to its own, and the speed, if the model has one, to its own; all that are needed must be given.
   */
  lemma PatchesMean(maps: CompiledMaps, values: OptionValues, patches: seq<NamedPatch>)
    requires maps.Valid()
    ensures Patches(maps, values) == Ok(patches) <==>
      && |patches| == (if maps.speed.Some? then 3 else 2)
      && patches[0].option == "reasoningLevel" && patches[1].option == "maxOutputTokens"
      && values.reasoningLevel.Some?
      && Means(maps.reasoningLevel.expression, Str(values.reasoningLevel.value), Ok(Object(patches[0].patch)))
      && values.maxOutputTokens.Some? && JsonSafe(values.maxOutputTokens.value)
      && Means(maps.maxOutputTokens.expression, Num(values.maxOutputTokens.value), Ok(Object(patches[1].patch)))
      && (maps.speed.Some? ==>
            && patches[2].option == "speed" && values.speed.Some?
            && Means(maps.speed.value.expression, Str(values.speed.value), Ok(Object(patches[2].patch))))
  {
    hide Means, Producible, JsonSafe, OptionPatch;
    var n := if maps.speed.Some? then 3 else 2;
    if values.reasoningLevel.Some? && |patches| == n {
      OptionPatchMeans("reasoningLevel", maps.reasoningLevel, Str(values.reasoningLevel.value), patches[0]);
      OptionPatchMeans("maxOutputTokens", maps.maxOutputTokens,
        if values.maxOutputTokens.Some? then Num(values.maxOutputTokens.value) else Null, patches[1]);
      if maps.speed.Some? && values.speed.Some? {
        OptionPatchMeans("speed", maps.speed.value, Str(values.speed.value), patches[2]);
        assert patches == [patches[0], patches[1], patches[2]];
      } else {
        assert maps.speed.None? ==> patches == [patches[0], patches[1]];
      }
    }
  }

  lemma OptionPatchMeans(option: string, p: Program, input: JsonValue, patch: NamedPatch)
    requires Producible(p.expression)
    ensures OptionPatch(option, p, input) == Ok(patch) <==>
      && patch.option == option && (input.Str? || (input.Num? && JsonSafe(input.n)))
      && Means(p.expression, input, Ok(Object(patch.patch)))
  {
    ProgramMeans(p, input, patch.patch);
    hide EvaluateOptionMap, Means, Producible;
  }
}
