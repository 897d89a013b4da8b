/** The evaluator of the restricted CEL language (model-option-map/src/evaluator.ts), over exact reals. */
module CelEvaluator {
  import opened Common
  import opened Json
  import opened CelTokenizer
  import opened CelParser
  import opened CelRoundTrip

  datatype EvalError =
    | BooleanRequired
    | NumberRequired
    | UnsafeResult
    | ComparisonOperands
    | InvalidInput
    | NotAnObject

  type Evaluated = Result<JsonValue, EvalError>

  /******* Arithmetic *******/

  function Trunc(r: real): int {
    if r >= 0.0 then r.Floor else -((-r).Floor)
  }

  /** The remainder takes the sign of the dividend. */
  function Remainder(a: real, b: real): real
    requires b != 0.0
  {
    a - b * Trunc(a / b) as real
  }

  function AssertNumber(n: real): (r: Evaluated)
    ensures r.Ok? ==> r.value == Num(n) && JsonSafe(n)
  {
    if JsonSafe(n) then Ok(Num(n)) else Err(UnsafeResult)
  }

  function RequireBoolean(value: JsonValue): Result<bool, EvalError> {
    if value.Bool? then Ok(value.b) else Err(BooleanRequired)
  }

  function RequireNumber(value: JsonValue): Result<real, EvalError> {
    if value.Num? then Ok(value.n) else Err(NumberRequired)
  }

  function Times(a: real, b: real): real {
    a * b
  }

  /** A quotient or remainder by zero is not finite, hence not JSON-safe. */
  function Arithmetic(op: string, a: real, b: real): Evaluated {
    if op == "+" then AssertNumber(a + b)
    else if op == "-" then AssertNumber(a - b)
    else if op == "*" then AssertNumber(Times(a, b))
    else if b == 0.0 then Err(UnsafeResult)
    else if op == "/" then AssertNumber(a / b)
    else AssertNumber(Remainder(a, b))
  }

  /******* Comparison and equality *******/

  predicate StringLess(a: string, b: string) {
    b != "" && (a == "" || a[0] < b[0] || (a[0] == b[0] && StringLess(a[1..], b[1..])))
  }

  function Compare(left: JsonValue, right: JsonValue): Result<int, EvalError> {
    if left.Num? && right.Num? then
      Ok(if left.n < right.n then -1 else if left.n > right.n then 1 else 0)
    else if left.Str? && right.Str? then
      Ok(if StringLess(left.s, right.s) then -1 else if StringLess(right.s, left.s) then 1 else 0)
    else Err(ComparisonOperands)
  }

  predicate Holds(op: string, comparison: int) {
    if op == "<" then comparison < 0
    else if op == "<=" then comparison <= 0
    else if op == ">" then comparison > 0
    else comparison >= 0
  }

  predicate JsonEquals(left: JsonValue, right: JsonValue)
    decreases left
  {
    if left.Array? || right.Array? then
      && left.Array? && right.Array?
      && |left.elements| == |right.elements|
      && forall i :: 0 <= i < |left.elements| ==> JsonEquals(left.elements[i], right.elements[i])
    else if left.Object? && right.Object? then
      && |left.fields| == |right.fields|
      && forall k :: k in left.fields ==> k in right.fields && JsonEquals(left.fields[k], right.fields[k])
    else left == right
  }

  /******* Evaluation *******/

  function Evaluate(e: Expr, input: JsonValue): Evaluated
    requires Producible(e)
    decreases e, 1
  {
    match e
    case NumberLit(lexeme) => Ok(Num(NumberValue(lexeme)))
    case StringLit(s) => Ok(Str(s))
    case BoolLit(b) => Ok(Bool(b))
    case NullLit => Ok(Null)
    case Input => Ok(input)
    case ArrayExpr(elements) =>
      var values :- EvaluateElements(elements, input);
      Ok(Array(values))
    case ObjectExpr(entries) =>
      var fields :- EvaluateEntries(entries, input);
      Ok(Object(fields))
    case Unary(op, operand) =>
      var value :- Evaluate(operand, input);
      ApplyUnary(op, value)
    case Binary(op, left, right) =>
      var l :- Evaluate(left, input);
      if op == "&&" || op == "||" then
        var b :- RequireBoolean(l);
        if b == (op == "||") then Ok(Bool(b))
        else
          var r :- Evaluate(right, input);
          var c :- RequireBoolean(r);
          Ok(Bool(c))
      else
        var r :- Evaluate(right, input);
        Apply(op, l, r)
    case Conditional(condition, whenTrue, whenFalse) =>
      var c :- Evaluate(condition, input);
      var b :- RequireBoolean(c);
      if b then Evaluate(whenTrue, input) else Evaluate(whenFalse, input)
  }

  function ApplyUnary(op: string, value: JsonValue): Evaluated {
    if op == "!" then
      var b :- RequireBoolean(value);
      Ok(Bool(!b))
    else
      var n :- RequireNumber(value);
      AssertNumber(if op == "-" then -n else n)
  }

  /** A binary operator that evaluates both operands. */
  function Apply(op: string, l: JsonValue, r: JsonValue): Evaluated {
    if op == "==" then Ok(Bool(JsonEquals(l, r)))
    else if op == "!=" then Ok(Bool(!JsonEquals(l, r)))
    else if op in Operators(4) then
      var comparison :- Compare(l, r);
      Ok(Bool(Holds(op, comparison)))
    else if op == "+" && l.Str? && r.Str? then Ok(Str(l.s + r.s))
    else
      var a :- RequireNumber(l);
      var b :- RequireNumber(r);
      Arithmetic(op, a, b)
  }

  function EvaluateElements(es: seq<Expr>, input: JsonValue): Result<seq<JsonValue>, EvalError>
    requires forall i :: 0 <= i < |es| ==> Producible(es[i])
    decreases es, 0
  {
    if es == [] then Ok([])
    else
      var first :- Evaluate(es[0], input);
      var rest :- EvaluateElements(es[1..], input);
      Ok([first] + rest)
  }

  /** Entries are evaluated from the first; `Producible` makes their keys distinct. */
  function EvaluateEntries(es: seq<Entry>, input: JsonValue): Result<JsonObject, EvalError>
    requires forall i :: 0 <= i < |es| ==> Producible(es[i].value)
    decreases es, 0
  {
    if es == [] then Ok(map[])
    else
      assert es[0].value < es[0];
      var first :- Evaluate(es[0].value, input);
      var rest :- EvaluateEntries(es[1..], input);
      Ok(map[es[0].key := first] + rest)
  }

  /** `evaluateRestrictedCel`: the input must be a string or a JSON-safe number. */
  function EvaluateCel(e: Expr, input: JsonValue): Evaluated
    requires Producible(e)
  {
    if input.Str? then Evaluate(e, input)
    else if input.Num? then
      var _ :- AssertNumber(input.n);
      Evaluate(e, input)
    else Err(InvalidInput)
  }

  /** The loop that fills an object from its entries computes `EvaluateEntries`. */
  method FillObject(entries: seq<Entry>, input: JsonValue) returns (r: Result<JsonObject, EvalError>)
    requires forall i :: 0 <= i < |entries| ==> Producible(entries[i].value)
    requires forall i, j :: 0 <= i < j < |entries| ==> entries[i].key != entries[j].key
    ensures r == EvaluateEntries(entries, input)
  {
    hide Producible, Evaluate;
    var result: JsonObject := map[];
    var i := 0;
    assert entries[0..] == entries;
    if EvaluateEntries(entries, input).Ok? {
      assert result + EvaluateEntries(entries, input).value == EvaluateEntries(entries, input).value;
    }
    while i < |entries|
      invariant 0 <= i <= |entries|
      invariant EvaluateEntries(entries[i..], input).Err? ==>
        EvaluateEntries(entries, input) == EvaluateEntries(entries[i..], input)
      invariant EvaluateEntries(entries[i..], input).Ok? ==>
        EvaluateEntries(entries, input) == Ok(result + EvaluateEntries(entries[i..], input).value)
    {
      ghost var rest := entries[i..];
      assert rest[0] == entries[i] && rest[1..] == entries[i + 1..];
      var value := Evaluate(entries[i].value, input);
      if value.Err? {
        return Err(value.error);
      }
      if EvaluateEntries(entries[i + 1..], input).Ok? {
        MapAppend(result, entries[i].key, value.value, EvaluateEntries(entries[i + 1..], input).value);
      }
      result := result[entries[i].key := value.value];
      i := i + 1;
    }
    assert entries[i..] == [];
    assert result + map[] == result;
    r := Ok(result);
  }

  lemma MapAppend(m: JsonObject, k: string, v: JsonValue, tail: JsonObject)
    ensures m[k := v] + tail == m + (map[k := v] + tail)
  {
  }

  /******* Equality and order mean what they should *******/

  lemma {:induction false} JsonEqualsIsEquality(left: JsonValue, right: JsonValue)
    ensures JsonEquals(left, right) <==> left == right
    decreases left
  {
    if left.Array? && right.Array? && |left.elements| == |right.elements| {
      forall i | 0 <= i < |left.elements|
        ensures JsonEquals(left.elements[i], right.elements[i]) <==> left.elements[i] == right.elements[i]
      {
        JsonEqualsIsEquality(left.elements[i], right.elements[i]);
      }
    } else if left.Object? && right.Object? {
      forall k | k in left.fields && k in right.fields
        ensures JsonEquals(left.fields[k], right.fields[k]) <==> left.fields[k] == right.fields[k]
      {
        JsonEqualsIsEquality(left.fields[k], right.fields[k]);
      }
      if JsonEquals(left, right) {
        SameSizeSubset(left.fields.Keys, right.fields.Keys);
        assert left.fields == right.fields;
      }
    }
  }

  lemma SameSizeSubset<T>(a: set<T>, b: set<T>)
    requires a <= b && |a| == |b|
    ensures a == b
  {
    assert |b| == |a| + |b - a|;
    assert |b - a| == 0;
    assert b == a + (b - a);
  }

  lemma {:induction false} StringLessTotal(a: string, b: string)
    ensures StringLess(a, b) || a == b || StringLess(b, a)
    ensures !(StringLess(a, b) && StringLess(b, a)) && !StringLess(a, a)
  {
    if a != "" {
      StringLessTotal(a[1..], if b == "" then "" else b[1..]);
      if b != "" {
        assert a == [a[0]] + a[1..] && b == [b[0]] + b[1..];
      }
    }
  }

  lemma {:induction false} StringLessTransitive(a: string, b: string, c: string)
    requires StringLess(a, b) && StringLess(b, c)
    ensures StringLess(a, c)
  {
    if a != "" && a[0] == b[0] == c[0] {
      StringLessTransitive(a[1..], b[1..], c[1..]);
    }
  }

  /** On comparable operands exactly one of `<`, `==`, `>` holds, and `<=`, `>=` are their unions. */
  lemma ComparisonTrichotomy(l: JsonValue, r: JsonValue)
    requires Compare(l, r).Ok?
    ensures
      var c := Compare(l, r).value;
      && (c == 0 <==> JsonEquals(l, r))
      && Compare(r, l) == Ok(-c)
      && (Holds("<=", c) <==> Holds("<", c) || JsonEquals(l, r))
      && (Holds(">=", c) <==> !Holds("<", c))
      && (Holds(">", c) <==> !Holds("<=", c))
  {
    if l.Str? {
      StringLessTotal(l.s, r.s);
      StringLessTotal(r.s, l.s);
    }
  }

  /** The remainder has the sign of the dividend and is smaller than the divisor. */
  lemma RemainderBounds(a: real, b: real)
    requires b != 0.0
    ensures a >= 0.0 ==> Remainder(a, b) >= 0.0
    ensures a <= 0.0 ==> Remainder(a, b) <= 0.0
    ensures b > 0.0 ==> -b < Remainder(a, b) < b
    ensures b < 0.0 ==> b < Remainder(a, b) < -b
  {
    hide Trunc;
    var q := a / b;
    var t := Trunc(q) as real;
    TruncBounds(q);
    assert a == q * b;
    var r := Remainder(a, b);
    assert r == q * b - b * t;
    ProductBounds(q - t, b, r);
    ProductSign(q, b, a);
  }

  lemma TruncBounds(q: real)
    ensures q >= 0.0 ==> 0.0 <= q - Trunc(q) as real < 1.0
    ensures q <= 0.0 ==> -1.0 < q - Trunc(q) as real <= 0.0
  {
  }
  lemma ProductBounds(f: real, b: real, p: real)
    requires p == f * b && -1.0 < f < 1.0 && b != 0.0
    ensures b > 0.0 ==> -b < p < b && (f >= 0.0 ==> p >= 0.0) && (f <= 0.0 ==> p <= 0.0)
    ensures b < 0.0 ==> b < p < -b && (f >= 0.0 ==> p <= 0.0) && (f <= 0.0 ==> p >= 0.0)
    decreases b < 0.0
  {
    if b < 0.0 {
      ProductBounds(f, -b, -p);
    } else {
      var u, l := (1.0 - f) * b, (1.0 + f) * b;
      assert u == b - p && l == b + p;
      assert u > 0.0 && l > 0.0;
    }
  }

  lemma ProductSign(q: real, b: real, a: real)
    requires a == q * b && b != 0.0
    ensures a > 0.0 ==> (q > 0.0 <==> b > 0.0) && q != 0.0
    ensures a < 0.0 ==> (q > 0.0 <==> b < 0.0) && q != 0.0
    ensures a == 0.0 ==> q == 0.0
  {
  }

  /******* Compiled programs are safe *******/

  /** Every number inside the value is JSON-safe. */
  predicate Safe(v: JsonValue)
    decreases v
  {
    match v
    case Num(n) => JsonSafe(n)
    case Array(elements) => forall i :: 0 <= i < |elements| ==> Safe(elements[i])
    case Object(fields) => forall k :: k in fields ==> Safe(fields[k])
    case _ => true
  }

  lemma ApplySafe(op: string, l: JsonValue, r: JsonValue)
    ensures Apply(op, l, r).Ok? ==> Safe(Apply(op, l, r).value)
    ensures ApplyUnary(op, l).Ok? ==> Safe(ApplyUnary(op, l).value)
  {
    hide JsonEquals, Compare, Holds, Remainder, JsonSafe;
  }

  lemma {:induction false} EvaluateSafe(e: Expr, input: JsonValue)
    requires Producible(e) && Safe(input) && Evaluate(e, input).Ok?
    ensures Safe(Evaluate(e, input).value)
    decreases e, 1
  {
    hide Apply, ApplyUnary, NumberValue, IsNumber, LevelOf;
    match e
    case ArrayExpr(elements) => ElementsSafe(elements, input);
    case ObjectExpr(entries) => EntriesSafe(entries, input);
    case Unary(op, operand) => ApplySafe(op, Evaluate(operand, input).value, Null);
    case Binary(op, left, right) =>
      if Evaluate(right, input).Ok? {
        ApplySafe(op, Evaluate(left, input).value, Evaluate(right, input).value);
      }
    case Conditional(_, whenTrue, whenFalse) =>
      if Evaluate(whenTrue, input).Ok? {
        EvaluateSafe(whenTrue, input);
      }
      if Evaluate(whenFalse, input).Ok? {
        EvaluateSafe(whenFalse, input);
      }
    case _ =>
  }

  lemma {:induction false} ElementsSafe(es: seq<Expr>, input: JsonValue)
    requires forall i :: 0 <= i < |es| ==> Producible(es[i])
    requires Safe(input) && EvaluateElements(es, input).Ok?
    ensures forall i :: 0 <= i < |EvaluateElements(es, input).value| ==> Safe(EvaluateElements(es, input).value[i])
    decreases es, 0
  {
    if es != [] {
      EvaluateSafe(es[0], input);
      ElementsSafe(es[1..], input);
    }
  }

  lemma {:induction false} EntriesSafe(es: seq<Entry>, input: JsonValue)
    requires forall i :: 0 <= i < |es| ==> Producible(es[i].value)
    requires Safe(input) && EvaluateEntries(es, input).Ok?
    ensures forall k :: k in EvaluateEntries(es, input).value ==> Safe(EvaluateEntries(es, input).value[k])
    decreases es, 0
  {
    if es != [] {
      assert es[0].value < es[0];
      EvaluateSafe(es[0].value, input);
      EntriesSafe(es[1..], input);
    }
  }

  /** `assertObjectResultExpression`: an object literal on every branch. */
  predicate ObjectResult(e: Expr) {
    match e
    case ObjectExpr(_) => true
    case Conditional(_, whenTrue, whenFalse) => ObjectResult(whenTrue) && ObjectResult(whenFalse)
    case _ => false
  }

  lemma {:induction false} ObjectResultEvaluates(e: Expr, input: JsonValue)
    requires Producible(e) && ObjectResult(e) && Evaluate(e, input).Ok?
    ensures Evaluate(e, input).value.Object?
    decreases e
  {
    if e.Conditional? {
      if Evaluate(e.whenTrue, input).Ok? {
        ObjectResultEvaluates(e.whenTrue, input);
      }
      if Evaluate(e.whenFalse, input).Ok? {
        ObjectResultEvaluates(e.whenFalse, input);
      }
    }
  }
}
