/**
 * What an expression of the restricted CEL language means, rule by rule, and that the evaluator returns
 * exactly that. No rule mentions the evaluator.
 */
module CelSemantics {
  import opened Common
  import opened Json
  import opened CelTokenizer
  import opened CelParser
  import opened CelRoundTrip
  import opened CelEvaluator

  /******* Results of operators *******/

  /** A numeric result: any real that is no integer outside the safe range. */
  predicate Gives(n: real, r: Evaluated) {
    if n == n.Floor as real && !(-9007199254740991.0 <= n <= 9007199254740991.0) then r == Err(UnsafeResult)
    else r == Ok(Num(n))
  }

  predicate IsProduct(a: real, b: real, p: real) {
    p == a * b
  }

  /** The quotient is the number that gives the dividend again. */
  predicate IsQuotient(a: real, b: real, q: real) {
    q * b == a
  }

  /** The remainder is what a whole number of divisors leaves: smaller than a divisor, never of the other sign. */
  predicate IsRemainder(a: real, b: real, q: int, m: real) {
    && a == q as real * b + m
    && (if b > 0.0 then -b < m < b else b < m < -b)
    && (a >= 0.0 ==> m >= 0.0) && (a <= 0.0 ==> m <= 0.0)
  }

  /** Strings are ordered by the first place where they differ; a proper prefix comes first. */
  predicate DiffersAt(a: string, b: string, k: nat) {
    k <= |a| && k < |b| && a[..k] == b[..k] && (k == |a| || a[k] < b[k])
  }

  ghost predicate Before(a: JsonValue, b: JsonValue) {
    || (a.Num? && b.Num? && a.n < b.n)
    || (a.Str? && b.Str? && exists k: nat :: DiffersAt(a.s, b.s, k))
  }

  predicate Comparable(a: JsonValue, b: JsonValue) {
    (a.Num? && b.Num?) || (a.Str? && b.Str?)
  }

  /** One rule for each operator that takes the values of both its operands. */
  ghost predicate OperatorMeans(op: string, a: JsonValue, b: JsonValue, r: Evaluated) {
    if op == "==" then r == Ok(Bool(a == b))
    else if op == "!=" then r == Ok(Bool(a != b))
    else if op == "<" then r == if Comparable(a, b) then Ok(Bool(Before(a, b))) else Err(ComparisonOperands)
    else if op == "<=" then r == if Comparable(a, b) then Ok(Bool(Before(a, b) || a == b)) else Err(ComparisonOperands)
    else if op == ">" then r == if Comparable(a, b) then Ok(Bool(Before(b, a))) else Err(ComparisonOperands)
    else if op == ">=" then r == if Comparable(a, b) then Ok(Bool(Before(b, a) || a == b)) else Err(ComparisonOperands)
    else if op == "+" && a.Str? && b.Str? then r == Ok(Str(a.s + b.s))
    else if !a.Num? || !b.Num? then r == Err(NumberRequired)
    else if op == "+" then Gives(a.n + b.n, r)
    else if op == "-" then Gives(a.n - b.n, r)
    else if op == "*" then exists p :: IsProduct(a.n, b.n, p) && Gives(p, r)
    else if b.n == 0.0 then r == Err(UnsafeResult)
    else if op == "/" then exists q :: IsQuotient(a.n, b.n, q) && Gives(q, r)
    else op == "%" && exists q, m :: IsRemainder(a.n, b.n, q, m) && Gives(m, r)
  }

  predicate UnaryMeans(op: string, v: JsonValue, r: Evaluated) {
    if op == "!" then r == if v.Bool? then Ok(Bool(!v.b)) else Err(BooleanRequired)
    else if !v.Num? then r == Err(NumberRequired)
    else if op == "-" then Gives(0.0 - v.n, r)
    else op == "+" && Gives(v.n, r)
  }

  /******* Expressions *******/

  ghost predicate Means(e: Expr, input: JsonValue, r: Evaluated)
    decreases e, 1
  {
    match e
    case NumberLit(lexeme) => IsNumber(lexeme) && r == Ok(Num(NumberValue(lexeme)))
    case StringLit(s) => r == Ok(Str(s))
    case BoolLit(b) => r == Ok(Bool(b))
    case NullLit => r == Ok(Null)
    case Input => r == Ok(input)
    case ArrayExpr(es) => ElementsMean(es, input, r)
    case ObjectExpr(es) => EntriesMean(es, input, r)
    case Unary(op, operand) =>
      || (r.Err? && Means(operand, input, r))
      || exists v :: Means(operand, input, Ok(v)) && UnaryMeans(op, v, r)
    case Binary(op, left, right) =>
      if op == "&&" || op == "||" then LogicMeans(op, left, right, input, r)
      else OperandsMean(op, left, right, input, r)
    case Conditional(condition, whenTrue, whenFalse) => BranchMeans(condition, whenTrue, whenFalse, input, r)
  }

  /** Elements from the first on; the first error is the error of the whole. */
  ghost predicate ElementsMean(es: seq<Expr>, input: JsonValue, r: Evaluated)
    decreases ArrayExpr(es), 0
  {
    || (&& r.Ok? && r.value.Array? && |r.value.elements| == |es|
        && forall i :: 0 <= i < |es| ==> Means(es[i], input, Ok(r.value.elements[i])))
    || exists k :: 0 <= k < |es| && r.Err? && Means(es[k], input, r)
         && forall i :: 0 <= i < k ==> HasValue(es[i], input)
  }

  /** Entries from the first on, likewise. */
  ghost predicate EntriesMean(es: seq<Entry>, input: JsonValue, r: Evaluated)
    decreases ObjectExpr(es), 0
  {
    || (&& r.Ok? && r.value.Object?
        && (forall key :: key in r.value.fields ==> exists i :: 0 <= i < |es| && es[i].key == key)
        && forall i :: 0 <= i < |es| ==>
             es[i].key in r.value.fields && Means(es[i].value, input, Ok(r.value.fields[es[i].key])))
    || exists k :: 0 <= k < |es| && r.Err? && Means(es[k].value, input, r)
         && forall i :: 0 <= i < k ==> HasValue(es[i].value, input)
  }

  /** `&&` and `||` take the right operand only if the left one does not decide. */
  ghost predicate LogicMeans(op: string, left: Expr, right: Expr, input: JsonValue, r: Evaluated)
    decreases Binary(op, left, right), 0
  {
    || (r.Err? && Means(left, input, r))
    || (Means(left, input, Ok(Bool(op == "||"))) && r == Ok(Bool(op == "||")))
    || (Means(left, input, Ok(Bool(op == "&&"))) && IsTruth(right, input, r))
    || exists v :: Means(left, input, Ok(v)) && !v.Bool? && r == Err(BooleanRequired)
  }

  /** Every other operator takes the left operand first, and then the right one. */
  ghost predicate OperandsMean(op: string, left: Expr, right: Expr, input: JsonValue, r: Evaluated)
    decreases Binary(op, left, right), 0
  {
    || (r.Err? && Means(left, input, r))
    || (HasValue(left, input) && r.Err? && Means(right, input, r))
    || exists v, w :: Means(left, input, Ok(v)) && Means(right, input, Ok(w)) && OperatorMeans(op, v, w, r)
  }

  /** Only the branch that the condition selects counts. */
  ghost predicate BranchMeans(condition: Expr, whenTrue: Expr, whenFalse: Expr, input: JsonValue, r: Evaluated)
    decreases Conditional(condition, whenTrue, whenFalse), 0
  {
    || (r.Err? && Means(condition, input, r))
    || (Means(condition, input, Ok(Bool(true))) && Means(whenTrue, input, r))
    || (Means(condition, input, Ok(Bool(false))) && Means(whenFalse, input, r))
    || exists v :: Means(condition, input, Ok(v)) && !v.Bool? && r == Err(BooleanRequired)
  }

  ghost predicate HasValue(e: Expr, input: JsonValue)
    decreases e, 2
  {
    exists v :: Means(e, input, Ok(v))
  }

  /** The value of the right operand of `&&` or `||`, which must be a truth value. */
  ghost predicate IsTruth(e: Expr, input: JsonValue, r: Evaluated)
    decreases e, 2
  {
    || (Means(e, input, r) && (r.Ok? ==> r.value.Bool?))
    || exists v :: Means(e, input, Ok(v)) && !v.Bool? && r == Err(BooleanRequired)
  }

  /******* The operators of the evaluator *******/

  lemma {:induction false} StringOrder(a: string, b: string)
    ensures StringLess(a, b) <==> exists k: nat :: DiffersAt(a, b, k)
    decreases |a|
  {
    if a == "" || b == "" || a[0] != b[0] {
      assert StringLess(a, b) ==> DiffersAt(a, b, 0);
      forall k: nat | DiffersAt(a, b, k)
        ensures StringLess(a, b)
      {
        DiffersAtOnce(a, b, k);
      }
    } else {
      StringOrder(a[1..], b[1..]);
      if StringLess(a, b) {
        var k: nat :| DiffersAt(a[1..], b[1..], k);
        assert a[..k + 1] == [a[0]] + a[1..][..k] && b[..k + 1] == [b[0]] + b[1..][..k];
        assert DiffersAt(a, b, k + 1);
      }
      forall k: nat | DiffersAt(a, b, k)
        ensures StringLess(a, b)
      {
        DiffersLater(a, b, k);
      }
    }
  }

  lemma DiffersAtOnce(a: string, b: string, k: nat)
    requires DiffersAt(a, b, k) && (a == "" || a[0] != b[0])
    ensures k == 0
  {
    SamePrefix(a, b, k);
  }

  lemma SamePrefix(a: string, b: string, k: nat)
    requires k <= |a| && k <= |b| && a[..k] == b[..k]
    ensures k > 0 ==> a[0] == b[0]
  {
    if k > 0 {
      assert a[..k][0] == a[0] && b[..k][0] == b[0];
    }
  }

  lemma DiffersLater(a: string, b: string, k: nat)
    requires DiffersAt(a, b, k) && a != "" && b != "" && a[0] == b[0]
    ensures k > 0 && DiffersAt(a[1..], b[1..], k - 1)
  {
    if k > 0 {
      assert a[1..][..k - 1] == a[..k][1..] && b[1..][..k - 1] == b[..k][1..];
    }
  }

  lemma QuotientIs(a: real, b: real, q: real)
    requires b != 0.0
    ensures IsQuotient(a, b, q) <==> q == a / b
  {
    assert a / b * b == a;
    if q * b == a {
      assert (q - a / b) * b == 0.0;
    }
  }

  lemma RemainderExists(a: real, b: real)
    requires b != 0.0
    ensures IsRemainder(a, b, Trunc(a / b), Remainder(a, b))
  {
    RemainderBounds(a, b);
    hide Trunc;
    assert a == Trunc(a / b) as real * b + Remainder(a, b);
  }

  lemma AtLeastOne(b: real, d: int)
    requires b > 0.0 && d >= 1
    ensures d as real * b >= b
  {
    assert (d - 1) as real * b >= 0.0;
    assert d as real * b == (d - 1) as real * b + b;
  }

  /** A whole multiple of `b` less than `b` is none. */
  lemma NoMultiple(b: real, d: int, product: real)
    requires b > 0.0 && product == d as real * b && -b < product < b
    ensures d == 0
  {
    Negated(b, d);
    if d >= 1 {
      AtLeastOne(b, d);
    } else if d <= -1 {
      AtLeastOne(b, -d);
    }
  }

  lemma Negated(b: real, d: int)
    ensures (-d) as real * b == 0.0 - d as real * b
  {
  }

  lemma RemainderUnique(a: real, b: real, p: int, m: real, q: int, n: real)
    requires b != 0.0 && IsRemainder(a, b, p, m) && IsRemainder(a, b, q, n)
    ensures m == n
  {
    Multiples(b, p, q);
    assert a >= 0.0 || a <= 0.0;
    if b > 0.0 {
      NoMultiple(b, p - q, n - m);
    } else {
      NoMultiple(0.0 - b, q - p, n - m);
    }
  }

  lemma Multiples(b: real, p: int, q: int)
    ensures (p - q) as real * b == p as real * b - q as real * b
    ensures (q - p) as real * (0.0 - b) == p as real * b - q as real * b
  {
  }

  lemma GivesIs(n: real, r: Evaluated)
    ensures Gives(n, r) <==> r == AssertNumber(n)
  {
  }

  lemma DivisionMeans(a: real, b: real, r: Evaluated)
    requires b != 0.0
    ensures (exists q :: IsQuotient(a, b, q) && Gives(q, r)) <==> r == AssertNumber(a / b)
  {
    hide Gives, AssertNumber, IsQuotient;
    QuotientIs(a, b, a / b);
    GivesIs(a / b, r);
    forall q | IsQuotient(a, b, q) && Gives(q, r)
      ensures r == AssertNumber(a / b)
    {
      QuotientIs(a, b, q);
    }
    if r == AssertNumber(a / b) {
      assert IsQuotient(a, b, a / b) && Gives(a / b, r);
    }
  }

  lemma RemainderMeans(a: real, b: real, r: Evaluated)
    requires b != 0.0
    ensures (exists q, m :: IsRemainder(a, b, q, m) && Gives(m, r)) <==> r == AssertNumber(Remainder(a, b))
  {
    hide Gives, AssertNumber, IsRemainder, Remainder, Trunc;
    RemainderExists(a, b);
    GivesIs(Remainder(a, b), r);
    forall q, m | IsRemainder(a, b, q, m) && Gives(m, r)
      ensures r == AssertNumber(Remainder(a, b))
    {
      RemainderUnique(a, b, q, m, Trunc(a / b), Remainder(a, b));
    }
    if r == AssertNumber(Remainder(a, b)) {
      assert IsRemainder(a, b, Trunc(a / b), Remainder(a, b)) && Gives(Remainder(a, b), r);
    }
  }

  predicate BinaryOperator(op: string) {
    op in {"==", "!=", "<", "<=", ">", ">=", "+", "-", "*", "/", "%"}
  }

  lemma ComparisonMeans(op: string, a: JsonValue, b: JsonValue, r: Evaluated)
    requires op in {"<", "<=", ">", ">="}
    ensures OperatorMeans(op, a, b, r) <==> r == Apply(op, a, b)
  {
    if a.Str? && b.Str? {
      StringOrder(a.s, b.s);
      StringOrder(b.s, a.s);
      StringLessTotal(a.s, b.s);
    }
    hide StringLess, DiffersAt, JsonEquals, Arithmetic;
  }

  lemma ProductIs(a: real, b: real, p: real)
    ensures IsProduct(a, b, p) <==> p == Times(a, b)
  {
  }

  lemma ProductMeans(a: real, b: real, r: Evaluated)
    ensures (exists p :: IsProduct(a, b, p) && Gives(p, r)) <==> r == AssertNumber(Times(a, b))
  {
    hide Gives, AssertNumber, IsProduct, Times;
    ProductIs(a, b, Times(a, b));
    GivesIs(Times(a, b), r);
    forall p | IsProduct(a, b, p) && Gives(p, r)
      ensures r == AssertNumber(Times(a, b))
    {
      ProductIs(a, b, p);
    }
    if r == AssertNumber(Times(a, b)) {
      assert IsProduct(a, b, Times(a, b)) && Gives(Times(a, b), r);
    }
  }

  lemma ArithmeticMeans(op: string, a: JsonValue, b: JsonValue, r: Evaluated)
    requires op in {"+", "-", "*", "/", "%"} && a.Num? && b.Num?
    ensures OperatorMeans(op, a, b, r) <==> r == Arithmetic(op, a.n, b.n)
  {
    hide Gives, AssertNumber, IsProduct, IsQuotient, IsRemainder, Remainder, Times;
    if op == "+" {
      GivesIs(a.n + b.n, r);
    } else if op == "-" {
      GivesIs(a.n - b.n, r);
    } else if op == "*" {
      ProductMeans(a.n, b.n, r);
    } else if b.n != 0.0 {
      DivisionMeans(a.n, b.n, r);
      RemainderMeans(a.n, b.n, r);
    }
  }

  lemma ApplyMeans(op: string, a: JsonValue, b: JsonValue, r: Evaluated)
    requires BinaryOperator(op)
    ensures OperatorMeans(op, a, b, r) <==> r == Apply(op, a, b)
  {
    if op in {"<", "<=", ">", ">="} {
      ComparisonMeans(op, a, b, r);
    } else if op in {"==", "!="} {
      JsonEqualsIsEquality(a, b);
    } else if a.Num? && b.Num? {
      ArithmeticMeans(op, a, b, r);
      hide OperatorMeans, Arithmetic;
      assert Apply(op, a, b) == Arithmetic(op, a.n, b.n);
    }
  }

  lemma ApplyUnaryMeans(op: string, v: JsonValue, r: Evaluated)
    requires op in UNARY_OPERATORS
    ensures UnaryMeans(op, v, r) <==> r == ApplyUnary(op, v)
  {
  }

  /******* The evaluator *******/

  /** Exactly one meaning, namely `r`. */
  ghost predicate MeansOnly(e: Expr, input: JsonValue, r: Evaluated) {
    forall s :: Means(e, input, s) <==> s == r
  }

  /** The elements of a literal are evaluated one after the other until the first error. */
  lemma {:induction false} ElementsInOrder(es: seq<Expr>, input: JsonValue)
    requires forall i :: 0 <= i < |es| ==> Producible(es[i])
    ensures
      match EvaluateElements(es, input)
      case Ok(values) => |values| == |es| && forall i :: 0 <= i < |es| ==> Evaluate(es[i], input) == Ok(values[i])
      case Err(error) =>
        exists k :: 0 <= k < |es| && Evaluate(es[k], input) == Err(error)
          && forall i :: 0 <= i < k ==> Evaluate(es[i], input).Ok?
    decreases |es|
  {
    hide Evaluate, Producible;
    if es != [] {
      ElementsInOrder(es[1..], input);
      if Evaluate(es[0], input).Ok? && EvaluateElements(es[1..], input).Err? {
        var k :| 0 <= k < |es| - 1 && Evaluate(es[1..][k], input) == Err(EvaluateElements(es[1..], input).error)
          && forall i :: 0 <= i < k ==> Evaluate(es[1..][i], input).Ok?;
        assert Evaluate(es[k + 1], input).Err?;
        forall i | 0 <= i < k + 1
          ensures Evaluate(es[i], input).Ok?
        {
          if i > 0 {
            assert es[i] == es[1..][i - 1];
          }
        }
      }
    }
  }

  lemma {:induction false} EntriesInOrder(es: seq<Entry>, input: JsonValue)
    requires forall i :: 0 <= i < |es| ==> Producible(es[i].value)
    requires forall i, j :: 0 <= i < j < |es| ==> es[i].key != es[j].key
    ensures EntriesGive(es, input, EvaluateEntries(es, input))
    decreases |es|
  {
    hide Evaluate, Producible, EntriesGive;
    if es == [] {
      NoEntries(input);
    } else {
      EntriesInOrder(es[1..], input);
      OneMoreEntry(es, input);
    }
  }

  /** `r` is the object of the entries' values, or the error of the first entry that has one. */
  ghost predicate EntriesGive(es: seq<Entry>, input: JsonValue, r: Result<JsonObject, EvalError>)
    requires forall i :: 0 <= i < |es| ==> Producible(es[i].value)
  {
    match r
    case Ok(fields) =>
      && (forall key :: key in fields ==> exists i :: 0 <= i < |es| && es[i].key == key)
      && forall i :: 0 <= i < |es| ==> es[i].key in fields && Evaluate(es[i].value, input) == Ok(fields[es[i].key])
    case Err(error) =>
      exists k :: 0 <= k < |es| && Evaluate(es[k].value, input) == Err(error)
        && forall i :: 0 <= i < k ==> Evaluate(es[i].value, input).Ok?
  }

  lemma NoEntries(input: JsonValue)
    ensures EntriesGive([], input, EvaluateEntries([], input))
  {
  }

  lemma OneMoreEntry(es: seq<Entry>, input: JsonValue)
    requires es != [] && forall i :: 0 <= i < |es| ==> Producible(es[i].value)
    requires forall i, j :: 0 <= i < j < |es| ==> es[i].key != es[j].key
    requires EntriesGive(es[1..], input, EvaluateEntries(es[1..], input))
    ensures EntriesGive(es, input, EvaluateEntries(es, input))
  {
    hide Evaluate, Producible;
    var rest := es[1..];
    if Evaluate(es[0].value, input).Err? {
      assert EvaluateEntries(es, input) == Err(Evaluate(es[0].value, input).error);
    } else if EvaluateEntries(rest, input).Ok? {
      var first, fields := Evaluate(es[0].value, input).value, EvaluateEntries(rest, input).value;
      FirstField(es, input, first, fields);
    } else {
      var k :| 0 <= k < |rest| && Evaluate(rest[k].value, input) == Err(EvaluateEntries(rest, input).error)
        && forall i :: 0 <= i < k ==> Evaluate(rest[i].value, input).Ok?;
      assert rest[k] == es[k + 1];
      forall i | 0 <= i < k + 1
        ensures Evaluate(es[i].value, input).Ok?
      {
        if i > 0 {
          assert es[i] == rest[i - 1];
        }
      }
    }
  }

  lemma FirstField(es: seq<Entry>, input: JsonValue, first: JsonValue, fields: JsonObject)
    requires es != [] && forall i :: 0 <= i < |es| ==> Producible(es[i].value)
    requires forall i, j :: 0 <= i < j < |es| ==> es[i].key != es[j].key
    requires Evaluate(es[0].value, input) == Ok(first) && EntriesGive(es[1..], input, Ok(fields))
    ensures EntriesGive(es, input, Ok(map[es[0].key := first] + fields))
  {
    hide Evaluate, Producible;
    var all, rest := map[es[0].key := first] + fields, es[1..];
    assert es[0].key !in fields by {
      forall j | 0 <= j < |rest|
        ensures rest[j].key != es[0].key
      {
        assert rest[j] == es[j + 1];
      }
    }
    forall key | key in all
      ensures exists i :: 0 <= i < |es| && es[i].key == key
    {
      if key in fields {
        var i :| 0 <= i < |rest| && rest[i].key == key;
        assert es[i + 1].key == key;
      }
    }
    forall i | 0 <= i < |es|
      ensures es[i].key in all && Evaluate(es[i].value, input) == Ok(all[es[i].key])
    {
      if i > 0 {
        assert es[i] == rest[i - 1];
      }
    }
  }

  /******* Every construct *******/

  lemma ValueIs(e: Expr, input: JsonValue)
    requires Producible(e) && MeansOnly(e, input, Evaluate(e, input))
    ensures HasValue(e, input) <==> Evaluate(e, input).Ok?
  {
    hide Evaluate, Producible, Means;
    if Evaluate(e, input).Ok? {
      assert Means(e, input, Ok(Evaluate(e, input).value));
    }
  }

  ghost predicate ElementsGive(es: seq<Expr>, input: JsonValue, r: Evaluated)
    requires forall i :: 0 <= i < |es| ==> Producible(es[i])
  {
    match r
    case Ok(value) =>
      value.Array? && |value.elements| == |es|
      && forall i :: 0 <= i < |es| ==> Evaluate(es[i], input) == Ok(value.elements[i])
    case Err(_) =>
      exists k :: 0 <= k < |es| && Evaluate(es[k], input) == r && forall i :: 0 <= i < k ==> Evaluate(es[i], input).Ok?
  }

  lemma ElementsGiveOne(es: seq<Expr>, input: JsonValue, r: Evaluated, s: Evaluated)
    requires forall i :: 0 <= i < |es| ==> Producible(es[i])
    requires ElementsGive(es, input, r) && ElementsGive(es, input, s)
    ensures r == s
  {
    hide Evaluate, Producible;
    if r.Ok? && s.Ok? {
      assert r.value.elements == s.value.elements;
    }
  }

  lemma ArrayMeans(es: seq<Expr>, input: JsonValue)
    requires forall i :: 0 <= i < |es| ==> Producible(es[i]) && MeansOnly(es[i], input, Evaluate(es[i], input))
    ensures MeansOnly(ArrayExpr(es), input, Evaluate(ArrayExpr(es), input))
  {
    var r := Evaluate(ArrayExpr(es), input);
    ElementsInOrder(es, input);
    assert ElementsGive(es, input, r);
    hide Evaluate, Producible, EvaluateElements, MeansOnly, ElementsGive;
    forall s
      ensures Means(ArrayExpr(es), input, s) <==> ElementsGive(es, input, s)
    {
      ArrayRule(es, input, s);
    }
    forall s
      ensures Means(ArrayExpr(es), input, s) <==> s == r
    {
      if Means(ArrayExpr(es), input, s) {
        ElementsGiveOne(es, input, r, s);
      }
    }
    Only(ArrayExpr(es), input, r);
  }

  lemma Only(e: Expr, input: JsonValue, r: Evaluated)
    requires forall s :: Means(e, input, s) <==> s == r
    ensures MeansOnly(e, input, r)
  {
  }

  lemma ArrayRule(es: seq<Expr>, input: JsonValue, s: Evaluated)
    requires forall i :: 0 <= i < |es| ==> Producible(es[i]) && MeansOnly(es[i], input, Evaluate(es[i], input))
    ensures Means(ArrayExpr(es), input, s) <==> ElementsGive(es, input, s)
  {
    forall i | 0 <= i < |es|
      ensures HasValue(es[i], input) <==> Evaluate(es[i], input).Ok?
    {
      ValueIs(es[i], input);
    }
    MeansRule(ArrayExpr(es), input, s);
    hide Evaluate, Producible, HasValue, Means;
  }

  lemma EntriesGiveOne(
    es: seq<Entry>, input: JsonValue, r: Result<JsonObject, EvalError>, s: Result<JsonObject, EvalError>)
    requires forall i :: 0 <= i < |es| ==> Producible(es[i].value)
    requires EntriesGive(es, input, r) && EntriesGive(es, input, s)
    ensures r == s
  {
    hide Evaluate, Producible;
    if r.Ok? && s.Ok? {
      forall key
        ensures key in r.value <==> key in s.value
        ensures key in r.value ==> r.value[key] == s.value[key]
      {
      }
      assert r.value == s.value;
    }
  }

  function AsObject(r: Result<JsonObject, EvalError>): Evaluated {
    match r
    case Ok(fields) => Ok(Object(fields))
    case Err(error) => Err(error)
  }

  lemma ObjectMeans(es: seq<Entry>, input: JsonValue)
    requires forall i :: 0 <= i < |es| ==>
      Producible(es[i].value) && MeansOnly(es[i].value, input, Evaluate(es[i].value, input))
    requires Producible(ObjectExpr(es))
    ensures MeansOnly(ObjectExpr(es), input, Evaluate(ObjectExpr(es), input))
  {
    var given := EvaluateEntries(es, input);
    EntriesInOrder(es, input);
    assert Evaluate(ObjectExpr(es), input) == AsObject(given);
    hide Evaluate, Producible, EvaluateEntries, MeansOnly, EntriesGive;
    forall s
      ensures Means(ObjectExpr(es), input, s) <==> s == AsObject(given)
    {
      ObjectRule(es, input, s);
      if Means(ObjectExpr(es), input, s) {
        var fields :| EntriesGive(es, input, fields) && s == AsObject(fields);
        EntriesGiveOne(es, input, fields, given);
      }
    }
    Only(ObjectExpr(es), input, AsObject(given));
  }

  lemma ObjectRule(es: seq<Entry>, input: JsonValue, s: Evaluated)
    requires forall i :: 0 <= i < |es| ==>
      Producible(es[i].value) && MeansOnly(es[i].value, input, Evaluate(es[i].value, input))
    ensures
      Means(ObjectExpr(es), input, s) <==> exists fields :: EntriesGive(es, input, fields) && s == AsObject(fields)
  {
    forall i | 0 <= i < |es|
      ensures HasValue(es[i].value, input) <==> Evaluate(es[i].value, input).Ok?
    {
      ValueIs(es[i].value, input);
    }
    hide Evaluate, Producible, HasValue, AsObject, Means;
    MeansRule(ObjectExpr(es), input, s);
    if s.Err? {
      ErrorIsObject(es, input, s);
    } else if s.value.Object? {
      ValueIsObject(es, input, s.value.fields);
    } else {
      NoOther(s);
    }
  }

  lemma ErrorIsObject(es: seq<Entry>, input: JsonValue, s: Evaluated)
    requires s.Err?
    requires forall i :: 0 <= i < |es| ==>
      Producible(es[i].value) && MeansOnly(es[i].value, input, Evaluate(es[i].value, input))
      && (HasValue(es[i].value, input) <==> Evaluate(es[i].value, input).Ok?)
    ensures
      (exists k :: 0 <= k < |es| && Means(es[k].value, input, s)
         && forall i :: 0 <= i < k ==> HasValue(es[i].value, input))
      <==> exists fields :: EntriesGive(es, input, fields) && s == AsObject(fields)
  {
    hide Evaluate, Producible, HasValue, Means;
    assert AsObject(Err(s.error)) == s;
    assert forall fields :: s == AsObject(fields) ==> fields == Err(s.error);
  }

  lemma ValueIsObject(es: seq<Entry>, input: JsonValue, fields: JsonObject)
    requires forall i :: 0 <= i < |es| ==>
      Producible(es[i].value) && MeansOnly(es[i].value, input, Evaluate(es[i].value, input))
    ensures
      (&& (forall key :: key in fields ==> exists i :: 0 <= i < |es| && es[i].key == key)
       && forall i :: 0 <= i < |es| ==> es[i].key in fields && Means(es[i].value, input, Ok(fields[es[i].key])))
      <==> exists given :: EntriesGive(es, input, given) && Ok(Object(fields)) == AsObject(given)
  {
    hide Evaluate, Producible, Means;
    assert AsObject(Ok(fields)) == Ok(Object(fields));
    assert forall given :: Ok(Object(fields)) == AsObject(given) ==> given == Ok(fields);
    assert EntriesGive(es, input, Ok(fields)) <==>
      (exists given :: EntriesGive(es, input, given) && Ok(Object(fields)) == AsObject(given));
  }

  lemma MeansRule(e: Expr, input: JsonValue, r: Evaluated)
    ensures match e
      case ArrayExpr(es) => Means(e, input, r) <==> ElementsMean(es, input, r)
      case ObjectExpr(es) => Means(e, input, r) <==> EntriesMean(es, input, r)
      case Binary(op, left, right) =>
        Means(e, input, r) <==>
          if op == "&&" || op == "||" then LogicMeans(op, left, right, input, r)
          else OperandsMean(op, left, right, input, r)
      case Conditional(condition, whenTrue, whenFalse) =>
        Means(e, input, r) <==> BranchMeans(condition, whenTrue, whenFalse, input, r)
      case _ => true
  {
    hide ElementsMean, EntriesMean, LogicMeans, OperandsMean, BranchMeans;
  }

  lemma NoOther(s: Evaluated)
    requires s.Ok? && !s.value.Object?
    ensures forall fields :: s != AsObject(fields)
  {
  }

  lemma UnaryCase(op: string, operand: Expr, input: JsonValue)
    requires op in UNARY_OPERATORS && Producible(operand) && MeansOnly(operand, input, Evaluate(operand, input))
    ensures MeansOnly(Unary(op, operand), input, Evaluate(Unary(op, operand), input))
  {
    var v, r := Evaluate(operand, input), Evaluate(Unary(op, operand), input);
    assert r == if v.Ok? then ApplyUnary(op, v.value) else v;
    hide Evaluate, Producible, UnaryMeans, ApplyUnary;
    forall s
      ensures Means(Unary(op, operand), input, s) <==> s == r
    {
      if v.Ok? {
        ApplyUnaryMeans(op, v.value, s);
      }
    }
  }

  lemma TruthIs(e: Expr, input: JsonValue, s: Evaluated)
    requires Producible(e) && MeansOnly(e, input, Evaluate(e, input))
    ensures
      var v := Evaluate(e, input);
      IsTruth(e, input, s) <==> s == if v.Ok? && !v.value.Bool? then Err(BooleanRequired) else v
  {
    hide Evaluate, Producible, Means;
  }

  lemma EvaluatesLogic(op: string, left: Expr, right: Expr, input: JsonValue)
    requires (op == "&&" || op == "||") && Producible(Binary(op, left, right))
    ensures
      var v, w := Evaluate(left, input), Evaluate(right, input);
      Evaluate(Binary(op, left, right), input) ==
        if v.Err? then v
        else if !v.value.Bool? then Err(BooleanRequired)
        else if v.value.b == (op == "||") then v
        else if w.Ok? && !w.value.Bool? then Err(BooleanRequired)
        else w
  {
  }

  lemma LogicCase(op: string, left: Expr, right: Expr, input: JsonValue)
    requires op == "&&" || op == "||"
    requires Producible(left) && MeansOnly(left, input, Evaluate(left, input))
    requires Producible(right) && MeansOnly(right, input, Evaluate(right, input))
    requires Producible(Binary(op, left, right))
    ensures MeansOnly(Binary(op, left, right), input, Evaluate(Binary(op, left, right), input))
  {
    hide Evaluate, Producible, IsTruth, Means;
    var r := Evaluate(Binary(op, left, right), input);
    EvaluatesLogic(op, left, right, input);
    forall s
      ensures Means(Binary(op, left, right), input, s) <==> s == r
    {
      MeansRule(Binary(op, left, right), input, s);
      TruthIs(right, input, s);
    }
  }

  lemma EvaluatesOperator(op: string, left: Expr, right: Expr, input: JsonValue)
    requires BinaryOperator(op) && Producible(Binary(op, left, right))
    ensures
      var v, w := Evaluate(left, input), Evaluate(right, input);
      Evaluate(Binary(op, left, right), input)
        == if v.Err? then v else if w.Err? then w else Apply(op, v.value, w.value)
  {
    hide Apply;
  }

  lemma OperatorCase(op: string, left: Expr, right: Expr, input: JsonValue)
    requires BinaryOperator(op)
    requires Producible(left) && MeansOnly(left, input, Evaluate(left, input))
    requires Producible(right) && MeansOnly(right, input, Evaluate(right, input))
    requires Producible(Binary(op, left, right))
    ensures MeansOnly(Binary(op, left, right), input, Evaluate(Binary(op, left, right), input))
  {
    hide Evaluate, Producible, OperatorMeans, Apply, HasValue, Means;
    var v, w, r := Evaluate(left, input), Evaluate(right, input), Evaluate(Binary(op, left, right), input);
    EvaluatesOperator(op, left, right, input);
    ValueIs(left, input);
    forall s
      ensures Means(Binary(op, left, right), input, s) <==> s == r
    {
      MeansRule(Binary(op, left, right), input, s);
      if v.Ok? && w.Ok? {
        ApplyMeans(op, v.value, w.value, s);
      }
    }
  }

  lemma EvaluatesConditional(condition: Expr, whenTrue: Expr, whenFalse: Expr, input: JsonValue)
    requires Producible(condition) && Producible(whenTrue) && Producible(whenFalse)
    ensures
      var c := Evaluate(condition, input);
      Evaluate(Conditional(condition, whenTrue, whenFalse), input) ==
        if c.Err? then c
        else if !c.value.Bool? then Err(BooleanRequired)
        else if c.value.b then Evaluate(whenTrue, input)
        else Evaluate(whenFalse, input)
  {
  }

  lemma ConditionalCase(condition: Expr, whenTrue: Expr, whenFalse: Expr, input: JsonValue)
    requires Producible(condition) && MeansOnly(condition, input, Evaluate(condition, input))
    requires Producible(whenTrue) && MeansOnly(whenTrue, input, Evaluate(whenTrue, input))
    requires Producible(whenFalse) && MeansOnly(whenFalse, input, Evaluate(whenFalse, input))
    requires Producible(Conditional(condition, whenTrue, whenFalse))
    ensures
      var e := Conditional(condition, whenTrue, whenFalse);
      MeansOnly(e, input, Evaluate(e, input))
  {
    hide Evaluate, Producible, Means;
    EvaluatesConditional(condition, whenTrue, whenFalse, input);
    forall s
      ensures Means(Conditional(condition, whenTrue, whenFalse), input, s)
        <==> s == Evaluate(Conditional(condition, whenTrue, whenFalse), input)
    {
      MeansRule(Conditional(condition, whenTrue, whenFalse), input, s);
    }
  }

  lemma OperatorsAre(op: string)
    requires LevelOf(op) != 0
    ensures op == "&&" || op == "||" || BinaryOperator(op)
  {
  }

  lemma AtomCase(e: Expr, input: JsonValue)
    requires Producible(e) && (e.NumberLit? || e.StringLit? || e.BoolLit? || e.NullLit? || e.Input?)
    ensures MeansOnly(e, input, Evaluate(e, input))
  {
  }

  /** The evaluator is sound and complete: its result is the one meaning of the expression. */
  lemma {:induction false} EvaluatesToMeaning(e: Expr, input: JsonValue)
    requires Producible(e)
    ensures forall r :: Means(e, input, r) <==> r == Evaluate(e, input)
    decreases e
  {
    HasOneMeaning(e, input);
    hide Means, Evaluate, Producible;
  }

  /** The expressions whose value can be the result: those at the ends of all branches. */
  function Results(e: Expr): set<Expr> {
    if e.Conditional? then Results(e.whenTrue) + Results(e.whenFalse) else {e}
  }

  /**
   * The static check of an option map asks for object literals at the ends of all branches; a value is always
   * that of one of them.
   */
  lemma {:induction false} ResultsDecide(e: Expr, input: JsonValue, v: JsonValue)
    requires Producible(e)
    ensures ObjectResult(e) <==> forall x :: x in Results(e) ==> x.ObjectExpr?
    ensures Means(e, input, Ok(v)) ==> exists x :: x in Results(e) && Means(x, input, Ok(v))
    decreases e
  {
    hide Means, IsNumber, NumberValue, LevelOf;
    if e.Conditional? {
      ResultsDecide(e.whenTrue, input, v);
      ResultsDecide(e.whenFalse, input, v);
      MeansRule(e, input, Ok(v));
      assert Results(e) == Results(e.whenTrue) + Results(e.whenFalse);
    } else {
      assert e in Results(e);
    }
  }

  lemma {:induction false} HasOneMeaning(e: Expr, input: JsonValue)
    requires Producible(e)
    ensures MeansOnly(e, input, Evaluate(e, input))
    decreases e
  {
    hide MeansOnly, Means, Evaluate, NumberValue, IsNumber, LevelOf;
    match e
    case ArrayExpr(es) =>
      forall i | 0 <= i < |es|
        ensures MeansOnly(es[i], input, Evaluate(es[i], input))
      {
        HasOneMeaning(es[i], input);
      }
      ArrayMeans(es, input);
    case ObjectExpr(es) =>
      forall i | 0 <= i < |es|
        ensures MeansOnly(es[i].value, input, Evaluate(es[i].value, input))
      {
        assert es[i].value < es[i];
        HasOneMeaning(es[i].value, input);
      }
      ObjectMeans(es, input);
    case Unary(op, operand) =>
      HasOneMeaning(operand, input);
      UnaryCase(op, operand, input);
    case Binary(op, left, right) =>
      HasOneMeaning(left, input);
      HasOneMeaning(right, input);
      OperatorsAre(op);
      if BinaryOperator(op) {
        OperatorCase(op, left, right, input);
      } else {
        LogicCase(op, left, right, input);
      }
    case Conditional(condition, whenTrue, whenFalse) =>
      HasOneMeaning(condition, input);
      HasOneMeaning(whenTrue, input);
      HasOneMeaning(whenFalse, input);
      ConditionalCase(condition, whenTrue, whenFalse, input);
    case _ => AtomCase(e, input);
  }
}
