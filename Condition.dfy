/**
  The condition evaluator of the condition logic block: a condition is an
  AND or an OR over comparisons, each comparing a variable's value with a
  comparand through one of the comparison operators.
 */
module Condition {
  import opened Types
  import opened Text

  datatype LogicalOperator = And | Or

  datatype ComparisonOperator =
    | Equal | NotEqual | Contains | NotContains | Greater | Less
    | IsSet | IsEmpty | StartsWithOp | EndsWithOp
    | Unrecognized(name: string)

  datatype Comparison = Comparison(
    variableId: Option<string>,
    comparisonOperator: Option<ComparisonOperator>,
    value: Option<string>)

  datatype ConditionDef = ConditionDef(logicalOperator: LogicalOperator, comparisons: seq<Comparison>)

  /** How a list on either side of a comparison is quantified. */
  datatype ListMode = EveryPair | SomePair

  // ---------------------------------------------------------------- list quantifiers

  /** `xs.every(p)` */
  function All(p: Option<string> -> bool, xs: seq<Option<string>>): (r: bool)
    ensures r <==> forall i :: 0 <= i < |xs| ==> p(xs[i])
  {
    if xs == [] then true else p(xs[0]) && All(p, xs[1..])
  }

  /** `xs.some(p)` */
  function Any(p: Option<string> -> bool, xs: seq<Option<string>>): (r: bool)
    ensures r <==> exists i :: 0 <= i < |xs| && p(xs[i])
  {
    if xs == [] then false else p(xs[0]) || Any(p, xs[1..])
  }

  /** The string form of a value that is not a list (`null` for a missing value). */
  function Scalar(v: Value): Option<string>
  {
    if v.Str? then Some(v.s) else None
  }

  /** The items a value contributes to a comparison: a list's items, or the value itself. */
  function Items(v: Value): (r: seq<Option<string>>)
    ensures v.List? ==> r == v.items
    ensures !v.List? ==> r == [Scalar(v)]
  {
    if v.List? then v.items else [Scalar(v)]
  }

  /** `compare`: a string test lifted to values, either side possibly a list. */
  function Compare(test: (Option<string>, Option<string>) -> bool, a: Value, b: Value, mode: ListMode): (r: bool)
    ensures !a.List? && !b.List? ==> (r <==> test(Scalar(a), Scalar(b)))
    ensures (a.List? && a.items == []) || (b.List? && b.items == []) ==> (r <==> mode == EveryPair)
  {
    if !a.List? then
      if !b.List? then test(Scalar(a), Scalar(b))
      else if mode == EveryPair then All(y => test(Scalar(a), y), b.items)
      else Any(y => test(Scalar(a), y), b.items)
    else if !b.List? then
      if mode == EveryPair then All(x => test(x, Scalar(b)), a.items)
      else Any(x => test(x, Scalar(b)), a.items)
    else if mode == EveryPair then All(x => All(y => test(x, y), b.items), a.items)
    else Any(x => Any(y => test(x, y), b.items), a.items)
  }

  /** Every pair of items passes the test. */
  predicate EveryPairPasses(test: (Option<string>, Option<string>) -> bool, A: seq<Option<string>>, B: seq<Option<string>>)
  {
    forall i, j :: 0 <= i < |A| && 0 <= j < |B| ==> test(A[i], B[j])
  }

  /** Some pair of items passes the test. */
  predicate SomePairPasses(test: (Option<string>, Option<string>) -> bool, A: seq<Option<string>>, B: seq<Option<string>>)
  {
    exists i, j :: 0 <= i < |A| && 0 <= j < |B| && test(A[i], B[j])
  }

  /** With EVERY, `compare` holds iff the test holds on every pair of items; with SOME, on some pair. */
  lemma CompareOnPairs(test: (Option<string>, Option<string>) -> bool, a: Value, b: Value)
    ensures Compare(test, a, b, EveryPair) <==> EveryPairPasses(test, Items(a), Items(b))
    ensures Compare(test, a, b, SomePair) <==> SomePairPasses(test, Items(a), Items(b))
  {
    if !a.List? && !b.List? {
      ScalarPairs(test, Scalar(a), Scalar(b));
    } else if !a.List? {
      ScalarAndListPairs(test, Scalar(a), b.items);
    } else if !b.List? {
      ListAndScalarPairs(test, a.items, Scalar(b));
    } else {
      ListPairs(test, a.items, b.items);
    }
  }

  lemma ScalarPairs(test: (Option<string>, Option<string>) -> bool, x: Option<string>, y: Option<string>)
    ensures EveryPairPasses(test, [x], [y]) <==> test(x, y)
    ensures SomePairPasses(test, [x], [y]) <==> test(x, y)
  {
    var A, B := [x], [y];
    if test(x, y) {
      assert test(A[0], B[0]);
      forall i, j | 0 <= i < |A| && 0 <= j < |B| ensures test(A[i], B[j]) {
        assert A[i] == x && B[j] == y;
      }
    }
    if EveryPairPasses(test, A, B) {
      assert test(A[0], B[0]);
    }
    if SomePairPasses(test, A, B) {
      var i, j :| 0 <= i < |A| && 0 <= j < |B| && test(A[i], B[j]);
      assert A[i] == x && B[j] == y;
    }
  }

  lemma ScalarAndListPairs(test: (Option<string>, Option<string>) -> bool, x: Option<string>, B: seq<Option<string>>)
    ensures EveryPairPasses(test, [x], B) <==> All(y => test(x, y), B)
    ensures SomePairPasses(test, [x], B) <==> Any(y => test(x, y), B)
  {
    var A := [x];
    if Any(y => test(x, y), B) {
      var j :| 0 <= j < |B| && test(x, B[j]);
      assert test(A[0], B[j]);
    }
    if SomePairPasses(test, A, B) {
      var i, j :| 0 <= i < |A| && 0 <= j < |B| && test(A[i], B[j]);
      assert A[i] == x;
    }
    if All(y => test(x, y), B) {
      forall i, j | 0 <= i < |A| && 0 <= j < |B| ensures test(A[i], B[j]) {
        assert A[i] == x;
      }
    }
    if EveryPairPasses(test, A, B) {
      forall j | 0 <= j < |B| ensures test(x, B[j]) {
        assert test(A[0], B[j]);
      }
    }
  }

  lemma ListAndScalarPairs(test: (Option<string>, Option<string>) -> bool, A: seq<Option<string>>, y: Option<string>)
    ensures EveryPairPasses(test, A, [y]) <==> All(x => test(x, y), A)
    ensures SomePairPasses(test, A, [y]) <==> Any(x => test(x, y), A)
  {
    var B := [y];
    if Any(x => test(x, y), A) {
      var i :| 0 <= i < |A| && test(A[i], y);
      assert test(A[i], B[0]);
    }
    if SomePairPasses(test, A, B) {
      var i, j :| 0 <= i < |A| && 0 <= j < |B| && test(A[i], B[j]);
      assert B[j] == y;
    }
    if All(x => test(x, y), A) {
      forall i, j | 0 <= i < |A| && 0 <= j < |B| ensures test(A[i], B[j]) {
        assert B[j] == y;
      }
    }
    if EveryPairPasses(test, A, B) {
      forall i | 0 <= i < |A| ensures test(A[i], y) {
        assert test(A[i], B[0]);
      }
    }
  }

  lemma ListPairs(test: (Option<string>, Option<string>) -> bool, A: seq<Option<string>>, B: seq<Option<string>>)
    ensures EveryPairPasses(test, A, B) <==> All(x => All(y => test(x, y), B), A)
    ensures SomePairPasses(test, A, B) <==> Any(x => Any(y => test(x, y), B), A)
  {
    if Any(x => Any(y => test(x, y), B), A) {
      var i :| 0 <= i < |A| && Any(y => test(A[i], y), B);
      var j :| 0 <= j < |B| && test(A[i], B[j]);
    }
    if EveryPairPasses(test, A, B) {
      forall i | 0 <= i < |A| ensures All(y => test(A[i], y), B) {
      }
    }
  }

  // ---------------------------------------------------------------- string tests

  predicate ContainsTest(a: Option<string>, b: Option<string>)
  {
    Truthy(a) && Truthy(b) && Includes(Normalize(a.value), Normalize(b.value))
  }

  predicate NotContainsTest(a: Option<string>, b: Option<string>)
  {
    !Truthy(a) || !Truthy(b) || !Includes(Normalize(a.value), Normalize(b.value))
  }

  predicate EqualTest(a: Option<string>, b: Option<string>)
  {
    a == b
  }

  predicate NotEqualTest(a: Option<string>, b: Option<string>)
  {
    a != b
  }

  predicate StartsWithTest(a: Option<string>, b: Option<string>)
  {
    Truthy(a) && Truthy(b) && StartsWith(Normalize(a.value), Normalize(b.value))
  }

  predicate EndsWithTest(a: Option<string>, b: Option<string>)
  {
    Truthy(a) && Truthy(b) && EndsWith(Normalize(a.value), Normalize(b.value))
  }

  // ---------------------------------------------------------------- numbers

  /** `parseDateOrNumber`: `Number(s)`, or `Date.parse(s)` when that is NaN (`None`). */
  function ParseDateOrNumber(c: Collaborators, s: string): (r: Option<int>)
    ensures c.toNumber(s).Some? ==> r == c.toNumber(s)
    ensures c.toNumber(s).None? ==> r == c.dateParse(s)
  {
    var parsed := c.toNumber(s);
    if parsed.None? then c.dateParse(s) else parsed
  }

  /** `x > y` on numbers that may be NaN: NaN compares false. */
  predicate NumGreater(x: Option<int>, y: Option<int>)
  {
    x.Some? && y.Some? && x.value > y.value
  }

  /** `.length` of a string or a list. */
  function Length(v: Value): nat
    requires !v.Missing?
  {
    if v.Str? then |v.s| else |v.items|
  }

  // ---------------------------------------------------------------- comparisons

  /** `variables[k]` is the first variable whose id is `id`. */
  predicate FirstWithId(variables: seq<Variable>, id: string, k: int)
  {
    0 <= k < |variables| && variables[k].id == id && forall j :: 0 <= j < k ==> variables[j].id != id
  }

  /** `variables.find((v) => v.id === id)?.value ?? null` */
  function FindValue(variables: seq<Variable>, id: string): (r: Value)
    ensures (exists k :: FirstWithId(variables, id, k)) ==>
      exists k :: FirstWithId(variables, id, k) && r == variables[k].value
    ensures (forall k :: 0 <= k < |variables| ==> variables[k].id != id) ==> r == Missing
  {
    if variables == [] then Missing
    else if variables[0].id == id then
      assert FirstWithId(variables, id, 0);
      variables[0].value
    else
      var r := FindValue(variables[1..], id);
      assert forall k :: FirstWithId(variables, id, k) ==> FirstWithId(variables[1..], id, k - 1);
      assert forall k :: FirstWithId(variables[1..], id, k) ==> FirstWithId(variables, id, k + 1);
      r
  }

  /**
    The comparand: `null` for the literals "undefined" and "null", else the
    value of the variable the literal names, else the literal with its
    `{{variables}}` substituted.
   */
  function Comparand(c: Collaborators, variables: seq<Variable>, literal: Option<string>): (r: Value)
    ensures r == Missing <==> literal == Some("undefined") || literal == Some("null")
  {
    if literal == Some("undefined") || literal == Some("null") then Missing
    else
      var unique := c.findUniqueVariableValue(variables, literal);
      if unique != Missing then unique
      else Str(if literal.Some? then c.parseVariables(variables, literal.value, false) else "")
  }

  /** The body of the operator switch, given the resolved input value and comparand. */
  function ApplyOperator(c: Collaborators, op: ComparisonOperator, inputValue: Value, value: Value): bool
  {
    match op
    case Contains => Compare(ContainsTest, inputValue, value, SomePair)
    case NotContains => Compare(NotContainsTest, inputValue, value, EveryPair)
    case Equal => Compare(EqualTest, inputValue, value, EveryPair)
    case NotEqual => Compare(NotEqualTest, inputValue, value, EveryPair)
    case Greater =>
      if inputValue.Missing? || value.Missing? then false
      else if inputValue.Str? then
        if value.Str? then NumGreater(ParseDateOrNumber(c, inputValue.s), ParseDateOrNumber(c, value.s))
        else NumGreater(c.toNumber(inputValue.s), Some(Length(value)))
      else if value.Str? then NumGreater(Some(Length(inputValue)), c.toNumber(value.s))
      else Length(inputValue) > Length(value)
    case Less =>
      if inputValue.Missing? || value.Missing? then false
      else if inputValue.Str? then
        if value.Str? then NumGreater(ParseDateOrNumber(c, value.s), ParseDateOrNumber(c, inputValue.s))
        else NumGreater(Some(Length(value)), c.toNumber(inputValue.s))
      else if value.Str? then NumGreater(c.toNumber(value.s), Some(Length(inputValue)))
      else Length(inputValue) < Length(value)
    case IsSet => !inputValue.Missing? && Length(inputValue) > 0
    case IsEmpty => inputValue.Missing? || Length(inputValue) == 0
    case StartsWithOp => Compare(StartsWithTest, inputValue, value, EveryPair)
    case EndsWithOp => Compare(EndsWithTest, inputValue, value, EveryPair)
    case Unrecognized(_) => false
  }

  /** `executeComparison` */
  function ExecuteComparison(c: Collaborators, variables: seq<Variable>, comparison: Comparison): (r: bool)
    ensures !Truthy(comparison.variableId) ==> !r
    ensures comparison.comparisonOperator.None? ==> !r
  {
    if !Truthy(comparison.variableId) then false
    else
      var inputValue := FindValue(variables, comparison.variableId.value);
      var value := Comparand(c, variables, comparison.value);
      if comparison.comparisonOperator.None? then false
      else ApplyOperator(c, comparison.comparisonOperator.value, inputValue, value)
  }

  function EveryComparison(c: Collaborators, variables: seq<Variable>, cs: seq<Comparison>): (r: bool)
    ensures r <==> forall i :: 0 <= i < |cs| ==> ExecuteComparison(c, variables, cs[i])
  {
    if cs == [] then true
    else ExecuteComparison(c, variables, cs[0]) && EveryComparison(c, variables, cs[1..])
  }

  function SomeComparison(c: Collaborators, variables: seq<Variable>, cs: seq<Comparison>): (r: bool)
    ensures r <==> exists i :: 0 <= i < |cs| && ExecuteComparison(c, variables, cs[i])
  {
    if cs == [] then false
    else ExecuteComparison(c, variables, cs[0]) || SomeComparison(c, variables, cs[1..])
  }

  /** `executeCondition`: AND needs every comparison to hold; any other operator needs one. */
  function ExecuteCondition(c: Collaborators, variables: seq<Variable>, condition: ConditionDef): (r: bool)
    ensures condition.logicalOperator == And ==>
      (r <==> forall i :: 0 <= i < |condition.comparisons| ==> ExecuteComparison(c, variables, condition.comparisons[i]))
    ensures condition.logicalOperator != And ==>
      (r <==> exists i :: 0 <= i < |condition.comparisons| && ExecuteComparison(c, variables, condition.comparisons[i]))
  {
    if condition.logicalOperator == And then EveryComparison(c, variables, condition.comparisons)
    else SomeComparison(c, variables, condition.comparisons)
  }

  // ---------------------------------------------------------------- properties

  /** The string test an operator applies to each pair of items. */
  function TestOf(op: ComparisonOperator): (Option<string>, Option<string>) -> bool
  {
    match op
    case Contains => ContainsTest
    case NotContains => NotContainsTest
    case Equal => EqualTest
    case NotEqual => NotEqualTest
    case StartsWithOp => StartsWithTest
    case EndsWithOp => EndsWithTest
    case _ => (x, y) => false
  }

  /**
    With a list on either side, CONTAINS holds when SOME pair of items passes
    the test, and EQUAL, NOT_EQUAL, NOT_CONTAINS, STARTS_WITH and ENDS_WITH
    only when EVERY pair does.
   */
  lemma ListSemantics(c: Collaborators, op: ComparisonOperator, a: Value, b: Value)
    ensures op == Contains ==> (ApplyOperator(c, op, a, b) <==>
      SomePairPasses(TestOf(op), Items(a), Items(b)))
    ensures op in {NotContains, Equal, NotEqual, StartsWithOp, EndsWithOp} ==> (ApplyOperator(c, op, a, b) <==>
      EveryPairPasses(TestOf(op), Items(a), Items(b)))
  {
    CompareOnPairs(TestOf(op), a, b);
  }

  /**
    On two strings CONTAINS is the case-insensitive, trimmed substring test
    on non-empty sides (`Text.Includes` holds exactly when the second string
    occurs in the first).
   */
  lemma ContainsOnStrings(c: Collaborators, a: string, b: string)
    ensures ApplyOperator(c, Contains, Str(a), Str(b)) <==>
      a != "" && b != "" && Includes(Normalize(a), Normalize(b))
  {
    ContainsIsTestOnScalars(c, a, b);
  }

  lemma ContainsIsTestOnScalars(c: Collaborators, a: string, b: string)
    ensures ApplyOperator(c, Contains, Str(a), Str(b)) == ContainsTest(Some(a), Some(b))
  {
    assert ApplyOperator(c, Contains, Str(a), Str(b)) == Compare(ContainsTest, Str(a), Str(b), SomePair);
  }

  /** An empty or missing side makes CONTAINS false and NOT_CONTAINS true, whatever the other side is. */
  lemma EmptySideRules(c: Collaborators, a: Value, b: Value)
    requires a == Missing || a == Str("") || b == Missing || b == Str("")
    ensures !ApplyOperator(c, Contains, a, b)
    ensures ApplyOperator(c, NotContains, a, b)
  {
    var A, B := Items(a), Items(b);
    assert forall i, j :: 0 <= i < |A| && 0 <= j < |B| ==> !Truthy(A[i]) || !Truthy(B[j]);
    CompareOnPairs(ContainsTest, a, b);
    CompareOnPairs(NotContainsTest, a, b);
  }

  /** NOT_CONTAINS is exactly the negation of CONTAINS, lists included. */
  lemma NotContainsNegatesContains(c: Collaborators, a: Value, b: Value)
    ensures ApplyOperator(c, NotContains, a, b) == !ApplyOperator(c, Contains, a, b)
  {
    CompareOnPairs(ContainsTest, a, b);
    CompareOnPairs(NotContainsTest, a, b);
    assert forall x, y :: NotContainsTest(x, y) == !ContainsTest(x, y);
  }

  /** IS_SET and IS_EMPTY are exact complements. */
  lemma IsSetComplementsIsEmpty(c: Collaborators, a: Value, b: Value)
    ensures ApplyOperator(c, IsSet, a, b) == !ApplyOperator(c, IsEmpty, a, b)
  {
  }

  /** LESS is GREATER with the sides swapped, so the two never hold together. */
  lemma LessIsSwappedGreater(c: Collaborators, a: Value, b: Value)
    ensures ApplyOperator(c, Less, a, b) == ApplyOperator(c, Greater, b, a)
    ensures !(ApplyOperator(c, Greater, a, b) && ApplyOperator(c, Less, a, b))
  {
  }

  /** GREATER is false when either side is null; two strings compare their parsed numbers or dates. */
  lemma GreaterOnStrings(c: Collaborators, a: string, b: string, m: int, n: int)
    requires ParseDateOrNumber(c, a) == Some(m) && ParseDateOrNumber(c, b) == Some(n)
    ensures ApplyOperator(c, Greater, Str(a), Str(b)) <==> m > n
    ensures !ApplyOperator(c, Greater, Missing, Str(b)) && !ApplyOperator(c, Greater, Str(a), Missing)
  {
  }

  /** A string against a list: the string's `Number` against the list's length (NaN gives false). */
  lemma GreaterStringAgainstList(c: Collaborators, a: string, items: seq<Option<string>>)
    ensures ApplyOperator(c, Greater, Str(a), List(items)) <==> c.toNumber(a).Some? && c.toNumber(a).value > |items|
    ensures ApplyOperator(c, Less, Str(a), List(items)) <==> c.toNumber(a).Some? && c.toNumber(a).value < |items|
  {
  }

  /** A list against a string: the list's length against the string's `Number` (NaN gives false). */
  lemma GreaterListAgainstString(c: Collaborators, items: seq<Option<string>>, b: string)
    ensures ApplyOperator(c, Greater, List(items), Str(b)) <==> c.toNumber(b).Some? && |items| > c.toNumber(b).value
    ensures ApplyOperator(c, Less, List(items), Str(b)) <==> c.toNumber(b).Some? && |items| < c.toNumber(b).value
  {
  }

  /** Two lists compare by length. */
  lemma GreaterOnLists(c: Collaborators, A: seq<Option<string>>, B: seq<Option<string>>)
    ensures ApplyOperator(c, Greater, List(A), List(B)) <==> |A| > |B|
    ensures ApplyOperator(c, Less, List(A), List(B)) <==> |A| < |B|
  {
  }

  /** Text that is neither a number nor a date (NaN) makes GREATER and LESS false. */
  lemma UnparseableNeverCompares(c: Collaborators, a: string, b: string)
    requires ParseDateOrNumber(c, a).None? || ParseDateOrNumber(c, b).None?
    ensures !ApplyOperator(c, Greater, Str(a), Str(b))
    ensures !ApplyOperator(c, Less, Str(a), Str(b))
  {
  }

  /**
    On lists EQUAL and NOT_EQUAL are not complements: when the comparand
    equals one item of the list and differs from another, both are false.
   */
  lemma EqualAndNotEqualBothFailOnMixedList(c: Collaborators, items: seq<Option<string>>, b: string, i: int, j: int)
    requires 0 <= i < |items| && 0 <= j < |items|
    requires items[i] == Some(b) && items[j] != Some(b)
    ensures !ApplyOperator(c, Equal, List(items), Str(b))
    ensures !ApplyOperator(c, NotEqual, List(items), Str(b))
  {
    CompareOnPairs(EqualTest, List(items), Str(b));
    CompareOnPairs(NotEqualTest, List(items), Str(b));
    assert !EqualTest(Items(List(items))[j], Items(Str(b))[0]);
    assert !NotEqualTest(Items(List(items))[i], Items(Str(b))[0]);
  }

  /** `age = "21"`, AND over [age GREATER "18"]: the condition holds. */
  lemma AgeScenario(c: Collaborators)
    requires c.findUniqueVariableValue([Variable("v1", "age", Str("21"))], Some("18")) == Missing
    requires c.parseVariables([Variable("v1", "age", Str("21"))], "18", false) == "18"
    requires c.toNumber("21") == Some(21) && c.toNumber("18") == Some(18)
    ensures ExecuteCondition(c, [Variable("v1", "age", Str("21"))],
      ConditionDef(And, [Comparison(Some("v1"), Some(Greater), Some("18"))]))
  {
    var vars := [Variable("v1", "age", Str("21"))];
    var cmp := Comparison(Some("v1"), Some(Greater), Some("18"));
    assert FindValue(vars, "v1") == Str("21");
    assert Comparand(c, vars, Some("18")) == Str("18");
    assert ExecuteComparison(c, vars, cmp);
  }

  /** A list of cities does not EQUAL "Paris": not every item does. */
  lemma CitiesNotEqualParis(c: Collaborators)
    ensures !ApplyOperator(c, Equal, List([Some("Paris"), Some("Lyon")]), Str("Paris"))
  {
    var cities := List([Some("Paris"), Some("Lyon")]);
    CompareOnPairs(EqualTest, cities, Str("Paris"));
    assert !EqualTest(Items(cities)[1], Items(Str("Paris"))[0]);
  }
}
