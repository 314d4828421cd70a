/** Conditions of debug-capture rules: one operator, and lists of conditions. */
module Conditions {
  import opened Options

  /** A float64; reals stand for the finite ones. */
  datatype Float = NaN | NegInf | Finite(r: real) | PosInf

  /** A value a condition is evaluated on. */
  datatype Arg =
    | NilArg
    | StringArg(s: string)
    | BoolArg(b: bool)
    | FloatArg(f: Float)
    | IntArg(n: int)
    | NumberArg(text: string)
    | OtherArg(shown: string)

  /** The library functions conditions rely on. */
  datatype Lib = Lib(
    parseFloat: string -> Option<Float>, formatFloat: Float -> string, showInt: int -> string, intToFloat: int -> Float,
    trim: string -> string, lower: string -> string)

  datatype Condition = Condition(key: string, op: string, value: string)

  // ---- One operator ----

  predicate FloatEqual(a: Float, b: Float) {
    !a.NaN? && !b.NaN? && a == b
  }

  predicate FloatLess(a: Float, b: Float) {
    match (a, b)
    case (NaN, _) => false
    case (_, NaN) => false
    case (Finite(x), Finite(y)) => x < y
    case (NegInf, _) => !b.NegInf?
    case (_, PosInf) => !a.PosInf?
    case _ => false
  }

  function ToFloat(lib: Lib, v: Arg): Option<Float> {
    match v
    case FloatArg(f) => Some(f)
    case IntArg(n) => Some(lib.intToFloat(n))
    case NumberArg(text) => lib.parseFloat(text)
    case StringArg(s) => lib.parseFloat(lib.trim(s))
    case _ => None
  }

  function ToStr(lib: Lib, v: Arg): string {
    match v
    case NilArg => ""
    case StringArg(s) => s
    case BoolArg(b) => if b then "true" else "false"
    case FloatArg(f) => lib.formatFloat(f)
    case IntArg(n) => lib.showInt(n)
    case NumberArg(text) => text
    case OtherArg(shown) => shown
  }

  /** Both sides as numbers, if both are numbers. */
  function BothFloats(lib: Lib, actual: Arg, value: string): Option<(Float, Float)> {
    match (ToFloat(lib, actual), lib.parseFloat(lib.trim(value)))
    case (Some(a), Some(b)) => Some((a, b))
    case _ => None
  }

  predicate Contains(s: string, part: string) {
    exists i :: 0 <= i <= |s| && part <= s[i..]
  }

  predicate EvalOp(lib: Lib, op: string, actual: Arg, value: string) {
    var fs := BothFloats(lib, actual, value);
    if op == "==" then (if fs.Some? then FloatEqual(fs.value.0, fs.value.1) else ToStr(lib, actual) == value)
    else if op == "!=" then (if fs.Some? then !FloatEqual(fs.value.0, fs.value.1) else ToStr(lib, actual) != value)
    else if op == "<" then fs.Some? && FloatLess(fs.value.0, fs.value.1)
    else if op == "<=" then
      fs.Some? && (FloatLess(fs.value.0, fs.value.1) || FloatEqual(fs.value.0, fs.value.1))
    else if op == ">" then fs.Some? && FloatLess(fs.value.1, fs.value.0)
    else if op == ">=" then
      fs.Some? && (FloatLess(fs.value.1, fs.value.0) || FloatEqual(fs.value.0, fs.value.1))
    else if op == "starts_with" then value <= ToStr(lib, actual)
    else if op == "contains" then Contains(ToStr(lib, actual), value)
    else false
  }

  function NormalizeOp(lib: Lib, op: string): string {
    var o := lib.lower(lib.trim(op));
    if o in {"==", "eq", "equals"} then "=="
    else if o in {"!=", "ne", "not_equals"} then "!="
    else if o in {"<", "lt"} then "<"
    else if o in {"<=", "le", "lte"} then "<="
    else if o in {">", "gt"} then ">"
    else if o in {">=", "ge", "gte"} then ">="
    else if o in {"starts_with", "startswith", "prefix"} then "starts_with"
    else if o in {"contains", "includes"} then "contains"
    else o
  }

  // ---- Lists of conditions ----

  /** All of the conditions, or with the logic "or" one of them; an empty list always holds. */
  predicate Holds(lib: Lib, conds: seq<Condition>, lookup: string -> Arg, logic: string) {
    if conds == [] then true
    else if logic == "or" then
      exists i :: 0 <= i < |conds| && EvalOp(lib, conds[i].op, lookup(conds[i].key), conds[i].value)
    else
      forall i :: 0 <= i < |conds| ==> EvalOp(lib, conds[i].op, lookup(conds[i].key), conds[i].value)
  }

  /** The short-circuiting loop. */
  method EvalConditions(lib: Lib, conds: seq<Condition>, lookup: string -> Arg, logic: string) returns (holds: bool)
    ensures conds == [] ==> holds
    ensures conds != [] && logic == "or" ==>
              (holds <==> exists i :: 0 <= i < |conds| && EvalOp(lib, conds[i].op, lookup(conds[i].key), conds[i].value))
    ensures conds != [] && logic != "or" ==>
              (holds <==> forall i :: 0 <= i < |conds| ==> EvalOp(lib, conds[i].op, lookup(conds[i].key), conds[i].value))
    ensures holds == Holds(lib, conds, lookup, logic)
  {
    if |conds| == 0 {
      return true;
    }
    var or := logic == "or";
    for i := 0 to |conds|
      invariant forall j :: 0 <= j < i ==> EvalOp(lib, conds[j].op, lookup(conds[j].key), conds[j].value) == !or
    {
      var ok := EvalOp(lib, conds[i].op, lookup(conds[i].key), conds[i].value);
      if or && ok {
        return true;
      }
      if !or && !ok {
        return false;
      }
    }
    return !or;
  }

  // ---- De Morgan ----

  predicate Equational(c: Condition) {
    c.op == "==" || c.op == "!="
  }

  function FlipCondition(c: Condition): Condition {
    c.(op := if c.op == "==" then "!=" else "==")
  }

  function Flip(conds: seq<Condition>): seq<Condition> {
    seq(|conds|, i requires 0 <= i < |conds| => FlipCondition(conds[i]))
  }

  function FlipLogic(logic: string): string {
    if logic == "or" then "and" else "or"
  }

  /** Flipping every == and != and the logic negates a non-empty list, whether operands
      compare as numbers (NaN included) or as strings. */
  lemma DeMorgan(lib: Lib, conds: seq<Condition>, lookup: string -> Arg, logic: string)
    requires conds != [] && forall i :: 0 <= i < |conds| ==> Equational(conds[i])
    ensures Holds(lib, Flip(conds), lookup, FlipLogic(logic)) <==> !Holds(lib, conds, lookup, logic)
  {
    var flipped := Flip(conds);
    forall i | 0 <= i < |conds|
      ensures EvalOp(lib, flipped[i].op, lookup(flipped[i].key), flipped[i].value) <==>
              !EvalOp(lib, conds[i].op, lookup(conds[i].key), conds[i].value)
    {
      FlipNegates(lib, conds[i], lookup);
    }
  }

  lemma FlipNegates(lib: Lib, c: Condition, lookup: string -> Arg)
    requires Equational(c)
    ensures EvalOp(lib, FlipCondition(c).op, lookup(c.key), c.value) <==> !EvalOp(lib, c.op, lookup(c.key), c.value)
  {
    assert "==" != "!=" by {
      assert "=="[0] != "!="[0];
    }
  }

  /** On numbers the six comparisons are those of the numbers. */
  lemma NumbersCompare(lib: Lib, actual: Arg, value: string, x: real, y: real)
    requires BothFloats(lib, actual, value) == Some((Finite(x), Finite(y)))
    ensures EvalOp(lib, "==", actual, value) <==> x == y
    ensures EvalOp(lib, "!=", actual, value) <==> x != y
    ensures EvalOp(lib, "<", actual, value) <==> x < y
    ensures EvalOp(lib, "<=", actual, value) <==> x <= y
    ensures EvalOp(lib, ">", actual, value) <==> x > y
    ensures EvalOp(lib, ">=", actual, value) <==> x >= y
  {
    OpsDiffer();
  }

  lemma OpsDiffer()
    ensures forall i, j :: 0 <= i < j < |OPERATORS| ==> OPERATORS[i] != OPERATORS[j]
  {
    assert |"=="| == |"!="| == |"<="| == |">="| == 2 && |"<"| == |">"| == 1;
    assert "=="[0] == '=' && "!="[0] == '!' && "<"[0] == "<="[0] == '<' && ">"[0] == ">="[0] == '>';
    assert |"starts_with"| == 11 && |"contains"| == 8;
  }

  /** When one side is not a number, equality is that of the texts and no order holds; a NaN on
      either side of two numbers equals nothing and is in no order. */
  lemma OthersCompare(lib: Lib, actual: Arg, value: string)
    ensures BothFloats(lib, actual, value).None? ==>
              && (EvalOp(lib, "==", actual, value) <==> ToStr(lib, actual) == value)
              && (EvalOp(lib, "!=", actual, value) <==> ToStr(lib, actual) != value)
              && !EvalOp(lib, "<", actual, value) && !EvalOp(lib, "<=", actual, value)
              && !EvalOp(lib, ">", actual, value) && !EvalOp(lib, ">=", actual, value)
    ensures BothFloats(lib, actual, value).Some?
            && (BothFloats(lib, actual, value).value.0.NaN? || BothFloats(lib, actual, value).value.1.NaN?) ==>
              && !EvalOp(lib, "==", actual, value) && EvalOp(lib, "!=", actual, value)
              && !EvalOp(lib, "<", actual, value) && !EvalOp(lib, "<=", actual, value)
              && !EvalOp(lib, ">", actual, value) && !EvalOp(lib, ">=", actual, value)
  {
    OpsDiffer();
  }

  /** The text operators look at the text of any value, numbers included. */
  lemma TextOperators(lib: Lib, actual: Arg, value: string)
    ensures EvalOp(lib, "starts_with", actual, value) <==> exists rest :: ToStr(lib, actual) == value + rest
    ensures EvalOp(lib, "contains", actual, value) <==> exists before, after :: ToStr(lib, actual) == before + value + after
  {
    OpsDiffer();
    assert OPERATORS[6] == "starts_with" && OPERATORS[7] == "contains";
    StartsWithIs(ToStr(lib, actual), value);
    ContainsIs(ToStr(lib, actual), value);
  }

  lemma StartsWithIs(s: string, part: string)
    ensures part <= s <==> exists rest :: s == part + rest
  {
    if part <= s {
      assert s == part + s[|part|..];
    }
  }

  lemma ContainsIs(s: string, part: string)
    ensures Contains(s, part) <==> exists before, after :: s == before + part + after
  {
    if Contains(s, part) {
      var i :| 0 <= i <= |s| && part <= s[i..];
      assert s == s[..i] + part + s[i..][|part|..];
    }
    forall before, after | s == before + part + after
      ensures Contains(s, part)
    {
      assert s[|before|..] == part + after;
    }
  }

  /** Which values are numbers, and how the others read: only numbers, and texts that parse. */
  lemma NumbersAre(lib: Lib, actual: Arg, value: string)
    ensures var number := match actual
                          case FloatArg(f) => Some(f)
                          case IntArg(n) => Some(lib.intToFloat(n))
                          case NumberArg(text) => lib.parseFloat(text)
                          case StringArg(s) => lib.parseFloat(lib.trim(s))
                          case _ => None;
            var other := lib.parseFloat(lib.trim(value));
            BothFloats(lib, actual, value) ==
            if number.Some? && other.Some? then Some((number.value, other.value)) else None
    ensures actual.NilArg? ==> ToStr(lib, actual) == ""
    ensures actual.StringArg? ==> ToStr(lib, actual) == actual.s
    ensures actual.BoolArg? ==> ToStr(lib, actual) == if actual.b then "true" else "false"
  {}

  // ---- The spellings of each operator ----

  lemma EqualitySpelled(lib: Lib, op: string)
    requires lib.lower(lib.trim(op)) in {"==", "eq", "equals"}
    ensures NormalizeOp(lib, op) == "=="
  {}

  lemma InequalitySpelled(lib: Lib, op: string)
    requires lib.lower(lib.trim(op)) in {"!=", "ne", "not_equals"}
    ensures NormalizeOp(lib, op) == "!="
  {}

  lemma BelowSpelled(lib: Lib, op: string)
    requires lib.lower(lib.trim(op)) in {"<", "lt"}
    ensures NormalizeOp(lib, op) == "<"
  {}

  lemma AtMostSpelled(lib: Lib, op: string)
    requires lib.lower(lib.trim(op)) in {"<=", "le", "lte"}
    ensures NormalizeOp(lib, op) == "<="
  {}

  lemma AboveSpelled(lib: Lib, op: string)
    requires lib.lower(lib.trim(op)) in {">", "gt"}
    ensures NormalizeOp(lib, op) == ">"
  {}

  lemma AtLeastSpelled(lib: Lib, op: string)
    requires lib.lower(lib.trim(op)) in {">=", "ge", "gte"}
    ensures NormalizeOp(lib, op) == ">="
  {}

  lemma PrefixSpelled(lib: Lib, op: string)
    requires lib.lower(lib.trim(op)) in {"starts_with", "startswith", "prefix"}
    ensures NormalizeOp(lib, op) == "starts_with"
  {}

  lemma ContainmentSpelled(lib: Lib, op: string)
    requires lib.lower(lib.trim(op)) in {"contains", "includes"}
    ensures NormalizeOp(lib, op) == "contains"
  {}

  /** Every spelling of an operator, trimmed and in lower case, normalizes to it. */
  lemma Spellings(lib: Lib, op: string)
    ensures var o, n := lib.lower(lib.trim(op)), NormalizeOp(lib, op);
            && (o in {"==", "eq", "equals"} ==> n == "==")
            && (o in {"!=", "ne", "not_equals"} ==> n == "!=")
            && (o in {"<", "lt"} ==> n == "<")
            && (o in {"<=", "le", "lte"} ==> n == "<=")
            && (o in {">", "gt"} ==> n == ">")
            && (o in {">=", "ge", "gte"} ==> n == ">=")
            && (o in {"starts_with", "startswith", "prefix"} ==> n == "starts_with")
            && (o in {"contains", "includes"} ==> n == "contains")
  {
    var o := lib.lower(lib.trim(op));
    if o in {"==", "eq", "equals"} { EqualitySpelled(lib, op); }
    if o in {"!=", "ne", "not_equals"} { InequalitySpelled(lib, op); }
    if o in {"<", "lt"} { BelowSpelled(lib, op); }
    if o in {"<=", "le", "lte"} { AtMostSpelled(lib, op); }
    if o in {">", "gt"} { AboveSpelled(lib, op); }
    if o in {">=", "ge", "gte"} { AtLeastSpelled(lib, op); }
    if o in {"starts_with", "startswith", "prefix"} { PrefixSpelled(lib, op); }
    if o in {"contains", "includes"} { ContainmentSpelled(lib, op); }
  }

  /** Each pair of opposite orders is complementary exactly when both sides are numbers and
      neither is NaN. */
  lemma OrderComplementIff(lib: Lib, actual: Arg, value: string)
    ensures var fs := BothFloats(lib, actual, value);
            var ordered := fs.Some? && !fs.value.0.NaN? && !fs.value.1.NaN?;
            && ((EvalOp(lib, ">=", actual, value) <==> !EvalOp(lib, "<", actual, value)) <==> ordered)
            && ((EvalOp(lib, "<=", actual, value) <==> !EvalOp(lib, ">", actual, value)) <==> ordered)
  {
    OpsDiffer();
  }

  /** The operators conditions can use, as normalized. */
  const OPERATORS: seq<string> := ["==", "!=", "<", "<=", ">", ">=", "starts_with", "contains"]

  /** Anything else never holds. */
  lemma UnknownNeverHolds(lib: Lib, op: string, actual: Arg, value: string)
    requires op !in OPERATORS
    ensures !EvalOp(lib, op, actual, value)
  {
    assert forall i :: 0 <= i < |OPERATORS| ==> OPERATORS[i] != op;
    assert OPERATORS[0] == "==" && OPERATORS[1] == "!=" && OPERATORS[2] == "<" && OPERATORS[3] == "<=";
    assert OPERATORS[4] == ">" && OPERATORS[5] == ">=" && OPERATORS[6] == "starts_with" && OPERATORS[7] == "contains";
  }

  /** Normalizing settles at once: doing it again changes nothing, when the operators and `op`
      itself are unchanged by a second trimming and lowering. */
  lemma NormalizeOnce(lib: Lib, op: string)
    requires forall x :: x in OPERATORS || x == lib.lower(lib.trim(op)) ==> lib.lower(lib.trim(x)) == x
    ensures NormalizeOp(lib, NormalizeOp(lib, op)) == NormalizeOp(lib, op)
    ensures NormalizeOp(lib, op) in OPERATORS || NormalizeOp(lib, op) == lib.lower(lib.trim(op))
  {
    assert OPERATORS[0] == "==" && OPERATORS[1] == "!=" && OPERATORS[2] == "<" && OPERATORS[3] == "<=";
    assert OPERATORS[4] == ">" && OPERATORS[5] == ">=" && OPERATORS[6] == "starts_with" && OPERATORS[7] == "contains";
    OpsDiffer();
  }
}
