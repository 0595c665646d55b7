/** Arithmetic expressions over named integer variables, evaluated against a context. */
module Interpreter {

  /** What `Context::get` yields for `v` in map `m`: `std::map::operator[]` reads a
      missing name as 0, so a non-zero read always comes from a stored value. */
  function Lookup(m: map<string, int>, v: string): (val: int)
    ensures val != 0 ==> v in m && m[v] == val
  {
    if v in m then m[v] else 0
  }

  /** The map after `operator[]` has looked `v` up: a missing name is inserted with 0. */
  function Touch(m: map<string, int>, v: string): (m': map<string, int>)
    ensures m'.Keys == m.Keys + {v}
    ensures forall w :: Lookup(m', w) == Lookup(m, w)
  {
    if v in m then m else m[v := 0]
  }

  /** The variable environment, a map the operations update in place. */
  class Context {
    var m: map<string, int>

    constructor ()
      ensures m == map[]
    {
      m := map[];
    }

    /** `put` stores `val` under `var`, overwriting an earlier value. */
    method Put(variable: string, val: int)
      modifies this
      ensures m == old(m)[variable := val]
    {
      m := m[variable := val];
    }

    /** `get` reads `var`, default-inserting 0 when it was never put. */
    method Get(variable: string) returns (val: int)
      modifies this
      ensures val == Lookup(old(m), variable)
      ensures m == Touch(old(m), variable)
    {
      if variable !in m {
        m := m[variable := 0];
      }
      val := m[variable];
    }
  }

  /** After `put(v, x)`, `v` reads as `x` and every other name reads as before. */
  lemma PutThenLookup(m: map<string, int>, v: string, x: int, w: string)
    ensures Lookup(m[v := x], v) == x
    ensures w != v ==> Lookup(m[v := x], w) == Lookup(m, w)
  {
  }

  /** An expression tree: variables at the leaves, products and sums inside. */
  datatype Expression =
    | TerminalExpression(variable: string)
    | MultiplyNonTerminalExpression(left: Expression, right: Expression)
    | SumNonTerminalExpression(left: Expression, right: Expression)

  /** The value of an expression when every variable reads as in `m`. With only products
      and sums, variables that all read 0 give 0, and variables that all read non-negative
      values give a non-negative value. */
  function Eval(e: Expression, m: map<string, int>): (val: int)
    ensures (forall v | v in Variables(e) :: Lookup(m, v) == 0) ==> val == 0
    ensures (forall v | v in Variables(e) :: Lookup(m, v) >= 0) ==> val >= 0
  {
    match e
    case TerminalExpression(v) => Lookup(m, v)
    case MultiplyNonTerminalExpression(l, r) => Eval(l, m) * Eval(r, m)
    case SumNonTerminalExpression(l, r) => Eval(l, m) + Eval(r, m)
  }

  /** The variables an expression mentions. */
  function Variables(e: Expression): set<string> {
    match e
    case TerminalExpression(v) => {v}
    case MultiplyNonTerminalExpression(l, r) => Variables(l) + Variables(r)
    case SumNonTerminalExpression(l, r) => Variables(l) + Variables(r)
  }

  /** The value of an expression depends only on how its own variables read. */
  lemma {:induction false} EvalDependsOnlyOnVariables(e: Expression, m1: map<string, int>, m2: map<string, int>)
    requires forall v | v in Variables(e) :: Lookup(m1, v) == Lookup(m2, v)
    ensures Eval(e, m1) == Eval(e, m2)
  {
    match e
    case TerminalExpression(_) =>
    case MultiplyNonTerminalExpression(l, r) =>
      EvalDependsOnlyOnVariables(l, m1, m2);
      EvalDependsOnlyOnVariables(r, m1, m2);
    case SumNonTerminalExpression(l, r) =>
      EvalDependsOnlyOnVariables(l, m1, m2);
      EvalDependsOnlyOnVariables(r, m1, m2);
  }

  /** `interpreter`: evaluates both operands through `get`. C++ leaves the order of the
      two operand evaluations unspecified; the model takes left first, and neither the
      value nor the final map depends on the order. The result is the expression's value
      in the original context; the only change to the context is the default insertion
      of the variables it mentions, so no name reads differently. */
  method Interpret(e: Expression, context: Context) returns (val: int)
    modifies context
    ensures val == Eval(e, old(context.m))
    ensures context.m.Keys == old(context.m.Keys) + Variables(e)
    ensures forall w :: Lookup(context.m, w) == Lookup(old(context.m), w)
    decreases e
  {
    match e
    case TerminalExpression(v) =>
      val := context.Get(v);
    case MultiplyNonTerminalExpression(l, r) =>
      ghost var m0 := context.m;
      var lv := Interpret(l, context);
      ghost var m1 := context.m;
      var rv := Interpret(r, context);
      EvalDependsOnlyOnVariables(r, m1, m0);
      val := lv * rv;
    case SumNonTerminalExpression(l, r) =>
      ghost var m0 := context.m;
      var lv := Interpret(l, context);
      ghost var m1 := context.m;
      var rv := Interpret(r, context);
      EvalDependsOnlyOnVariables(r, m1, m0);
      val := lv + rv;
  }

  /** A name never put reads as 0, and still reads as 0 after the insertion that reading did. */
  method UnsetVariableDemo() returns (first: int, second: int)
    ensures first == 0 && second == 0
  {
    var context := new Context();
    context.Put("x", 7);
    first := context.Get("y");
    second := context.Get("y");
  }

  /** The demonstration: with num1..num4 = 2, 3, 4, 5, (num1 * num2) + (num3 * num4) is 26. */
  method Demo() returns (val: int)
    ensures val == 26
  {
    var context := new Context();
    context.Put("num1", 2);
    context.Put("num2", 3);
    context.Put("num3", 4);
    context.Put("num4", 5);
    var expression1 := MultiplyNonTerminalExpression(TerminalExpression("num1"), TerminalExpression("num2"));
    var expression2 := MultiplyNonTerminalExpression(TerminalExpression("num3"), TerminalExpression("num4"));
    var expression3 := SumNonTerminalExpression(expression1, expression2);
    ghost var m := context.m;
    assert "num1" != "num2" && "num3" != "num4" by { assert "num1"[3] != "num2"[3] && "num3"[3] != "num4"[3]; }
    assert Lookup(m, "num1") == 2 && Lookup(m, "num2") == 3 && Lookup(m, "num3") == 4 && Lookup(m, "num4") == 5;
    assert Eval(expression1, m) == 6 && Eval(expression2, m) == 20;
    val := Interpret(expression3, context);
  }
}
