/**
 * Properties of the evaluator of Interpreter.java, stated over the spec functions of
 * module Interpretation (which the Interpreter class is proved to follow).
 */
module InterpretationProperties {
  import opened Wrappers
  import opened Numbers
  import opened Ast
  import opened Scopes
  import opened Interpretation

  // ---------------------------------------------------------------------------
  // Arithmetic

  /** Integer division truncates toward zero: the remainder is smaller than the divisor
      and has the sign of the dividend. A zero divisor is an error. */
  lemma IntegerDivision(a: int, b: int)
    ensures b == 0 ==> ApplyBinary("/", IntV(a), IntV(b)) == Err(RuntimeException("Division by zero"))
    ensures b != 0 ==>
      ApplyBinary("/", IntV(a), IntV(b)).Ok? && ApplyBinary("/", IntV(a), IntV(b)).value.IntV? &&
      var q := ApplyBinary("/", IntV(a), IntV(b)).value.i;
      Abs(a - q * b) < Abs(b) && (a - q * b == 0 || (a - q * b < 0 <==> a < 0))
  {
    if b != 0 {
      TruncDivSpec(a, b);
    }
  }

  /** So -7 / 2 is -3 here, where the Euclidean quotient is -4. */
  lemma IntegerDivisionExamples()
    ensures ApplyBinary("/", IntV(-7), IntV(2)) == Ok(IntV(-3))
    ensures ApplyBinary("/", IntV(7), IntV(-2)) == Ok(IntV(-3))
    ensures ApplyBinary("/", IntV(1), IntV(0)) == Err(RuntimeException("Division by zero"))
  {
    TruncDivExamples();
  }

  /** Decimal division is by a non-zero value of any scale; the quotient keeps the
      dividend's scale and is the nearest value at that scale (within half a unit). */
  lemma DecimalDivision(a: Decimal, b: Decimal)
    ensures DecIsZero(b) ==> ApplyBinary("/", DecV(a), DecV(b)) == Err(RuntimeException("Division by zero"))
    ensures !DecIsZero(b) ==>
      ApplyBinary("/", DecV(a), DecV(b)).Ok? && ApplyBinary("/", DecV(a), DecV(b)).value.DecV? &&
      var q := ApplyBinary("/", DecV(a), DecV(b)).value.d;
      q.scale == a.scale && 2 * Abs(q.unscaled * b.unscaled - a.unscaled * Pow10(b.scale)) <= Abs(b.unscaled)
  {
    if !DecIsZero(b) {
      RoundHalfEvenNearest(a.unscaled * Pow10(b.scale), b.unscaled);
    }
  }

  /** Zero at any scale divides nothing: 1.0 / 0.00 fails. */
  lemma DecimalZeroAnyScale()
    ensures ApplyBinary("/", DecV(Decimal(10, 1)), DecV(Decimal(0, 2))) == Err(RuntimeException("Division by zero"))
  {
  }

  /** `+` concatenates display strings when either side is a String, adds two Integers or
      two Decimals exactly, and refuses every other pair. */
  lemma PlusRule(l: Value, r: Value)
    ensures ApplyBinary("+", l, r).Ok? <==>
      ((l.StrV? || r.StrV?) && !l.NullV? && !r.NullV?) || (l.IntV? && r.IntV?) || (l.DecV? && r.DecV?)
    ensures (l.StrV? || r.StrV?) && !l.NullV? && !r.NullV? ==> ApplyBinary("+", l, r) == Ok(StrV(Display(l) + Display(r)))
    ensures l.IntV? && r.IntV? ==> ApplyBinary("+", l, r) == Ok(IntV(l.i + r.i))
    ensures l.DecV? && r.DecV? ==>
      ApplyBinary("+", l, r).Ok? && ApplyBinary("+", l, r).value.DecV? &&
      RealOf(ApplyBinary("+", l, r).value.d) == RealOf(l.d) + RealOf(r.d)
    ensures !ApplyBinary("+", l, r).Ok? && !l.NullV? && !r.NullV? ==> ApplyBinary("+", l, r) == Err(RuntimeException("Invalid operands for + operator"))
  {
    if l.DecV? && r.DecV? {
      DecAddExact(l.d, r.d);
    }
  }

  lemma PlusExamples()
    ensures ApplyBinary("+", IntV(1), StrV("a")) == Ok(StrV("1a"))
    ensures ApplyBinary("+", StrV("x"), NilV) == Ok(StrV("xnil"))
    ensures ApplyBinary("+", BoolV(true), StrV("!")) == Ok(StrV("true!"))
    ensures ApplyBinary("+", IntV(1), DecV(Decimal(10, 1))) == Err(RuntimeException("Invalid operands for + operator"))
    ensures ApplyBinary("+", NullV, StrV("a")) == Err(NullPointer)
  {
    assert Display(IntV(1)) == IntToString(1) == "1" && "1" + "a" == "1a";
    assert Display(NilV) == "nil" && "x" + "nil" == "xnil";
    assert Display(BoolV(true)) == "true" && "true" + "!" == "true!";
    assert !IsComparison("+");
  }

  /** `-` and `*` take two Integers or two Decimals and are exact on both. */
  lemma MinusTimesRule(op: string, l: Value, r: Value)
    requires op == "-" || op == "*"
    ensures ApplyBinary(op, l, r).Ok? <==> (l.IntV? && r.IntV?) || (l.DecV? && r.DecV?)
    ensures l.IntV? && r.IntV? ==> ApplyBinary(op, l, r) == Ok(IntV(if op == "-" then l.i - r.i else l.i * r.i))
    ensures l.DecV? && r.DecV? ==>
      ApplyBinary(op, l, r).Ok? && ApplyBinary(op, l, r).value.DecV? &&
      RealOf(ApplyBinary(op, l, r).value.d) == (if op == "-" then RealOf(l.d) - RealOf(r.d) else RealOf(l.d) * RealOf(r.d))
    ensures ApplyBinary(op, l, r).Err? ==> ApplyBinary(op, l, r) == Err(RuntimeException("Invalid operands for " + op + " operator"))
  {
    if op == "-" {
      if l.DecV? && r.DecV? {
        DecSubExact(l.d, r.d);
      }
      assert "Invalid operands for " + "-" + " operator" == "Invalid operands for - operator";
    } else {
      if l.DecV? && r.DecV? {
        DecMulExact(l.d, r.d);
      }
      assert "Invalid operands for " + "*" + " operator" == "Invalid operands for * operator";
    }
  }

  // ---------------------------------------------------------------------------
  // Logic, equality and comparison

  /** The right operand is never checked when the left one decides. */
  lemma ShortCircuit(r: Value)
    ensures ApplyBinary("AND", BoolV(false), r) == Ok(BoolV(false))
    ensures ApplyBinary("OR", BoolV(true), r) == Ok(BoolV(true))
  {
  }

  /** Otherwise AND and OR are the Boolean connectives, and need Boolean operands. */
  lemma LogicalRule(op: string, l: Value, r: Value)
    requires op == "AND" || op == "OR"
    ensures ApplyBinary(op, l, r).Ok? <==> l.BoolV? && (l.b == (op == "AND") ==> r.BoolV?)
    ensures ApplyBinary(op, l, r).Ok? ==>
      ApplyBinary(op, l, r) == Ok(BoolV(if op == "AND" then l.b && r.b else l.b || r.b))
    ensures !l.BoolV? ==> ApplyBinary(op, l, r) == Err(TypeError(BooleanClass, l))
  {
  }

  /** `==` and `!=` are equality of the values, with no type requirement; only a null left
      operand fails. */
  lemma EqualityRule(l: Value, r: Value)
    ensures !l.NullV? ==> ApplyBinary("==", l, r) == Ok(BoolV(l == r)) && ApplyBinary("!=", l, r) == Ok(BoolV(l != r))
    ensures l.NullV? ==> ApplyBinary("==", l, r) == Err(NullPointer) && ApplyBinary("!=", l, r) == Err(NullPointer)
  {
  }

  /** BigDecimal equality includes the scale, while comparison does not: 1.0 and 1.00
      are neither equal nor ordered apart, and 1 is not equal to 1.0. */
  lemma EqualityExamples()
    ensures ApplyBinary("==", DecV(Decimal(10, 1)), DecV(Decimal(100, 2))) == Ok(BoolV(false))
    ensures ApplyBinary("<=", DecV(Decimal(10, 1)), DecV(Decimal(100, 2))) == Ok(BoolV(true))
    ensures ApplyBinary(">=", DecV(Decimal(10, 1)), DecV(Decimal(100, 2))) == Ok(BoolV(true))
    ensures ApplyBinary("==", IntV(1), DecV(Decimal(10, 1))) == Ok(BoolV(false))
    ensures ApplyBinary("==", NilV, NullV) == Ok(BoolV(false))
  {
  }

  predicate SameKind(l: Value, r: Value) {
    (l.BoolV? && r.BoolV?) || (l.IntV? && r.IntV?) || (l.DecV? && r.DecV?) ||
    (l.CharV? && r.CharV?) || (l.StrV? && r.StrV?)
  }

  /** A comparison needs a Comparable left value and a right value of the same class;
      Integers are ordered as integers and Decimals by their numeric value. */
  lemma ComparisonRule(op: string, l: Value, r: Value)
    requires IsComparison(op)
    ensures ApplyBinary(op, l, r).Ok? <==> SameKind(l, r)
    ensures !IsInstance(ComparableClass, l) ==> ApplyBinary(op, l, r) == Err(TypeError(ComparableClass, l))
    ensures IsInstance(ComparableClass, l) && r.NullV? ==> ApplyBinary(op, l, r) == Err(NullPointer)
    ensures IsInstance(ComparableClass, l) && !r.NullV? && !SameKind(l, r) ==> ApplyBinary(op, l, r) == Err(ClassCast)
    ensures l.IntV? && r.IntV? ==> ApplyBinary(op, l, r) == Ok(BoolV(
      if op == "<" then l.i < r.i else if op == "<=" then l.i <= r.i else if op == ">" then l.i > r.i else l.i >= r.i))
    ensures l.DecV? && r.DecV? ==> ApplyBinary(op, l, r) == Ok(BoolV(
      if op == "<" then RealOf(l.d) < RealOf(r.d) else if op == "<=" then RealOf(l.d) <= RealOf(r.d)
      else if op == ">" then RealOf(l.d) > RealOf(r.d) else RealOf(l.d) >= RealOf(r.d)))
  {
    if l.DecV? && r.DecV? {
      DecCompareValue(l.d, r.d);
    }
  }

  /** String.compareTo is antisymmetric and zero exactly on equal strings. */
  lemma {:induction false} StringCompareOrder(a: string, b: string)
    ensures StringCompare(a, b) == -StringCompare(b, a)
    ensures StringCompare(a, b) == 0 <==> a == b
  {
    if a != [] && b != [] && a[0] == b[0] {
      StringCompareOrder(a[1..], b[1..]);
      if a[1..] == b[1..] {
        assert a == [a[0]] + a[1..] && b == [b[0]] + b[1..];
      }
    }
  }

  /** A proper prefix comes first. */
  lemma {:induction false} PrefixComesFirst(a: string, b: string)
    requires |a| < |b| && a == b[..|a|]
    ensures StringCompare(a, b) < 0
  {
    if a != [] {
      assert a[0] == b[0];
      assert a[1..] == b[1..][..|a| - 1];
      PrefixComesFirst(a[1..], b[1..]);
    }
  }

  lemma UnknownOperatorRule(op: string, l: Value, r: Value)
    requires op != "AND" && op != "OR" && !IsComparison(op) && op != "==" && op != "!="
    requires op != "+" && op != "-" && op != "*" && op != "/"
    ensures ApplyBinary(op, l, r) == Err(RuntimeException("Unknown operator: " + op))
  {
  }

  // ---------------------------------------------------------------------------
  // Statements and blocks

  /** A statement list run in two parts: the second part runs, from the state the first
      left, only when the first completed normally. */
  lemma {:induction false} StatementsAppend(st: State, a: seq<Stmt>, b: seq<Stmt>, i: nat, fuel: nat)
    requires i <= |a|
    ensures ExecStmts(st, a + b, i, fuel) ==
      var (o, st1) := ExecStmts(st, a, i, fuel);
      if o.Err? || o.value.Returning? then (o, st1) else ExecStmts(st1, b, 0, fuel)
    decreases |a| - i
  {
    if i == |a| {
      StatementsShift(st, a, b, 0, fuel);
    } else {
      assert (a + b)[i] == a[i];
      var (o, st1) := ExecStmt(st, a[i], fuel);
      if !(o.Err? || o.value.Returning?) {
        StatementsAppend(st1, a, b, i + 1, fuel);
      }
    }
  }

  /** Running b from position j is running a + b from position |a| + j. */
  lemma {:induction false} StatementsShift(st: State, a: seq<Stmt>, b: seq<Stmt>, j: nat, fuel: nat)
    requires j <= |b|
    ensures ExecStmts(st, a + b, |a| + j, fuel) == ExecStmts(st, b, j, fuel)
    decreases |b| - j
  {
    if j < |b| {
      assert (a + b)[|a| + j] == b[j];
      var (o, st1) := ExecStmt(st, b[j], fuel);
      if !(o.Err? || o.value.Returning?) {
        StatementsShift(st1, a, b, j + 1, fuel);
      }
    }
  }

  /** Nothing after a Return runs. */
  lemma ReturnEndsBlock(st: State, e: Expr, rest: seq<Stmt>, fuel: nat)
    ensures ExecStmts(st, [Return(e)] + rest, 0, fuel) == ExecStmts(st, [Return(e)], 0, fuel)
    ensures EvalExpr(st, e, fuel).0.Ok? ==>
      ExecStmts(st, [Return(e)] + rest, 0, fuel) == (Ok(Returning(EvalExpr(st, e, fuel).0.value)), EvalExpr(st, e, fuel).1)
  {
    StatementsAppend(st, [Return(e)], rest, 0, fuel);
  }

  /** A block's declarations stay visible after it: the block's own scope is created and
      never used, so they go into the interpreter's scope. */
  lemma BlockLeaks(st: State, x: string, lit: Literal, fuel: nat)
    ensures var s := If(Expr.Literal(BoolLit(true), None), [Declaration(x, None, Some(Expr.Literal(lit, None)), None)], []);
      ExecStmt(st, s, fuel) == (Ok(Normal), Define(st, x, LiteralValue(lit))) &&
      LookupVariable(ExecStmt(st, s, fuel).1.scope, x) == Some(LiteralValue(lit))
  {
    var d := Declaration(x, None, Some(Expr.Literal(lit, None)), None);
    var after := Define(st, x, LiteralValue(lit));
    assert ExecStmt(st, d, fuel) == (Ok(Normal), after);
    assert ExecStmts(after, [d], 1, fuel) == (Ok(Normal), after);
    assert ExecStmts(st, [d], 0, fuel) == (Ok(Normal), after);
    DefineThenLookupVariable(st.scope, x, LiteralValue(lit), x);
  }

  /** An assignment without a receiver defines the name in the current scope, whatever an
      enclosing scope binds: the parent is left as it was. */
  lemma AssignmentDefinesHere(st: State, x: string, e: Expr, fuel: nat)
    ensures var r := ExecStmt(st, Assignment(Access(None, x, None), e), fuel);
      EvalExpr(st, e, fuel).0.Ok? ==>
        r.0 == Ok(Normal) && LookupVariable(r.1.scope, x) == Some(EvalExpr(st, e, fuel).0.value) &&
        r.1.scope.parent == st.scope.parent
  {
    var (v, st1) := EvalExpr(st, e, fuel);
    if v.Ok? {
      DefineThenLookupVariable(st1.scope, x, v.value, x);
    }
  }

  /** In this model, where no value is an Iterable, a for loop always fails once its
      iterable is computed. */
  lemma ForFails(st: State, x: string, it: Expr, body: seq<Stmt>, fuel: nat)
    ensures ExecStmt(st, For(x, it, body), fuel).0.Err?
  {
  }

  /** A false condition ends a while loop at once. */
  lemma WhileFalse(st: State, body: seq<Stmt>, fuel: nat)
    ensures ExecStmt(st, While(Expr.Literal(BoolLit(false), None), body), fuel) == (Ok(Normal), st)
  {
    var s := While(Expr.Literal(BoolLit(false), None), body);
    assert ExecStmt(st, s, fuel) == ExecWhile(st, s, fuel);
  }

  /** `WHILE TRUE DO END` runs out of fuel, whatever the fuel. */
  lemma {:induction false} EndlessLoop(st: State, fuel: nat)
    ensures ExecWhile(st, While(Expr.Literal(BoolLit(true), None), []), fuel) == (Err(OutOfFuel), st)
  {
    if fuel > 0 {
      EndlessLoop(st, fuel - 1);
    }
  }

  /** A non-Boolean condition is an error. */
  lemma ConditionMustBeBoolean(st: State, c: Expr, thens: seq<Stmt>, elses: seq<Stmt>, fuel: nat)
    ensures var cv := EvalExpr(st, c, fuel).0;
      cv.Ok? && !cv.value.BoolV? ==>
        ExecStmt(st, If(c, thens, elses), fuel) == (Err(TypeError(BooleanClass, cv.value)), EvalExpr(st, c, fuel).1) &&
        ExecStmt(st, While(c, thens), fuel) == (Err(TypeError(BooleanClass, cv.value)), EvalExpr(st, c, fuel).1)
  {
    assert ExecStmt(st, While(c, thens), fuel) == ExecWhile(st, While(c, thens), fuel);
  }

  // ---------------------------------------------------------------------------
  // Calls

  /** The arguments are evaluated before the receiver: when one fails the receiver is
      never evaluated. In this model, where no value is a Scope, a call with a receiver
      always fails. */
  lemma ArgumentsBeforeReceiver(st: State, rc: Expr, name: string, args: seq<Expr>, slot: Option<Function>, fuel: nat)
    ensures var a := EvalArgs(st, args, 0, [], fuel);
      a.0.Err? ==> EvalExpr(st, Call(Some(rc), name, args, slot), fuel) == (Err(a.0.error), a.1)
    ensures var a := EvalArgs(st, args, 0, [], fuel);
      a.0.Ok? ==> EvalExpr(st, Call(Some(rc), name, args, slot), fuel).1 == EvalExpr(a.1, rc, fuel).1
    ensures EvalExpr(st, Call(Some(rc), name, args, slot), fuel).0.Err?
  {
  }

  /** A call without a receiver finds its function by name and argument count. */
  lemma CallByNameAndCount(st: State, name: string, args: seq<Expr>, slot: Option<Function>, fuel: nat)
    ensures var a := EvalArgs(st, args, 0, [], fuel);
      a.0.Ok? && LookupFunction(a.1.scope, name, |args|).None? ==>
        EvalExpr(st, Call(None, name, args, slot), fuel) == (Err(UndefinedFunction(name, |args|)), a.1)
    ensures var a := EvalArgs(st, args, 0, [], fuel);
      a.0.Ok? && LookupFunction(a.1.scope, name, |args|).Some? ==>
        |a.0.value| == |args| &&
        EvalExpr(st, Call(None, name, args, slot), fuel) == Invocation(a.1, LookupFunction(a.1.scope, name, |args|).value, a.0.value, fuel)
  {
    ArgumentsCount(st, args, 0, [], fuel);
  }

  lemma {:induction false} ArgumentsCount(st: State, args: seq<Expr>, i: nat, acc: seq<Value>, fuel: nat)
    requires i <= |args|
    ensures EvalArgs(st, args, i, acc, fuel).0.Ok? ==> |EvalArgs(st, args, i, acc, fuel).0.value| == |acc| + |args| - i
    decreases |args| - i
  {
    if i < |args| {
      var (v, st1) := EvalExpr(st, args[i], fuel);
      if v.Ok? {
        ArgumentsCount(st1, args, i + 1, acc + [v.value], fuel);
      }
    }
  }

  /** print writes its argument's display string as one line and yields Nil; a null
      prints as "null". */
  lemma PrintWrites(st: State, lit: Literal, fuel: nat)
    requires LookupFunction(st.scope, "print", 1) == Some(Print)
    ensures EvalExpr(st, Call(None, "print", [Expr.Literal(lit, None)], None), fuel) ==
      (Ok(NilV), st.(output := st.output + [PrintText(LiteralValue(lit))]))
    ensures lit == NullLit ==> PrintText(LiteralValue(lit)) == "null"
    ensures lit.StrLit? ==> PrintText(LiteralValue(lit)) == lit.s
  {
    var v := LiteralValue(lit);
    assert [] + [v] == [v];
    assert EvalArgs(st, [Expr.Literal(lit, None)], 1, [v], fuel) == (Ok([v]), st);
    assert EvalArgs(st, [Expr.Literal(lit, None)], 0, [], fuel) == (Ok([v]), st);
  }

  /** The interpreter starts with print/1 bound in its own scope. */
  lemma PrintBound(parent: IScope)
    ensures LookupFunction(DefineFunction(Child(parent), "print", 1, Print), "print", 1) == Some(Print)
  {
    DefineThenLookupFunction(Child(parent), "print", 1, Print, "print", 1);
  }

  /** A method yields the value its body returns, and Nil when the body just ends. */
  lemma MethodResult(st: State, m: Method, args: seq<Value>, fuel: nat)
    requires |args| >= |m.parameters| && fuel > 0
    ensures var body := ExecStmts(st, m.statements, 0, fuel - 1);
      body.0.Ok? ==>
        Invocation(st, Closure(m), args, fuel) ==
        (Ok(if body.0.value.Returning? then body.0.value.value else NilV), body.1)
    ensures var body := ExecStmts(st, m.statements, 0, fuel - 1);
      body.0.Err? ==> Invocation(st, Closure(m), args, fuel) == (Err(body.0.error), body.1)
    ensures m.statements == [] ==> Invocation(st, Closure(m), args, fuel) == (Ok(NilV), st)
  {
  }

  /** Parameters are bound in a scope the body never reads: `DEF f(x) DO RETURN x; END`
      called as f(v), with no x in the interpreter's scope, fails to find x. */
  lemma ParametersUnbound(st: State, x: string, v: Value, fuel: nat)
    requires LookupVariable(st.scope, x).None? && fuel > 0
    ensures var m := Method("f", [x], [], None, [Return(Access(None, x, None))], None);
      Invocation(st, Closure(m), [v], fuel) == (Err(UndefinedVariable(x)), st)
  {
    var ret := Return(Access(None, x, None));
    assert EvalExpr(st, Access(None, x, None), fuel - 1) == (Err(UndefinedVariable(x)), st);
    assert ExecStmt(st, ret, fuel - 1) == (Err(UndefinedVariable(x)), st);
    assert ExecStmts(st, [ret], 0, fuel - 1) == (Err(UndefinedVariable(x)), st);
  }

  /** A source without a main/0 fails after running its fields and defining its methods. */
  lemma MainRequired(st: State, src: Source, fuel: nat)
    ensures var (o, st1) := ExecFields(st, src.fields, 0, fuel);
      var st2 := DefineMethods(st1, src.methods, 0);
      o.Ok? && LookupFunction(st2.scope, "main", 0).None? ==>
        RunSource(st, src, fuel) == (Err(UndefinedFunction("main", 0)), st2)
  {
  }

  /** A source holding only a parameterless main runs it with no arguments. */
  lemma MainRuns(st: State, m: Method, fuel: nat)
    requires m.name == "main" && m.parameters == []
    ensures RunSource(st, Source([], [m]), fuel) == Invocation(DefineMethod(st, m), Closure(m), [], fuel)
  {
    var st2 := DefineMethod(st, m);
    assert DefineMethods(st, [m], 0) == st2;
    DefineThenLookupFunction(st.scope, "main", 0, Closure(m), "main", 0);
  }

  // ---------------------------------------------------------------------------
  // Fuel: a result other than OutOfFuel is the result for every larger bound, so the
  // bound only decides how long the evaluator looks, never what a finished run yields.

  lemma {:induction false} EvalExprFuel(st: State, e: Expr, f: nat, g: nat)
    requires f <= g
    ensures EvalExpr(st, e, f).0 != Err(OutOfFuel) ==> EvalExpr(st, e, g) == EvalExpr(st, e, f)
    decreases f, ExprSize(e), 1, 0
  {
    if EvalExpr(st, e, f).0 != Err(OutOfFuel) {
      match e
      case Literal(_, _) =>
      case Group(inner, _) => EvalExprFuel(st, inner, f, g);
      case Binary(_, left, right, _) =>
        EvalExprFuel(st, left, f, g);
        var (lv, st1) := EvalExpr(st, left, f);
        if lv.Ok? {
          EvalExprFuel(st1, right, f, g);
        }
      case Access(receiver, _, _) =>
        if receiver.Some? {
          EvalExprFuel(st, receiver.value, f, g);
        }
      case Call(receiver, name, args, _) =>
        EvalArgsFuel(st, args, 0, [], f, g);
        var (avs, st1) := EvalArgs(st, args, 0, [], f);
        if avs.Ok? {
          if receiver.Some? {
            EvalExprFuel(st1, receiver.value, f, g);
          } else if LookupFunction(st1.scope, name, |args|).Some? {
            InvocationFuel(st1, LookupFunction(st1.scope, name, |args|).value, avs.value, f, g);
          }
        }
    }
  }

  lemma {:induction false} EvalArgsFuel(st: State, args: seq<Expr>, i: nat, acc: seq<Value>, f: nat, g: nat)
    requires i <= |args| && f <= g
    ensures EvalArgs(st, args, i, acc, f).0 != Err(OutOfFuel) ==> EvalArgs(st, args, i, acc, g) == EvalArgs(st, args, i, acc, f)
    decreases f, ExprsSize(args), 2, |args| - i
  {
    if i < |args| && EvalArgs(st, args, i, acc, f).0 != Err(OutOfFuel) {
      ExprsSizeElement(args, i);
      EvalExprFuel(st, args[i], f, g);
      var (v, st1) := EvalExpr(st, args[i], f);
      if v.Ok? {
        EvalArgsFuel(st1, args, i + 1, acc + [v.value], f, g);
      }
    }
  }

  lemma {:induction false} InvocationFuel(st: State, fn: Callable, args: seq<Value>, f: nat, g: nat)
    requires f <= g
    ensures Invocation(st, fn, args, f).0 != Err(OutOfFuel) ==> Invocation(st, fn, args, g) == Invocation(st, fn, args, f)
    decreases f, 0, 0, 0
  {
    if fn.Closure? && |args| >= |fn.m.parameters| && f > 0 {
      ExecStmtsFuel(st, fn.m.statements, 0, f - 1, g - 1);
    }
  }

  lemma {:induction false} ExecStmtFuel(st: State, s: Stmt, f: nat, g: nat)
    requires f <= g
    ensures ExecStmt(st, s, f).0 != Err(OutOfFuel) ==> ExecStmt(st, s, g) == ExecStmt(st, s, f)
    decreases f, StmtSize(s), 2, 0
  {
    if ExecStmt(st, s, f).0 != Err(OutOfFuel) {
      match s
      case Expression(e) => EvalExprFuel(st, e, f, g);
      case Declaration(_, _, init, _) =>
        if init.Some? {
          EvalExprFuel(st, init.value, f, g);
        }
      case Assignment(target, value) =>
        if target.Access? {
          EvalExprFuel(st, value, f, g);
          var (v, st1) := EvalExpr(st, value, f);
          if v.Ok? && target.receiver.Some? {
            EvalExprFuel(st1, target.receiver.value, f, g);
          }
        }
      case If(c, thens, elses) =>
        EvalExprFuel(st, c, f, g);
        var (cv, st1) := EvalExpr(st, c, f);
        if cv.Ok? && cv.value.BoolV? {
          ExecStmtsFuel(st1, thens, 0, f, g);
          ExecStmtsFuel(st1, elses, 0, f, g);
        }
      case For(_, it, _) => EvalExprFuel(st, it, f, g);
      case While(_, _) => ExecWhileFuel(st, s, f, g);
      case Return(value) => EvalExprFuel(st, value, f, g);
    }
  }

  lemma {:induction false} ExecStmtsFuel(st: State, ss: seq<Stmt>, i: nat, f: nat, g: nat)
    requires i <= |ss| && f <= g
    ensures ExecStmts(st, ss, i, f).0 != Err(OutOfFuel) ==> ExecStmts(st, ss, i, g) == ExecStmts(st, ss, i, f)
    decreases f, StmtsSize(ss), 3, |ss| - i
  {
    if i < |ss| && ExecStmts(st, ss, i, f).0 != Err(OutOfFuel) {
      StmtsSizeElement(ss, i);
      ExecStmtFuel(st, ss[i], f, g);
      var (o, st1) := ExecStmt(st, ss[i], f);
      if o.Ok? && o.value.Normal? {
        ExecStmtsFuel(st1, ss, i + 1, f, g);
      }
    }
  }

  lemma {:induction false} ExecWhileFuel(st: State, s: Stmt, f: nat, g: nat)
    requires s.While? && f <= g
    ensures ExecWhile(st, s, f).0 != Err(OutOfFuel) ==> ExecWhile(st, s, g) == ExecWhile(st, s, f)
    decreases f, StmtSize(s), 1, 0
  {
    if ExecWhile(st, s, f).0 != Err(OutOfFuel) {
      EvalExprFuel(st, s.condition, f, g);
      var (cv, st1) := EvalExpr(st, s.condition, f);
      if cv.Ok? && cv.value.BoolV? && cv.value.b {
        ExecStmtsFuel(st1, s.statements, 0, f, g);
        var (o, st2) := ExecStmts(st1, s.statements, 0, f);
        if o.Ok? && o.value.Normal? && f > 0 {
          ExecWhileFuel(st2, s, f - 1, g - 1);
        }
      }
    }
  }

  lemma {:induction false} ExecFieldsFuel(st: State, fs: seq<Field>, i: nat, f: nat, g: nat)
    requires i <= |fs| && f <= g
    ensures ExecFields(st, fs, i, f).0 != Err(OutOfFuel) ==> ExecFields(st, fs, i, g) == ExecFields(st, fs, i, f)
    decreases |fs| - i
  {
    if i < |fs| && ExecFields(st, fs, i, f).0 != Err(OutOfFuel) {
      if fs[i].initializer.Some? {
        EvalExprFuel(st, fs[i].initializer.value, f, g);
      }
      var (o, st1) := ExecField(st, fs[i], f);
      if o.Ok? {
        ExecFieldsFuel(st1, fs, i + 1, f, g);
      }
    }
  }

  /** A program that finishes within some bound finishes the same way within any larger one. */
  lemma RunSourceFuel(st: State, src: Source, f: nat, g: nat)
    requires f <= g
    ensures RunSource(st, src, f).0 != Err(OutOfFuel) ==> RunSource(st, src, g) == RunSource(st, src, f)
  {
    ExecFieldsFuel(st, src.fields, 0, f, g);
    var (o, st1) := ExecFields(st, src.fields, 0, f);
    var st2 := DefineMethods(st1, src.methods, 0);
    if o.Ok? && LookupFunction(st2.scope, "main", 0).Some? {
      InvocationFuel(st2, LookupFunction(st2.scope, "main", 0).value, [], f, g);
    }
  }
}
