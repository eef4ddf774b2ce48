/**
 * Properties of the analysis of Analyzer.java, stated over the spec functions of module
 * Analysis (which the Analyzer class is proved to follow).
 */
module AnalysisProperties {
  import opened Wrappers
  import opened Numbers
  import opened Ast
  import opened Scopes
  import opened Analysis

  // ---------------------------------------------------------------------------
  // requireAssignable

  /** Assignability is a partial order: Any is above everything, Comparable above the
      four comparable types, and every other type only above itself. */
  lemma AssignableOrder(a: Type, b: Type, c: Type)
    ensures Assignable(a, a)
    ensures Assignable(a, b) && Assignable(b, c) ==> Assignable(a, c)
    ensures Assignable(a, b) && Assignable(b, a) ==> a == b
  {
  }

  /** A Boolean target, or any target other than Any and Comparable, takes only itself. */
  lemma ExactTargets(target: Type, ty: Type)
    requires target != ANY && target != COMPARABLE
    ensures Assignable(target, ty) <==> ty == target
  {
  }

  // ---------------------------------------------------------------------------
  // Literals

  /** Literal typing by the class of the value; an Integer must fit in an int, and a
      Decimal must have a finite double value. */
  lemma LiteralTyping(lit: Literal)
    ensures lit.NullLit? ==> LiteralType(lit) == Ok(NIL)
    ensures lit.BoolLit? ==> LiteralType(lit) == Ok(BOOLEAN)
    ensures lit.CharLit? ==> LiteralType(lit) == Ok(Type.CHARACTER)
    ensures lit.StrLit? ==> LiteralType(lit) == Ok(Type.STRING)
    ensures lit.IntLit? ==> (LiteralType(lit) == Ok(Type.INTEGER) <==> -0x8000_0000 <= lit.i <= 0x7FFF_FFFF)
    ensures lit.IntLit? ==> (LiteralType(lit).Err? <==> lit.i < -0x8000_0000 || lit.i > 0x7FFF_FFFF)
    ensures lit.DecLit? ==> (LiteralType(lit) == Ok(Type.DECIMAL) <==> !DoubleOverflows(lit.d))
  {
  }

  /** The bounds of the int range are accepted, one past them is refused. */
  lemma IntRangeEdges()
    ensures LiteralType(IntLit(2147483647)) == Ok(Type.INTEGER)
    ensures LiteralType(IntLit(-2147483648)) == Ok(Type.INTEGER)
    ensures LiteralType(IntLit(2147483648)) == Err(SemanticError("Integer literal out of range."))
    ensures LiteralType(IntLit(-2147483649)) == Err(SemanticError("Integer literal out of range."))
  {
  }

  // ---------------------------------------------------------------------------
  // Binary operators

  /** AND and OR need two Booleans; the left operand is checked first. */
  lemma LogicalRule(op: string, lt: Type, rt: Type)
    requires op == "AND" || op == "OR"
    ensures BinaryType(op, lt, rt) ==
      if lt != BOOLEAN then Err(NotAssignable(BOOLEAN, lt))
      else if rt != BOOLEAN then Err(NotAssignable(BOOLEAN, rt))
      else Ok(BOOLEAN)
  {
  }

  /** A comparison needs the right operand assignable to the left and the left type to be
      exactly Comparable; it is Boolean. */
  lemma ComparisonRule(op: string, lt: Type, rt: Type)
    requires IsComparison(op)
    ensures BinaryType(op, lt, rt).Ok? <==> lt == COMPARABLE && (rt == COMPARABLE || IsComparableType(rt))
    ensures BinaryType(op, lt, rt).Ok? ==> BinaryType(op, lt, rt).value == BOOLEAN
  {
  }

  /** So two Integer operands can never be compared or checked for equality. */
  lemma IntegersNotComparable(op: string)
    requires IsComparison(op)
    ensures BinaryType(op, Type.INTEGER, Type.INTEGER) == Err(SemanticError("Operands must be comparable."))
  {
  }

  /** `+` is String concatenation when either side is a String, and otherwise needs the
      right operand assignable to the left and has the left type. */
  lemma PlusRule(lt: Type, rt: Type)
    ensures BinaryType("+", lt, rt).Ok? <==> lt == Type.STRING || rt == Type.STRING || Assignable(lt, rt)
    ensures BinaryType("+", lt, rt).Ok? ==>
      BinaryType("+", lt, rt).value == if lt == Type.STRING || rt == Type.STRING then Type.STRING else lt
  {
  }

  lemma ArithmeticRule(op: string, lt: Type, rt: Type)
    requires op == "-" || op == "*" || op == "/"
    ensures BinaryType(op, lt, rt).Ok? <==> Assignable(lt, rt)
    ensures BinaryType(op, lt, rt).Ok? ==> BinaryType(op, lt, rt).value == lt
  {
  }

  lemma UnknownOperator(op: string, lt: Type, rt: Type)
    requires op != "AND" && op != "OR" && !IsComparison(op) && op != "+" && op != "-" && op != "*" && op != "/"
    ensures BinaryType(op, lt, rt) == Err(SemanticError("Unknown binary operator."))
  {
  }

  // ---------------------------------------------------------------------------
  // Expressions: only the resolution slots change

  /** An expression with its resolution slots cleared. */
  function Strip(e: Expr): Expr
    decreases e
  {
    match e
    case Literal(lit, _) => Expr.Literal(lit, None)
    case Group(x, _) => Group(Strip(x), None)
    case Binary(op, l, r, _) => Binary(op, Strip(l), Strip(r), None)
    case Access(rc, name, _) => Access(if rc.Some? then Some(Strip(rc.value)) else None, name, None)
    case Call(rc, name, args, _) =>
      Call(if rc.Some? then Some(Strip(rc.value)) else None, name, seq(|args|, k requires 0 <= k < |args| => Strip(args[k])), None)
  }

  /** Analysis fills in the slots and changes nothing else in the tree. */
  lemma {:induction false} AnalysisOnlyAnnotates(env: TypeEnv, sc: AScope, e: Expr)
    ensures AExpr(env, sc, e).Ok? ==> Strip(AExpr(env, sc, e).value) == Strip(e)
    decreases ExprSize(e), 1
  {
    match e
    case Literal(_, _) =>
    case Group(inner, _) => AnalysisOnlyAnnotates(env, sc, inner);
    case Binary(_, l, r, _) =>
      AnalysisOnlyAnnotates(env, sc, l);
      AnalysisOnlyAnnotates(env, sc, r);
    case Access(rc, _, _) =>
      if rc.Some? {
        AnalysisOnlyAnnotates(env, sc, rc.value);
      }
    case Call(rc, name, args, _) =>
      if rc.Some? {
        AnalysisOnlyAnnotates(env, sc, rc.value);
      }
      match ACallee(env, sc, rc, name, |args|)
      case Err(_) =>
      case Ok((a, f)) =>
        ArgumentsChecked(env, sc, args, f.parameterTypes, 0, []);
        match AArguments(env, sc, args, f.parameterTypes, 0, [])
        case Err(_) =>
        case Ok(aargs) =>
          var stripped := seq(|aargs|, k requires 0 <= k < |aargs| => Strip(aargs[k]));
          assert stripped == seq(|args|, k requires 0 <= k < |args| => Strip(args[k]));
    }

  /** The argument loop: every argument is analysed, has a parameter type, and is
      assignable to it; there may be more parameter types than arguments, not fewer. */
  lemma {:induction false} ArgumentsChecked(env: TypeEnv, sc: AScope, args: seq<Expr>, params: seq<Type>, i: nat, acc: seq<Expr>)
    requires i <= |args| && |acc| == i
    ensures var r := AArguments(env, sc, args, params, i, acc);
      r.Ok? ==>
        |r.value| == |args| && r.value[..i] == acc && (i < |args| ==> |args| <= |params|) &&
        forall k :: i <= k < |args| ==>
          TypeOf(r.value[k]).Some? && Assignable(params[k], TypeOf(r.value[k]).value) &&
          Strip(r.value[k]) == Strip(args[k])
    decreases ExprsSize(args), 2, |args| - i
  {
    if i < |args| {
      ExprsSizeElement(args, i);
      AnalysisOnlyAnnotates(env, sc, args[i]);
      match AExpr(env, sc, args[i])
      case Err(_) =>
      case Ok(a) =>
        if i < |params| && RequireAssignable(params[i], TypeOf(a).value).Ok? {
          ArgumentsChecked(env, sc, args, params, i + 1, acc + [a]);
          var r := AArguments(env, sc, args, params, i + 1, acc + [a]);
          assert AArguments(env, sc, args, params, i, acc) == r;
          if r.Ok? {
            assert r.value[..i] == r.value[..i + 1][..i] == acc;
            assert r.value[i] == r.value[..i + 1][i] == a;
            assert Assignable(params[i], TypeOf(a).value);
            assert Strip(r.value[i]) == Strip(args[i]);
            assert TypeOf(r.value[i]).Some?;
          }
        }
    }
  }

  /** Analysis reads no resolution slot: expressions equal up to their slots analyse alike. */
  lemma {:induction false} SlotsIgnored(env: TypeEnv, sc: AScope, e1: Expr, e2: Expr)
    requires Strip(e1) == Strip(e2)
    ensures AExpr(env, sc, e1) == AExpr(env, sc, e2)
    decreases ExprSize(e1), 1
  {
    match e1
    case Literal(_, _) =>
    case Group(x, _) => SlotsIgnored(env, sc, x, e2.expr);
    case Binary(_, l, r, _) =>
      SlotsIgnored(env, sc, l, e2.left);
      SlotsIgnored(env, sc, r, e2.right);
    case Access(rc, _, _) =>
      if rc.Some? {
        SlotsIgnored(env, sc, rc.value, e2.receiver.value);
      }
    case Call(rc, name, args, _) =>
      if rc.Some? {
        SlotsIgnored(env, sc, rc.value, e2.receiver.value);
      }
      var args2 := e2.arguments;
      assert |args| == |args2| && forall k :: 0 <= k < |args| ==> Strip(args[k]) == Strip(args2[k]) by {
        var s1 := seq(|args|, k requires 0 <= k < |args| => Strip(args[k]));
        var s2 := seq(|args2|, k requires 0 <= k < |args2| => Strip(args2[k]));
        assert s1 == s2;
        forall k | 0 <= k < |args|
          ensures Strip(args[k]) == Strip(args2[k])
        {
          assert s1[k] == s2[k];
        }
      }
      assert ACallee(env, sc, rc, name, |args|) == ACallee(env, sc, e2.receiver, name, |args2|);
      match ACallee(env, sc, rc, name, |args|)
      case Err(_) =>
      case Ok((_, f)) => ArgumentsSlotsIgnored(env, sc, args, args2, f.parameterTypes, 0, []);
  }

  lemma {:induction false} ArgumentsSlotsIgnored(env: TypeEnv, sc: AScope, args: seq<Expr>, args2: seq<Expr>, params: seq<Type>, i: nat, acc: seq<Expr>)
    requires i <= |args| == |args2|
    requires forall k :: 0 <= k < |args| ==> Strip(args[k]) == Strip(args2[k])
    ensures AArguments(env, sc, args, params, i, acc) == AArguments(env, sc, args2, params, i, acc)
    decreases ExprsSize(args), 2, |args| - i
  {
    if i < |args| {
      ExprsSizeElement(args, i);
      SlotsIgnored(env, sc, args[i], args2[i]);
      match AExpr(env, sc, args[i])
      case Err(_) =>
      case Ok(a) => ArgumentsSlotsIgnored(env, sc, args, args2, params, i + 1, acc + [a]);
    }
  }

  /** Analysing an analysed expression again, in the same scope, gives the same result. */
  lemma AnalysisIdempotent(env: TypeEnv, sc: AScope, e: Expr)
    ensures AExpr(env, sc, e).Ok? ==> AExpr(env, sc, AExpr(env, sc, e).value) == AExpr(env, sc, e)
  {
    AnalysisOnlyAnnotates(env, sc, e);
    if AExpr(env, sc, e).Ok? {
      SlotsIgnored(env, sc, AExpr(env, sc, e).value, e);
    }
  }

  /** A call without a receiver resolves by name and argument count in the scope chain,
      and each argument is assignable to its parameter type. */
  lemma CallChecked(env: TypeEnv, sc: AScope, name: string, args: seq<Expr>, slot: Option<Function>)
    ensures var r := AExpr(env, sc, Call(None, name, args, slot));
      r.Ok? ==>
        LookupFunction(sc, name, |args|).Some? && r.value.func == LookupFunction(sc, name, |args|) &&
        |args| <= |LookupFunction(sc, name, |args|).value.parameterTypes| &&
        forall k :: 0 <= k < |args| ==>
          TypeOf(r.value.arguments[k]).Some? &&
          Assignable(LookupFunction(sc, name, |args|).value.parameterTypes[k], TypeOf(r.value.arguments[k]).value)
  {
    match LookupFunction(sc, name, |args|)
    case None =>
    case Some(f) =>
      ArgumentsChecked(env, sc, args, f.parameterTypes, 0, []);
      var ra := AArguments(env, sc, args, f.parameterTypes, 0, []);
      if ra.Ok? {
        assert AExpr(env, sc, Call(None, name, args, slot)) == Ok(Call(None, name, ra.value, Some(f)));
      }
  }

  /** A variable access without a receiver has the type of the variable the scope chain
      binds, and fails exactly when the name is bound nowhere in it. */
  lemma AccessResolved(env: TypeEnv, sc: AScope, name: string, slot: Option<Variable>)
    ensures AExpr(env, sc, Access(None, name, slot)).Ok? <==> BoundInChain(sc, name)
    ensures AExpr(env, sc, Access(None, name, slot)).Ok? ==>
      AExpr(env, sc, Access(None, name, slot)).value.variable == LookupVariable(sc, name)
  {
  }

  // ---------------------------------------------------------------------------
  // Statements

  /** Only a declaration changes the scope; every other statement leaves the scope it
      started in, because each push is matched by a pop. */
  lemma {:induction false} ScopeRestored(env: TypeEnv, sc: AScope, s: Stmt)
    requires !s.Declaration?
    ensures AStmt(env, sc, s).Ok? ==> AStmt(env, sc, s).value.1 == sc
  {
    match s
    case Expression(_) =>
    case Assignment(_, _) =>
    case Return(_) =>
    case If(c, thens, elses) =>
      var ac := AExpr(env, sc, c);
      if ac.Ok? && RequireAssignable(BOOLEAN, TypeOf(ac.value).value).Ok? && thens != [] {
        var rt := AStmts(env, Child(sc), thens, 0, []);
        if rt.Ok? {
          assert Pop(rt.value.1) == sc;
          var re := AStmts(env, Child(sc), elses, 0, []);
          if elses != [] && re.Ok? {
            assert Pop(re.value.1) == sc;
          }
        }
      }
    case For(name, it, body) =>
      var ai := AExpr(env, sc, it);
      if ai.Ok? && RequireAssignable(INTEGER_ITERABLE, TypeOf(ai.value).value).Ok? && body != [] {
        var inner := DefineVariable(Child(sc), name, Variable(name, name, Type.INTEGER));
        var rb := AStmts(env, inner, body, 0, []);
        if rb.Ok? {
          assert Pop(rb.value.1) == sc;
        }
      }
    case While(c, body) =>
      var ac := AExpr(env, sc, c);
      if ac.Ok? && RequireAssignable(BOOLEAN, TypeOf(ac.value).value).Ok? {
        var rb := AStmts(env, Child(sc), body, 0, []);
        if rb.Ok? {
          assert Pop(rb.value.1) == sc;
        }
      }
  }

  /** The rules of a declaration: a type name or an initializer is needed; without a type
      name the variable takes the initializer's type; with both the initializer must be
      assignable; and the variable is then bound in the current scope. */
  lemma DeclarationRules(env: TypeEnv, sc: AScope, name: string, tn: Option<string>, init: Option<Expr>, slot: Option<Variable>)
    ensures var r := AStmt(env, sc, Declaration(name, tn, init, slot));
      tn.None? && init.None? ==> r == Err(SemanticError("Declaration must have a type or an initial value."))
    ensures var r := AStmt(env, sc, Declaration(name, tn, init, slot));
      tn.None? && init.Some? && r.Ok? ==>
        AExpr(env, sc, init.value).Ok? &&
        r.value.0.variable == Some(Variable(name, name, TypeOf(AExpr(env, sc, init.value).value).value))
    ensures var r := AStmt(env, sc, Declaration(name, tn, init, slot));
      tn.Some? && init.Some? && r.Ok? ==>
        GetType(env, tn).Ok? && AExpr(env, sc, init.value).Ok? &&
        Assignable(GetType(env, tn).value, TypeOf(AExpr(env, sc, init.value).value).value) &&
        r.value.0.variable == Some(Variable(name, name, GetType(env, tn).value))
    ensures var r := AStmt(env, sc, Declaration(name, tn, init, slot));
      r.Ok? ==> r.value.0.variable.Some? && LookupVariable(r.value.1, name) == r.value.0.variable
  {
  }

  /** The shape checks of the statement visits. */
  lemma StatementChecks(env: TypeEnv, sc: AScope, s: Stmt)
    ensures s.Expression? && AStmt(env, sc, s).Ok? ==> s.expr.Call?
    ensures s.Assignment? && AStmt(env, sc, s).Ok? ==> s.receiver.Access?
    ensures s.If? && AStmt(env, sc, s).Ok? ==>
      s.thenStatements != [] && AExpr(env, sc, s.condition).Ok? && TypeOf(AExpr(env, sc, s.condition).value) == Some(BOOLEAN)
    ensures s.For? && AStmt(env, sc, s).Ok? ==>
      s.statements != [] && AExpr(env, sc, s.iterable).Ok? && TypeOf(AExpr(env, sc, s.iterable).value) == Some(INTEGER_ITERABLE)
    ensures s.While? && AStmt(env, sc, s).Ok? ==>
      AExpr(env, sc, s.condition).Ok? && TypeOf(AExpr(env, sc, s.condition).value) == Some(BOOLEAN)
  {
    match s
    case Expression(e) => AnalysisOnlyAnnotates(env, sc, e);
    case Assignment(rc, _) => AnalysisOnlyAnnotates(env, sc, rc);
    case Declaration(_, _, _, _) =>
    case Return(_) =>
    case If(c, thens, _) =>
      var ac := AExpr(env, sc, c);
      if ac.Err? {
        assert AIf(env, sc, s).Err?;
      } else {
        ExactTargets(BOOLEAN, TypeOf(ac.value).value);
        if TypeOf(ac.value).value != BOOLEAN || thens == [] {
          assert AIf(env, sc, s).Err?;
        }
      }
    case For(_, it, body) =>
      var ai := AExpr(env, sc, it);
      if ai.Err? {
        assert AFor(env, sc, s).Err?;
      } else {
        ExactTargets(INTEGER_ITERABLE, TypeOf(ai.value).value);
        if TypeOf(ai.value).value != INTEGER_ITERABLE || body == [] {
          assert AFor(env, sc, s).Err?;
        }
      }
    case While(c, _) =>
      var ac := AExpr(env, sc, c);
      if ac.Err? {
        assert AWhile(env, sc, s).Err?;
      } else {
        ExactTargets(BOOLEAN, TypeOf(ac.value).value);
        if TypeOf(ac.value).value != BOOLEAN {
          assert AWhile(env, sc, s).Err?;
        }
      }
  }

  /** A return statement reads its target type from a variable of the scope chain, which
      must therefore be bound there. */
  lemma ReturnNeedsBinding(env: TypeEnv, sc: AScope, v: Expr)
    ensures AStmt(env, sc, Return(v)).Ok? ==>
      LookupVariable(sc, ReturnTypeName).Some? && AExpr(env, sc, v).Ok? &&
      Assignable(LookupVariable(sc, ReturnTypeName).value.ty, TypeOf(AExpr(env, sc, v).value).value)
  {
  }

  // ---------------------------------------------------------------------------
  // Methods and the source

  /** A method is defined in the enclosing scope under its name and the number of its
      parameter types, with a Nil return type when it names none; its own child scope is
      popped afterwards. */
  lemma MethodDefined(env: TypeEnv, sc: AScope, m: Method)
    ensures var r := AMethod(env, sc, m);
      r.Ok? ==>
        r.value.0.func.Some? &&
        r.value.1 == DefineFunction(sc, m.name, |m.parameterTypeNames|, r.value.0.func.value) &&
        (m.returnTypeName.None? ==> r.value.0.func.value.returnType == NIL)
  {
    match ParameterTypes(env, m.parameterTypeNames)
    case Err(_) =>
    case Ok(pts) =>
      match ReturnType(env, m)
      case Err(_) =>
      case Ok(rt) =>
        var f := Function(m.name, m.name, pts, rt);
        var outer := DefineFunction(sc, m.name, |pts|, f);
        var body := DefineFunction(Child(outer), "print", 1, PrintFunction);
        match BindParameters(body, m.parameters, pts, 0)
        case Err(_) =>
        case Ok(inner) =>
          match AStmts(env, inner, m.statements, 0, [])
          case Err(_) =>
          case Ok((_, after)) =>
            assert Pop(after) == outer;
  }

  /** A method with more parameters than parameter types fails once its function is
      defined: the parameter loop reads a type that is not there. */
  lemma MissingParameterTypes(env: TypeEnv, sc: AScope, m: Method)
    requires |m.parameters| > 0 && m.parameterTypeNames == []
    ensures ReturnType(env, m).Ok? ==> AMethod(env, sc, m) == Err(IndexOutOfBounds)
    ensures ReturnType(env, m).Err? ==> AMethod(env, sc, m) == Err(ReturnType(env, m).error)
  {
  }

  /** A successful analysis leaves main/0 bound to a function returning Integer. */
  lemma MainChecked(env: TypeEnv, sc: AScope, src: Source)
    ensures ASource(env, sc, src).Ok? ==>
      LookupFunction(ASource(env, sc, src).value.1, "main", 0).Some? &&
      LookupFunction(ASource(env, sc, src).value.1, "main", 0).value.returnType == Type.INTEGER
  {
  }

  /** A source holding only `main` with no parameters and no return type name is refused:
      its function is defined with a Nil return type, so the main check fails (if its body
      did not fail first). */
  lemma UntypedMainRejected(env: TypeEnv, sc: AScope, m: Method)
    requires m.name == "main" && m.parameterTypeNames == [] && m.returnTypeName.None?
    ensures ASource(env, sc, Source([], [m])).Err?
  {
    assert AFields(env, sc, [], 0, []) == Ok(([], sc));
    MethodDefined(env, sc, m);
    match AMethod(env, sc, m)
    case Err(_) =>
    case Ok((am, next)) =>
      assert [] + [am] == [am];
      assert AMethods(env, next, [m], 1, [am]) == Ok(([am], next));
      assert AMethods(env, sc, [m], 0, []) == Ok(([am], next));
      DefineThenLookupFunction(sc, "main", 0, am.func.value, "main", 0);
  }

  /** The analyzer starts in a child of the given scope where print/1 is defined. */
  lemma PrintVisible(parent: AScope, name: string, arity: nat)
    ensures LookupFunction(DefineFunction(Child(parent), "print", 1, PrintFunction), "print", 1) == Some(PrintFunction)
    ensures (name, arity) != ("print", 1) ==>
      LookupFunction(DefineFunction(Child(parent), "print", 1, PrintFunction), name, arity) == LookupFunction(parent, name, arity)
  {
    DefineThenLookupFunction(Child(parent), "print", 1, PrintFunction, name, arity);
    ChildLookup(parent, name, arity);
  }
}
