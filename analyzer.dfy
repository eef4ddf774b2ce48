/**
 * Analyzer.java: a single top-down pass that resolves names through a scope chain, checks
 * types with one assignability rule, and fills in the resolution slots of the tree.
 *
 * The spec functions (A*) give, for a scope and a node, the node with its slots filled and
 * the scope afterwards, or the first error. The Analyzer class holds the `scope` field the
 * visits push and pop, and its methods are proved to follow the spec functions. Tree
 * nodes are values here, so "set the slot in place" is "return the node with the slot
 * set".
 *
 * Environment.java and Scope.java are not part of this model. Environment.getType and the
 * member tables behind Type.getField and Type.getMethod are the maps of a TypeEnv; a name
 * that is not in them is an error, as is a lookup that fails in the scope chain.
 */
module Analysis {
  import opened Wrappers
  import opened Numbers
  import opened Ast
  import opened Scopes

  /** The analyzer's scope: names bound to variables and functions. */
  type AScope = Scope<Variable, Function>

  /** The failures of an analysis. SemanticError carries the message of a RuntimeException
      the analyzer throws itself; the others stand for exceptions raised by code that is
      not part of this model (failed lookups, List.get out of range). */
  datatype AnalysisError =
    | SemanticError(message: string)
    | NotAssignable(target: Type, ty: Type)
    | UndefinedVariable(name: string)
    | UndefinedFunction(name: string, arity: nat)
    | UnknownType(typeName: Option<string>)
    | UnknownField(owner: Type, name: string)
    | UnknownMethod(owner: Type, name: string, arity: nat)
    | IndexOutOfBounds

  /** Environment.getType, Type.getField and Type.getMethod as tables. */
  datatype TypeEnv = TypeEnv(
    types: map<string, Type>,
    fields: map<(Type, string), Variable>,
    methods: map<(Type, string, nat), Function>)

  /** Environment.getType: a name the environment does not know, or no name, is refused. */
  function GetType(env: TypeEnv, name: Option<string>): (r: Result<Type, AnalysisError>)
    ensures r.Ok? <==> name.Some? && name.value in env.types
    ensures r.Ok? ==> r.value == env.types[name.value]
  {
    if name.Some? && name.value in env.types then Ok(env.types[name.value]) else Err(UnknownType(name))
  }

  /** The binding the three-argument defineFunction("print", 1, ...) makes: one argument of
      any type, and a Nil result. */
  const PrintFunction: Function := Function("print", "print", [ANY], NIL)

  /** The variable a return statement reads its target type from. */
  const ReturnTypeName: string := "__currentFunctionReturnType"

  // ---------------------------------------------------------------------------
  // requireAssignable

  predicate IsComparableType(t: Type) {
    t == Type.INTEGER || t == Type.DECIMAL || t == Type.CHARACTER || t == Type.STRING
  }

  /** requireAssignable(target, type): throws unless the target is Any, the same type, or
      Comparable and the type is one of the four comparable types. */
  function RequireAssignable(target: Type, ty: Type): (r: Result<(), AnalysisError>)
    ensures r.Ok? <==> target == ANY || target == ty || (target == COMPARABLE && IsComparableType(ty))
    ensures r.Err? ==> r.error == NotAssignable(target, ty)
  {
    if target != ANY && target != ty then
      if target == COMPARABLE then
        if !(ty == Type.INTEGER || ty == Type.DECIMAL || ty == Type.CHARACTER || ty == Type.STRING) then Err(NotAssignable(target, ty))
        else Ok(())
      else Err(NotAssignable(target, ty))
    else Ok(())
  }

  /** Only Any and Comparable accept a type other than their own. */
  predicate Assignable(target: Type, ty: Type)
    ensures Assignable(target, ty) ==> target == ANY || target == COMPARABLE || target == ty
  {
    RequireAssignable(target, ty).Ok?
  }

  // ---------------------------------------------------------------------------
  // Literals and operators

  const IntMin: int := -0x8000_0000
  const IntMax: int := 0x7FFF_FFFF

  /** The type of a literal: by the class of its value, with the int range for integers and
      a finite double value for decimals. */
  function LiteralType(lit: Literal): (r: Result<Type, AnalysisError>)
    ensures r.Err? <==> (lit.IntLit? && (lit.i < IntMin || lit.i > IntMax)) || (lit.DecLit? && DoubleOverflows(lit.d))
    ensures r.Ok? ==> r.value in {NIL, BOOLEAN, Type.CHARACTER, Type.STRING, Type.INTEGER, Type.DECIMAL}
  {
    match lit
    case NullLit => Ok(NIL)
    case BoolLit(_) => Ok(BOOLEAN)
    case CharLit(_) => Ok(Type.CHARACTER)
    case StrLit(_) => Ok(Type.STRING)
    case IntLit(i) =>
      if i < IntMin || i > IntMax then Err(SemanticError("Integer literal out of range.")) else Ok(Type.INTEGER)
    case DecLit(d) =>
      if DoubleOverflows(d) then Err(SemanticError("Decimal literal out of range.")) else Ok(Type.DECIMAL)
  }

  predicate IsComparison(op: string) {
    op == "<" || op == "<=" || op == ">" || op == ">=" || op == "==" || op == "!="
  }

  /** The switch of visit(Binary): the type of `left op right` from the operand types. */
  function BinaryType(op: string, lt: Type, rt: Type): (r: Result<Type, AnalysisError>)
    ensures r.Ok? ==> op in {"AND", "OR", "<", "<=", ">", ">=", "==", "!=", "+", "-", "*", "/"}
    ensures r.Ok? && (op == "AND" || op == "OR" || IsComparison(op)) ==> r.value == BOOLEAN
    ensures r.Ok? && op in {"+", "-", "*", "/"} ==> r.value == Type.STRING || r.value == lt
  {
    if op == "AND" || op == "OR" then
      match RequireAssignable(BOOLEAN, lt)
      case Err(e) => Err(e)
      case Ok(_) =>
        match RequireAssignable(BOOLEAN, rt)
        case Err(e) => Err(e)
        case Ok(_) => Ok(BOOLEAN)
    else if IsComparison(op) then
      match RequireAssignable(lt, rt)
      case Err(e) => Err(e)
      case Ok(_) => if lt != COMPARABLE then Err(SemanticError("Operands must be comparable.")) else Ok(BOOLEAN)
    else if op == "+" then
      if lt == Type.STRING || rt == Type.STRING then Ok(Type.STRING)
      else
        match RequireAssignable(lt, rt)
        case Err(e) => Err(e)
        case Ok(_) => Ok(lt)
    else if op == "-" || op == "*" || op == "/" then
      match RequireAssignable(lt, rt)
      case Err(e) => Err(e)
      case Ok(_) => Ok(lt)
    else Err(SemanticError("Unknown binary operator."))
  }

  // ---------------------------------------------------------------------------
  // Expressions

  /** The analysed expression: every node gets its type, variable or function slot. */
  function AExpr(env: TypeEnv, sc: AScope, e: Expr): (r: Result<Expr, AnalysisError>)
    ensures r.Ok? ==> TypeOf(r.value).Some?
    decreases ExprSize(e), 1
  {
    match e
    case Literal(lit, _) =>
      (match LiteralType(lit)
       case Err(x) => Err(x)
       case Ok(t) => Ok(Expr.Literal(lit, Some(t))))
    case Group(inner, _) =>
      (match AExpr(env, sc, inner)
       case Err(x) => Err(x)
       case Ok(a) => Ok(Group(a, TypeOf(a))))
    case Binary(op, left, right, _) =>
      (match AExpr(env, sc, left)
       case Err(x) => Err(x)
       case Ok(l) =>
         match AExpr(env, sc, right)
         case Err(x) => Err(x)
         case Ok(rr) =>
           match BinaryType(op, TypeOf(l).value, TypeOf(rr).value)
           case Err(x) => Err(x)
           case Ok(t) => Ok(Binary(op, l, rr, Some(t))))
    case Access(receiver, name, _) =>
      if receiver.Some? then
        match AExpr(env, sc, receiver.value)
        case Err(x) => Err(x)
        case Ok(a) =>
          var owner := TypeOf(a).value;
          if (owner, name) in env.fields then Ok(Access(Some(a), name, Some(env.fields[(owner, name)])))
          else Err(UnknownField(owner, name))
      else
        (match LookupVariable(sc, name)
         case None => Err(UndefinedVariable(name))
         case Some(v) => Ok(Access(None, name, Some(v))))
    case Call(receiver, name, args, _) =>
      match ACallee(env, sc, receiver, name, |args|)
      case Err(x) => Err(x)
      case Ok((a, f)) =>
        match AArguments(env, sc, args, f.parameterTypes, 0, [])
        case Err(x) => Err(x)
        case Ok(aargs) => Ok(Call(a, name, aargs, Some(f)))
  }

  /** The function a call resolves to: a method of the receiver's type, or a function of
      the scope chain, by name and argument count. The receiver is analysed first. */
  function ACallee(env: TypeEnv, sc: AScope, receiver: Option<Expr>, name: string, arity: nat): (r: Result<(Option<Expr>, Function), AnalysisError>)
    ensures r.Ok? ==> (receiver.Some? <==> r.value.0.Some?)
    decreases if receiver.Some? then ExprSize(receiver.value) + 1 else 0, 0
  {
    if receiver.Some? then
      match AExpr(env, sc, receiver.value)
      case Err(x) => Err(x)
      case Ok(a) =>
        var owner := TypeOf(a).value;
        if (owner, name, arity) in env.methods then Ok((Some(a), env.methods[(owner, name, arity)]))
        else Err(UnknownMethod(owner, name, arity))
    else
      match LookupFunction(sc, name, arity)
      case None => Err(UndefinedFunction(name, arity))
      case Some(f) => Ok((None, f))
  }

  /** The argument loop: argument i is analysed, then checked against parameter type i. */
  function AArguments(env: TypeEnv, sc: AScope, args: seq<Expr>, params: seq<Type>, i: nat, acc: seq<Expr>): (r: Result<seq<Expr>, AnalysisError>)
    requires i <= |args|
    ensures r.Ok? ==> |r.value| == |acc| + |args| - i
    decreases ExprsSize(args), 2, |args| - i
  {
    if i == |args| then Ok(acc)
    else
      ExprsSizeElement(args, i);
      match AExpr(env, sc, args[i])
      case Err(x) => Err(x)
      case Ok(a) =>
        if i >= |params| then Err(IndexOutOfBounds)
        else
          match RequireAssignable(params[i], TypeOf(a).value)
          case Err(x) => Err(x)
          case Ok(_) => AArguments(env, sc, args, params, i + 1, acc + [a])
  }

  // ---------------------------------------------------------------------------
  // Statements

  /** An analysed node and the scope after it, or the first error. */
  type Checked<T> = Result<(T, AScope), AnalysisError>

  /** scope.getParent(), for a scope the analyzer pushed. */
  function Pop(s: AScope): AScope
    requires s.parent.Some?
  {
    s.parent.value
  }

  /** A statement defines at most variables of the current scope: the functions and the
      parent stay as they were. */
  predicate SameFrame(before: AScope, after: AScope) {
    after.parent == before.parent && after.functions == before.functions
  }

  function AStmt(env: TypeEnv, sc: AScope, s: Stmt): (r: Checked<Stmt>)
    ensures r.Ok? ==> SameFrame(sc, r.value.1)
    decreases StmtSize(s), 2
  {
    match s
    case Expression(_) => AExpressionStmt(env, sc, s)
    case Declaration(_, _, _, _) => ADeclaration(env, sc, s)
    case Assignment(_, _) => AAssignment(env, sc, s)
    case If(_, _, _) => AIf(env, sc, s)
    case For(_, _, _) => AFor(env, sc, s)
    case While(_, _) => AWhile(env, sc, s)
    case Return(_) => AReturn(env, sc, s)
  }

  /** The statement loop: each statement in the scope the previous one left. */
  function AStmts(env: TypeEnv, sc: AScope, ss: seq<Stmt>, i: nat, acc: seq<Stmt>): (r: Checked<seq<Stmt>>)
    requires i <= |ss|
    ensures r.Ok? ==> SameFrame(sc, r.value.1)
    decreases StmtsSize(ss), 3, |ss| - i
  {
    if i == |ss| then Ok((acc, sc))
    else
      StmtsSizeElement(ss, i);
      match AStmt(env, sc, ss[i])
      case Err(x) => Err(x)
      case Ok((a, next)) => AStmts(env, next, ss, i + 1, acc + [a])
  }

  function AExpressionStmt(env: TypeEnv, sc: AScope, s: Stmt): (r: Checked<Stmt>)
    requires s.Expression?
    ensures r.Ok? ==> r.value.1 == sc
  {
    match AExpr(env, sc, s.expr)
    case Err(x) => Err(x)
    case Ok(a) =>
      if !a.Call? then Err(SemanticError("Expression statement must be a function call."))
      else Ok((Expression(a), sc))
  }

  /** visit(Declaration): the declared type is looked up first; the initializer supplies
      the type when there is no name, and must be assignable when there is one. */
  function ADeclaration(env: TypeEnv, sc: AScope, s: Stmt): (r: Checked<Stmt>)
    requires s.Declaration?
    ensures r.Ok? ==> SameFrame(sc, r.value.1)
  {
    var declared: Result<Option<Type>, AnalysisError> :=
      if s.typeName.Some? then
        (match GetType(env, s.typeName) case Err(x) => Err(x) case Ok(t) => Ok(Some(t)))
      else Ok(None);
    match declared
    case Err(x) => Err(x)
    case Ok(dt) =>
      if s.initializer.Some? then
        match AExpr(env, sc, s.initializer.value)
        case Err(x) => Err(x)
        case Ok(a) =>
          var vt := TypeOf(a).value;
          if dt.None? then Declare(sc, s, Some(a), vt)
          else
            match RequireAssignable(dt.value, vt)
            case Err(x) => Err(x)
            case Ok(_) => Declare(sc, s, Some(a), dt.value)
      else if dt.None? then Err(SemanticError("Declaration must have a type or an initial value."))
      else Declare(sc, s, None, dt.value)
  }

  /** The variable a declaration defines and records on its node. */
  function Declare(sc: AScope, s: Stmt, init: Option<Expr>, t: Type): (r: Checked<Stmt>)
    requires s.Declaration?
    ensures r.Ok? && r.value.0.Declaration? && r.value.0.variable == Some(Variable(s.name, s.name, t))
    ensures SameFrame(sc, r.value.1) && r.value.1.variables == sc.variables[s.name := Variable(s.name, s.name, t)]
  {
    var v := Variable(s.name, s.name, t);
    Ok((Declaration(s.name, s.typeName, init, Some(v)), DefineVariable(sc, s.name, v)))
  }

  function AAssignment(env: TypeEnv, sc: AScope, s: Stmt): (r: Checked<Stmt>)
    requires s.Assignment?
    ensures r.Ok? ==> r.value.1 == sc
  {
    match AExpr(env, sc, s.receiver)
    case Err(x) => Err(x)
    case Ok(rc) =>
      if !rc.Access? then Err(SemanticError("Assignment receiver must be an access expression."))
      else
        match AExpr(env, sc, s.value)
        case Err(x) => Err(x)
        case Ok(v) =>
          match RequireAssignable(TypeOf(rc).value, TypeOf(v).value)
          case Err(x) => Err(x)
          case Ok(_) => Ok((Assignment(rc, v), sc))
  }

  /** visit(If): each branch in a child scope that is popped afterwards; the else branch
      only when it has statements. */
  function AIf(env: TypeEnv, sc: AScope, s: Stmt): (r: Checked<Stmt>)
    requires s.If?
    ensures r.Ok? ==> SameFrame(sc, r.value.1)
    decreases StmtSize(s), 1
  {
    match AExpr(env, sc, s.condition)
    case Err(x) => Err(x)
    case Ok(c) =>
      match RequireAssignable(BOOLEAN, TypeOf(c).value)
      case Err(x) => Err(x)
      case Ok(_) =>
        if s.thenStatements == [] then Err(SemanticError("If statement must have a non-empty then block."))
        else
          match AStmts(env, Child(sc), s.thenStatements, 0, [])
          case Err(x) => Err(x)
          case Ok((thens, afterThen)) =>
            var mid := Pop(afterThen);
            if s.elseStatements == [] then Ok((If(c, thens, []), mid))
            else
              match AStmts(env, Child(mid), s.elseStatements, 0, [])
              case Err(x) => Err(x)
              case Ok((elses, afterElse)) => Ok((If(c, thens, elses), Pop(afterElse)))
  }

  /** visit(For): the loop variable is an Integer of a child scope. */
  function AFor(env: TypeEnv, sc: AScope, s: Stmt): (r: Checked<Stmt>)
    requires s.For?
    ensures r.Ok? ==> SameFrame(sc, r.value.1)
    decreases StmtSize(s), 1
  {
    match AExpr(env, sc, s.iterable)
    case Err(x) => Err(x)
    case Ok(it) =>
      match RequireAssignable(INTEGER_ITERABLE, TypeOf(it).value)
      case Err(x) => Err(x)
      case Ok(_) =>
        if s.statements == [] then Err(SemanticError("For statement must have a non-empty body."))
        else
          var inner := DefineVariable(Child(sc), s.name, Variable(s.name, s.name, Type.INTEGER));
          match AStmts(env, inner, s.statements, 0, [])
          case Err(x) => Err(x)
          case Ok((body, after)) => Ok((For(s.name, it, body), Pop(after)))
  }

  function AWhile(env: TypeEnv, sc: AScope, s: Stmt): (r: Checked<Stmt>)
    requires s.While?
    ensures r.Ok? ==> SameFrame(sc, r.value.1)
    decreases StmtSize(s), 1
  {
    match AExpr(env, sc, s.condition)
    case Err(x) => Err(x)
    case Ok(c) =>
      match RequireAssignable(BOOLEAN, TypeOf(c).value)
      case Err(x) => Err(x)
      case Ok(_) =>
        match AStmts(env, Child(sc), s.statements, 0, [])
        case Err(x) => Err(x)
        case Ok((body, after)) => Ok((While(c, body), Pop(after)))
  }

  /** visit(Return): the target type is the type of an ordinary variable lookup. */
  function AReturn(env: TypeEnv, sc: AScope, s: Stmt): (r: Checked<Stmt>)
    requires s.Return?
    ensures r.Ok? ==> r.value.1 == sc
  {
    match AExpr(env, sc, s.value)
    case Err(x) => Err(x)
    case Ok(v) =>
      match LookupVariable(sc, ReturnTypeName)
      case None => Err(UndefinedVariable(ReturnTypeName))
      case Some(target) =>
        match RequireAssignable(target.ty, TypeOf(v).value)
        case Err(x) => Err(x)
        case Ok(_) => Ok((Return(v), sc))
  }

  // ---------------------------------------------------------------------------
  // Fields, methods and the source

  function AField(env: TypeEnv, sc: AScope, f: Field): (r: Checked<Field>)
    ensures r.Ok? ==> r.value.1.functions == sc.functions && r.value.1.parent == sc.parent
  {
    match GetType(env, f.typeName)
    case Err(x) => Err(x)
    case Ok(t) =>
      var init: Result<Option<Expr>, AnalysisError> :=
        if f.initializer.Some? then
          match AExpr(env, sc, f.initializer.value)
          case Err(x) => Err(x)
          case Ok(a) =>
            (match RequireAssignable(t, TypeOf(a).value) case Err(x) => Err(x) case Ok(_) => Ok(Some(a)))
        else Ok(None);
      match init
      case Err(x) => Err(x)
      case Ok(a) =>
        var v := Variable(f.name, f.name, t);
        Ok((Field(f.name, f.typeName, a, Some(v)), DefineVariable(sc, f.name, v)))
  }

  /** The parameter types, by Environment.getType on each name in order. */
  function ParameterTypes(env: TypeEnv, names: seq<string>): (r: Result<seq<Type>, AnalysisError>)
    ensures r.Ok? ==> |r.value| == |names|
  {
    if names == [] then Ok([])
    else
      match GetType(env, Some(names[0]))
      case Err(x) => Err(x)
      case Ok(t) =>
        match ParameterTypes(env, names[1..])
        case Err(x) => Err(x)
        case Ok(ts) => Ok([t] + ts)
  }

  /** The parameter loop: parameter i gets parameter type i, which must exist. */
  function BindParameters(sc: AScope, params: seq<string>, types: seq<Type>, i: nat): (r: Result<AScope, AnalysisError>)
    requires i <= |params|
    ensures r.Ok? ==> SameFrame(sc, r.value)
    decreases |params| - i
  {
    if i == |params| then Ok(sc)
    else if i >= |types| then Err(IndexOutOfBounds)
    else BindParameters(DefineVariable(sc, params[i], Variable(params[i], params[i], types[i])), params, types, i + 1)
  }

  function ReturnType(env: TypeEnv, m: Method): Result<Type, AnalysisError> {
    if m.returnTypeName.Some? then GetType(env, m.returnTypeName) else Ok(NIL)
  }

  /** visit(Method): the function is defined in the current scope before its body is
      analysed in a child scope that also defines print/1 and the parameters. */
  function AMethod(env: TypeEnv, sc: AScope, m: Method): (r: Checked<Method>)
    ensures r.Ok? ==> r.value.1.variables == sc.variables && r.value.1.parent == sc.parent
    ensures r.Ok? ==> r.value.0.name == m.name && r.value.0.parameters == m.parameters && r.value.0.func.Some?
  {
    match ParameterTypes(env, m.parameterTypeNames)
    case Err(x) => Err(x)
    case Ok(pts) =>
      match ReturnType(env, m)
      case Err(x) => Err(x)
      case Ok(rt) =>
        var f := Function(m.name, m.name, pts, rt);
        var outer := DefineFunction(sc, m.name, |pts|, f);
        var body := DefineFunction(Child(outer), "print", 1, PrintFunction);
        match BindParameters(body, m.parameters, pts, 0)
        case Err(x) => Err(x)
        case Ok(inner) =>
          match AStmts(env, inner, m.statements, 0, [])
          case Err(x) => Err(x)
          case Ok((ss, after)) => Ok((m.(statements := ss, func := Some(f)), Pop(after)))
  }

  function AFields(env: TypeEnv, sc: AScope, fs: seq<Field>, i: nat, acc: seq<Field>): (r: Checked<seq<Field>>)
    requires i <= |fs|
    ensures r.Ok? ==> |r.value.0| == |acc| + |fs| - i && r.value.0[..|acc|] == acc
    ensures r.Ok? ==> r.value.1.functions == sc.functions && r.value.1.parent == sc.parent
    decreases |fs| - i
  {
    if i == |fs| then Ok((acc, sc))
    else
      match AField(env, sc, fs[i])
      case Err(x) => Err(x)
      case Ok((f, next)) => AFields(env, next, fs, i + 1, acc + [f])
  }

  function AMethods(env: TypeEnv, sc: AScope, ms: seq<Method>, i: nat, acc: seq<Method>): (r: Checked<seq<Method>>)
    requires i <= |ms|
    ensures r.Ok? ==> |r.value.0| == |acc| + |ms| - i && r.value.0[..|acc|] == acc
    ensures r.Ok? ==> r.value.1.variables == sc.variables && r.value.1.parent == sc.parent
    decreases |ms| - i
  {
    if i == |ms| then Ok((acc, sc))
    else
      match AMethod(env, sc, ms[i])
      case Err(x) => Err(x)
      case Ok((m, next)) => AMethods(env, next, ms, i + 1, acc + [m])
  }

  const MainMessage: string := "Main function must have return type Integer and be defined in the source."

  /** visit(Source): the fields, then the methods, then main/0 must return Integer. */
  function ASource(env: TypeEnv, sc: AScope, src: Source): (r: Checked<Source>)
    ensures r.Ok? ==> |r.value.0.fields| == |src.fields| && |r.value.0.methods| == |src.methods|
    ensures r.Ok? ==> r.value.1.parent == sc.parent
  {
    match AFields(env, sc, src.fields, 0, [])
    case Err(x) => Err(x)
    case Ok((fs, afterFields)) =>
      match AMethods(env, afterFields, src.methods, 0, [])
      case Err(x) => Err(x)
      case Ok((ms, after)) =>
        match LookupFunction(after, "main", 0)
        case None => Err(UndefinedFunction("main", 0))
        case Some(main) =>
          if main.returnType != Type.INTEGER then Err(SemanticError(MainMessage))
          else Ok((Source(fs, ms), after))
  }

  /** A method result and the scope field agree with a spec: the same node and scope, or
      the same error (the scope is left as it was at the throw, which nothing reads). */
  predicate Tracks<T(==)>(r: Result<T, AnalysisError>, spec: Checked<T>, sc: AScope) {
    match spec
    case Ok((v, s)) => r == Ok(v) && sc == s
    case Err(e) => r == Err(e)
  }

  // ---------------------------------------------------------------------------
  // The analyzer

  class Analyzer {
    var scope: AScope
    const env: TypeEnv

    /** new Analyzer(parent): a child of the given scope, with print/1 defined in it. */
    constructor (parent: AScope, env: TypeEnv)
      ensures scope == DefineFunction(Child(parent), "print", 1, PrintFunction) && this.env == env
    {
      scope := DefineFunction(Child(parent), "print", 1, PrintFunction);
      this.env := env;
    }

    method VisitSource(src: Source) returns (r: Result<Source, AnalysisError>)
      modifies this
      ensures Tracks(r, ASource(env, old(scope), src), scope)
    {
      var fields: seq<Field> := [];
      var i := 0;
      ghost var start := scope;
      while i < |src.fields|
        invariant i <= |src.fields| && AFields(env, scope, src.fields, i, fields) == AFields(env, start, src.fields, 0, [])
      {
        var f := VisitField(src.fields[i]);
        if f.Err? {
          return Err(f.error);
        }
        fields := fields + [f.value];
        i := i + 1;
      }
      var methods: seq<Method> := [];
      var j := 0;
      ghost var afterFields := scope;
      while j < |src.methods|
        invariant j <= |src.methods| && AMethods(env, scope, src.methods, j, methods) == AMethods(env, afterFields, src.methods, 0, [])
      {
        var m := VisitMethod(src.methods[j]);
        if m.Err? {
          return Err(m.error);
        }
        methods := methods + [m.value];
        j := j + 1;
      }
      var main := LookupFunction(scope, "main", 0);
      if main.None? {
        return Err(UndefinedFunction("main", 0));
      }
      if main.value.returnType != Type.INTEGER {
        return Err(SemanticError(MainMessage));
      }
      return Ok(Source(fields, methods));
    }

    method VisitField(f: Field) returns (r: Result<Field, AnalysisError>)
      modifies this
      ensures Tracks(r, AField(env, old(scope), f), scope)
    {
      var t := GetType(env, f.typeName);
      if t.Err? {
        return Err(t.error);
      }
      var init: Option<Expr> := None;
      if f.initializer.Some? {
        var a := VisitExpr(f.initializer.value);
        if a.Err? {
          return Err(a.error);
        }
        var ok := RequireAssignable(t.value, TypeOf(a.value).value);
        if ok.Err? {
          return Err(ok.error);
        }
        init := Some(a.value);
      }
      var v := Variable(f.name, f.name, t.value);
      scope := DefineVariable(scope, f.name, v);
      return Ok(Field(f.name, f.typeName, init, Some(v)));
    }

    method VisitMethod(m: Method) returns (r: Result<Method, AnalysisError>)
      modifies this
      ensures Tracks(r, AMethod(env, old(scope), m), scope)
    {
      var pts := ParameterTypes(env, m.parameterTypeNames);
      if pts.Err? {
        return Err(pts.error);
      }
      var rt := ReturnType(env, m);
      if rt.Err? {
        return Err(rt.error);
      }
      var f := Function(m.name, m.name, pts.value, rt.value);
      scope := DefineFunction(scope, m.name, |pts.value|, f);
      scope := Child(scope);
      scope := DefineFunction(scope, "print", 1, PrintFunction);
      ghost var body := scope;
      var i := 0;
      while i < |m.parameters|
        invariant i <= |m.parameters|
        invariant BindParameters(scope, m.parameters, pts.value, i) == BindParameters(body, m.parameters, pts.value, 0)
      {
        if i >= |pts.value| {
          return Err(IndexOutOfBounds);
        }
        scope := DefineVariable(scope, m.parameters[i], Variable(m.parameters[i], m.parameters[i], pts.value[i]));
        i := i + 1;
      }
      var ss := VisitStatements(m.statements);
      if ss.Err? {
        return Err(ss.error);
      }
      scope := Pop(scope);
      return Ok(m.(statements := ss.value, func := Some(f)));
    }

    /** The loop over a statement list. */
    method VisitStatements(ss: seq<Stmt>) returns (r: Result<seq<Stmt>, AnalysisError>)
      modifies this
      ensures Tracks(r, AStmts(env, old(scope), ss, 0, []), scope)
      decreases StmtsSize(ss), 3
    {
      var acc: seq<Stmt> := [];
      var i := 0;
      ghost var goal := AStmts(env, scope, ss, 0, []);
      while i < |ss|
        invariant i <= |ss| && AStmts(env, scope, ss, i, acc) == goal
      {
        StmtsSizeElement(ss, i);
        var a := VisitStmt(ss[i]);
        if a.Err? {
          return Err(a.error);
        }
        acc := acc + [a.value];
        i := i + 1;
      }
      return Ok(acc);
    }

    method VisitStmt(s: Stmt) returns (r: Result<Stmt, AnalysisError>)
      modifies this
      ensures Tracks(r, AStmt(env, old(scope), s), scope)
      decreases StmtSize(s), 2
    {
      match s {
        case Expression(_) => r := VisitExpressionStmt(s);
        case Declaration(_, _, _, _) => r := VisitDeclaration(s);
        case Assignment(_, _) => r := VisitAssignment(s);
        case If(_, _, _) => r := VisitIf(s);
        case For(_, _, _) => r := VisitFor(s);
        case While(_, _) => r := VisitWhile(s);
        case Return(_) => r := VisitReturn(s);
      }
    }

    method VisitExpressionStmt(s: Stmt) returns (r: Result<Stmt, AnalysisError>)
      requires s.Expression?
      ensures Tracks(r, AExpressionStmt(env, scope, s), scope)
    {
      var a := VisitExpr(s.expr);
      if a.Err? {
        return Err(a.error);
      }
      if !a.value.Call? {
        return Err(SemanticError("Expression statement must be a function call."));
      }
      return Ok(Expression(a.value));
    }

    method VisitDeclaration(s: Stmt) returns (r: Result<Stmt, AnalysisError>)
      requires s.Declaration?
      modifies this
      ensures Tracks(r, ADeclaration(env, old(scope), s), scope)
    {
      var declared: Option<Type> := None;
      if s.typeName.Some? {
        var t := GetType(env, s.typeName);
        if t.Err? {
          return Err(t.error);
        }
        declared := Some(t.value);
      }
      var init: Option<Expr> := None;
      if s.initializer.Some? {
        var a := VisitExpr(s.initializer.value);
        if a.Err? {
          return Err(a.error);
        }
        init := Some(a.value);
        if declared.None? {
          declared := TypeOf(a.value);
        } else {
          var ok := RequireAssignable(declared.value, TypeOf(a.value).value);
          if ok.Err? {
            return Err(ok.error);
          }
        }
      }
      if declared.None? {
        return Err(SemanticError("Declaration must have a type or an initial value."));
      }
      var v := Variable(s.name, s.name, declared.value);
      scope := DefineVariable(scope, s.name, v);
      return Ok(Declaration(s.name, s.typeName, init, Some(v)));
    }

    method VisitAssignment(s: Stmt) returns (r: Result<Stmt, AnalysisError>)
      requires s.Assignment?
      ensures Tracks(r, AAssignment(env, scope, s), scope)
    {
      var rc := VisitExpr(s.receiver);
      if rc.Err? {
        return Err(rc.error);
      }
      if !rc.value.Access? {
        return Err(SemanticError("Assignment receiver must be an access expression."));
      }
      var v := VisitExpr(s.value);
      if v.Err? {
        return Err(v.error);
      }
      var ok := RequireAssignable(TypeOf(rc.value).value, TypeOf(v.value).value);
      if ok.Err? {
        return Err(ok.error);
      }
      return Ok(Assignment(rc.value, v.value));
    }

    method VisitIf(s: Stmt) returns (r: Result<Stmt, AnalysisError>)
      requires s.If?
      modifies this
      ensures Tracks(r, AIf(env, old(scope), s), scope)
      decreases StmtSize(s), 1
    {
      var c := VisitExpr(s.condition);
      if c.Err? {
        return Err(c.error);
      }
      var ok := RequireAssignable(BOOLEAN, TypeOf(c.value).value);
      if ok.Err? {
        return Err(ok.error);
      }
      if s.thenStatements == [] {
        return Err(SemanticError("If statement must have a non-empty then block."));
      }
      scope := Child(scope);
      var thens := VisitStatements(s.thenStatements);
      if thens.Err? {
        return Err(thens.error);
      }
      scope := Pop(scope);
      if s.elseStatements == [] {
        return Ok(If(c.value, thens.value, []));
      }
      scope := Child(scope);
      var elses := VisitStatements(s.elseStatements);
      if elses.Err? {
        return Err(elses.error);
      }
      scope := Pop(scope);
      return Ok(If(c.value, thens.value, elses.value));
    }

    method VisitFor(s: Stmt) returns (r: Result<Stmt, AnalysisError>)
      requires s.For?
      modifies this
      ensures Tracks(r, AFor(env, old(scope), s), scope)
      decreases StmtSize(s), 1
    {
      var it := VisitExpr(s.iterable);
      if it.Err? {
        return Err(it.error);
      }
      var ok := RequireAssignable(INTEGER_ITERABLE, TypeOf(it.value).value);
      if ok.Err? {
        return Err(ok.error);
      }
      if s.statements == [] {
        return Err(SemanticError("For statement must have a non-empty body."));
      }
      scope := Child(scope);
      scope := DefineVariable(scope, s.name, Variable(s.name, s.name, Type.INTEGER));
      var body := VisitStatements(s.statements);
      if body.Err? {
        return Err(body.error);
      }
      scope := Pop(scope);
      return Ok(For(s.name, it.value, body.value));
    }

    method VisitWhile(s: Stmt) returns (r: Result<Stmt, AnalysisError>)
      requires s.While?
      modifies this
      ensures Tracks(r, AWhile(env, old(scope), s), scope)
      decreases StmtSize(s), 1
    {
      var c := VisitExpr(s.condition);
      if c.Err? {
        return Err(c.error);
      }
      var ok := RequireAssignable(BOOLEAN, TypeOf(c.value).value);
      if ok.Err? {
        return Err(ok.error);
      }
      scope := Child(scope);
      var body := VisitStatements(s.statements);
      if body.Err? {
        return Err(body.error);
      }
      scope := Pop(scope);
      return Ok(While(c.value, body.value));
    }

    method VisitReturn(s: Stmt) returns (r: Result<Stmt, AnalysisError>)
      requires s.Return?
      ensures Tracks(r, AReturn(env, scope, s), scope)
    {
      var v := VisitExpr(s.value);
      if v.Err? {
        return Err(v.error);
      }
      var target := LookupVariable(scope, ReturnTypeName);
      if target.None? {
        return Err(UndefinedVariable(ReturnTypeName));
      }
      var ok := RequireAssignable(target.value.ty, TypeOf(v.value).value);
      if ok.Err? {
        return Err(ok.error);
      }
      return Ok(Return(v.value));
    }

    method VisitExpr(e: Expr) returns (r: Result<Expr, AnalysisError>)
      ensures r == AExpr(env, scope, e)
      decreases ExprSize(e), 1
    {
      match e {
        case Literal(lit, _) =>
          var t := LiteralType(lit);
          if t.Err? {
            return Err(t.error);
          }
          return Ok(Expr.Literal(lit, Some(t.value)));
        case Group(inner, _) =>
          var a := VisitExpr(inner);
          if a.Err? {
            return a;
          }
          return Ok(Group(a.value, TypeOf(a.value)));
        case Binary(op, left, right, _) =>
          var l := VisitExpr(left);
          if l.Err? {
            return l;
          }
          var rr := VisitExpr(right);
          if rr.Err? {
            return rr;
          }
          var t := BinaryType(op, TypeOf(l.value).value, TypeOf(rr.value).value);
          if t.Err? {
            return Err(t.error);
          }
          return Ok(Binary(op, l.value, rr.value, Some(t.value)));
        case Access(receiver, name, _) =>
          if receiver.Some? {
            var a := VisitExpr(receiver.value);
            if a.Err? {
              return a;
            }
            var owner := TypeOf(a.value).value;
            if (owner, name) !in env.fields {
              return Err(UnknownField(owner, name));
            }
            return Ok(Access(Some(a.value), name, Some(env.fields[(owner, name)])));
          }
          var v := LookupVariable(scope, name);
          if v.None? {
            return Err(UndefinedVariable(name));
          }
          return Ok(Access(None, name, Some(v.value)));
        case Call(receiver, name, args, _) =>
          var callee := VisitCallee(receiver, name, |args|);
          if callee.Err? {
            return Err(callee.error);
          }
          var f := callee.value.1;
          var aargs := VisitArguments(args, f.parameterTypes);
          if aargs.Err? {
            return Err(aargs.error);
          }
          return Ok(Call(callee.value.0, name, aargs.value, Some(f)));
      }
    }

    method VisitCallee(receiver: Option<Expr>, name: string, arity: nat) returns (r: Result<(Option<Expr>, Function), AnalysisError>)
      ensures r == ACallee(env, scope, receiver, name, arity)
      decreases if receiver.Some? then ExprSize(receiver.value) + 1 else 0, 0
    {
      if receiver.Some? {
        var a := VisitExpr(receiver.value);
        if a.Err? {
          return Err(a.error);
        }
        var owner := TypeOf(a.value).value;
        if (owner, name, arity) !in env.methods {
          return Err(UnknownMethod(owner, name, arity));
        }
        return Ok((Some(a.value), env.methods[(owner, name, arity)]));
      }
      var f := LookupFunction(scope, name, arity);
      if f.None? {
        return Err(UndefinedFunction(name, arity));
      }
      return Ok((None, f.value));
    }

    /** The argument loop of visit(Function). */
    method VisitArguments(args: seq<Expr>, params: seq<Type>) returns (r: Result<seq<Expr>, AnalysisError>)
      ensures r == AArguments(env, scope, args, params, 0, [])
      decreases ExprsSize(args), 2
    {
      var acc: seq<Expr> := [];
      var i := 0;
      while i < |args|
        invariant i <= |args| && AArguments(env, scope, args, params, i, acc) == AArguments(env, scope, args, params, 0, [])
      {
        ExprsSizeElement(args, i);
        var a := VisitExpr(args[i]);
        if a.Err? {
          return Err(a.error);
        }
        if i >= |params| {
          return Err(IndexOutOfBounds);
        }
        var ok := RequireAssignable(params[i], TypeOf(a.value).value);
        if ok.Err? {
          return Err(ok.error);
        }
        acc := acc + [a.value];
        i := i + 1;
      }
      return Ok(acc);
    }
  }
}
