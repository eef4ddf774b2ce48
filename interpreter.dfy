/**
 * Interpreter.java: a tree-walking evaluator. Values are the objects a PlcObject can hold
 * here; the interpreter's state is its one scope and the lines `print` has written.
 * Every evaluation carries a fuel bound, spent by each method invocation and each
 * iteration of a while loop, so that the evaluator is total; running out is an error.
 */
module Interpretation {
  import opened Wrappers
  import opened Numbers
  import opened Ast
  import opened Scopes

  /** The Java object inside a PlcObject. */
  datatype Value =
    | NilV              // Environment.NIL, displayed as "nil"
    | NullV             // the value of a NIL literal: a Java null
    | BoolV(b: bool)
    | IntV(i: int)
    | DecV(d: Decimal)
    | CharV(c: char)
    | StrV(s: string)

  /** What a scope binds as a function: the native print, or a method of the source. */
  datatype Callable = Print | Closure(m: Method)

  type IScope = Scope<Value, Callable>

  /** The interpreter's scope and the lines printed so far. */
  datatype State = State(scope: IScope, output: seq<string>)

  /** The exceptions evaluation can raise. */
  datatype RuntimeError =
    | RuntimeException(message: string)
    | WrongType(expected: string, received: Value)   // requireType's "Expected type ..., received ..."
    | NullPointer
    | ClassCast
    | IndexOutOfBounds
    | UndefinedVariable(name: string)
    | UndefinedFunction(name: string, arity: nat)
    | OutOfFuel

  /** How a statement completes: normally, or by a Return carrying its value. */
  datatype Outcome = Normal | Returning(value: Value)

  type Eval<T> = (Result<T, RuntimeError>, State)

  // ---------------------------------------------------------------------------
  // requireType

  /** The classes requireType is asked for. */
  datatype JavaClass = BooleanClass | ComparableClass | IterableClass | ScopeClass

  function ClassName(c: JavaClass): string {
    match c
    case BooleanClass => "java.lang.Boolean"
    case ComparableClass => "java.lang.Comparable"
    case IterableClass => "java.lang.Iterable"
    case ScopeClass => "plc.project.Scope"
  }

  /** Class.isInstance on the value; Boolean, BigInteger, BigDecimal, Character and String
      are Comparable. The values of this model include no Iterable and no Scope, so
      those two tests are false. */
  predicate IsInstance(c: JavaClass, v: Value)
    ensures IsInstance(c, v) ==> !v.NullV? && !v.NilV?
  {
    match c
    case BooleanClass => v.BoolV?
    case ComparableClass => v.BoolV? || v.IntV? || v.DecV? || v.CharV? || v.StrV?
    case IterableClass => false
    case ScopeClass => false
  }

  /** The failure of requireType: naming the class of a null value is itself a null
      dereference. */
  function TypeError(c: JavaClass, v: Value): (e: RuntimeError)
    ensures e == NullPointer <==> v.NullV?
  {
    if v.NullV? then NullPointer else WrongType(ClassName(c), v)
  }

  function RequireType(c: JavaClass, v: Value): (r: Result<Value, RuntimeError>)
    ensures r.Ok? <==> IsInstance(c, v)
    ensures r.Ok? ==> r.value == v
    ensures r.Err? ==> r.error == TypeError(c, v)
  {
    if IsInstance(c, v) then Ok(v) else Err(TypeError(c, v))
  }

  // ---------------------------------------------------------------------------
  // Literals, display strings and comparison

  /** Environment.create(literal). */
  function LiteralValue(lit: Literal): (v: Value)
    ensures v.NullV? <==> lit.NullLit?
    ensures !v.NilV? && (IsInstance(ComparableClass, v) <==> !lit.NullLit?)
  {
    match lit
    case NullLit => NullV
    case BoolLit(b) => BoolV(b)
    case IntLit(i) => IntV(i)
    case DecLit(d) => DecV(d)
    case CharLit(c) => CharV(c)
    case StrLit(s) => StrV(s)
  }

  /** toString of a non-null value. */
  function Display(v: Value): (s: string)
    requires !v.NullV?
    ensures v.IntV? ==> ParseBigInteger(s) == Some(v.i)
    ensures v.CharV? ==> |s| == 1
    ensures !v.StrV? ==> |s| >= 1
  {
    match v
    case NilV => "nil"
    case BoolV(b) => if b then "true" else "false"
    case IntV(i) => IntegerTextRoundTrip(i); IntToString(i)
    case DecV(d) => DecToString(d)
    case CharV(c) => [c]
    case StrV(s) => s
  }

  /** The line System.out.println writes for the value: String.valueOf, so "null" for null. */
  function PrintText(v: Value): (s: string)
    ensures v.StrV? ==> s == v.s
    ensures !v.StrV? ==> |s| >= 1
  {
    if v.NullV? then "null" else Display(v)
  }

  /** String.compareTo: the difference of the first differing characters, or of the
      lengths when one string is a prefix of the other. */
  function StringCompare(a: string, b: string): int {
    if a == [] || b == [] then |a| - |b|
    else if a[0] != b[0] then a[0] as int - b[0] as int
    else StringCompare(a[1..], b[1..])
  }

  /** compareTo of a Comparable left value with the right value: a null argument is a
      null dereference, an argument of another class a failed cast. */
  function CompareTo(l: Value, r: Value): (c: Result<int, RuntimeError>)
    requires IsInstance(ComparableClass, l)
    ensures c.Ok? <==>
      (l.BoolV? && r.BoolV?) || (l.IntV? && r.IntV?) || (l.DecV? && r.DecV?) ||
      (l.CharV? && r.CharV?) || (l.StrV? && r.StrV?)
    ensures c.Err? ==> c.error == (if r.NullV? then NullPointer else ClassCast)
    ensures c.Ok? && (l.BoolV? || l.IntV? || l.CharV?) ==> (c.value == 0 <==> l == r)
    ensures c.Ok? && l.DecV? ==> (c.value == 0 <==> RealOf(l.d) == RealOf(r.d))
  {
    if r.NullV? then Err(NullPointer)
    else
      match l
      case BoolV(a) => if r.BoolV? then Ok(if a == r.b then 0 else if a then 1 else -1) else Err(ClassCast)
      case IntV(a) => if r.IntV? then Ok(Sign(a - r.i)) else Err(ClassCast)
      case DecV(a) => if r.DecV? then DecCompareValue(a, r.d); Ok(DecCompare(a, r.d)) else Err(ClassCast)
      case CharV(a) => if r.CharV? then Ok(a as int - r.c as int) else Err(ClassCast)
      case StrV(a) => if r.StrV? then Ok(StringCompare(a, r.s)) else Err(ClassCast)
  }

  predicate IsComparison(op: string) {
    op == "<" || op == "<=" || op == ">" || op == ">="
  }

  function CompareHolds(op: string, c: int): bool
    requires IsComparison(op)
  {
    if op == "<" then c < 0 else if op == "<=" then c <= 0 else if op == ">" then c > 0 else c >= 0
  }

  // ---------------------------------------------------------------------------
  // visit(Ast.Expr.Binary) once both operands are evaluated

  function ApplyBinary(op: string, l: Value, r: Value): (v: Result<Value, RuntimeError>)
    ensures v.Ok? ==> op in {"AND", "OR", "<", "<=", ">", ">=", "==", "!=", "+", "-", "*", "/"}
    ensures v.Ok? && op in {"AND", "OR", "<", "<=", ">", ">=", "==", "!="} ==> v.value.BoolV?
    ensures v.Ok? && op in {"+", "-", "*", "/"} ==>
      v.value.StrV? || (v.value.IntV? && l.IntV? && r.IntV?) || (v.value.DecV? && l.DecV? && r.DecV?)
  {
    if op == "AND" then
      if !l.BoolV? then Err(TypeError(BooleanClass, l))
      else if !l.b then Ok(BoolV(false))
      else if !r.BoolV? then Err(TypeError(BooleanClass, r))
      else Ok(BoolV(r.b))
    else if op == "OR" then
      if !l.BoolV? then Err(TypeError(BooleanClass, l))
      else if l.b then Ok(BoolV(true))
      else if !r.BoolV? then Err(TypeError(BooleanClass, r))
      else Ok(BoolV(r.b))
    else if IsComparison(op) then
      if !IsInstance(ComparableClass, l) then Err(TypeError(ComparableClass, l))
      else
        match CompareTo(l, r)
        case Err(x) => Err(x)
        case Ok(c) => Ok(BoolV(CompareHolds(op, c)))
    else if op == "==" || op == "!=" then
      if l.NullV? then Err(NullPointer)
      else Ok(BoolV(if op == "==" then l == r else l != r))
    else if op == "+" then
      if l.StrV? || r.StrV? then
        if l.NullV? || r.NullV? then Err(NullPointer) else Ok(StrV(Display(l) + Display(r)))
      else if l.IntV? && r.IntV? then Ok(IntV(l.i + r.i))
      else if l.DecV? && r.DecV? then Ok(DecV(DecAdd(l.d, r.d)))
      else Err(RuntimeException("Invalid operands for + operator"))
    else if op == "-" then
      if l.IntV? && r.IntV? then Ok(IntV(l.i - r.i))
      else if l.DecV? && r.DecV? then Ok(DecV(DecSub(l.d, r.d)))
      else Err(RuntimeException("Invalid operands for - operator"))
    else if op == "*" then
      if l.IntV? && r.IntV? then Ok(IntV(l.i * r.i))
      else if l.DecV? && r.DecV? then Ok(DecV(DecMul(l.d, r.d)))
      else Err(RuntimeException("Invalid operands for * operator"))
    else if op == "/" then
      if l.IntV? && r.IntV? then
        if r.i == 0 then Err(RuntimeException("Division by zero")) else Ok(IntV(TruncDiv(l.i, r.i)))
      else if l.DecV? && r.DecV? then
        if DecIsZero(r.d) then Err(RuntimeException("Division by zero")) else Ok(DecV(DecDiv(l.d, r.d)))
      else Err(RuntimeException("Invalid operands for / operator"))
    else Err(RuntimeException("Unknown operator: " + op))
  }

  // ---------------------------------------------------------------------------
  // Evaluation

  /** What evaluation may do to the state: define variables in the one scope and append
      output lines. The parent and the functions of the scope stay as they are. */
  predicate Extends(before: State, after: State) {
    after.scope.parent == before.scope.parent && after.scope.functions == before.scope.functions &&
    before.output <= after.output
  }

  function Define(st: State, name: string, v: Value): (r: State)
    ensures Extends(st, r)
  {
    st.(scope := DefineVariable(st.scope, name, v))
  }

  /** The error of a receiver: the receiver's value must be a Scope, which no value is. */
  function ReceiverError(st: State, v: Result<Value, RuntimeError>): Eval<Value> {
    if v.Err? then (Err(v.error), st) else (Err(TypeError(ScopeClass, v.value)), st)
  }

  function EvalExpr(st: State, e: Expr, fuel: nat): (r: Eval<Value>)
    ensures Extends(st, r.1)
    decreases fuel, ExprSize(e), 1, 0
  {
    match e
    case Literal(lit, _) => (Ok(LiteralValue(lit)), st)
    case Group(inner, _) => EvalExpr(st, inner, fuel)
    case Binary(op, left, right, _) =>
      var (lv, st1) := EvalExpr(st, left, fuel);
      if lv.Err? then (Err(lv.error), st1)
      else
        var (rv, st2) := EvalExpr(st1, right, fuel);
        if rv.Err? then (Err(rv.error), st2)
        else (ApplyBinary(op, lv.value, rv.value), st2)
    case Access(receiver, name, _) =>
      if receiver.Some? then
        var (ov, st1) := EvalExpr(st, receiver.value, fuel);
        ReceiverError(st1, ov)
      else
        (match LookupVariable(st.scope, name)
         case None => (Err(UndefinedVariable(name)), st)
         case Some(v) => (Ok(v), st))
    case Call(receiver, name, args, _) =>
      var (avs, st1) := EvalArgs(st, args, 0, [], fuel);
      if avs.Err? then (Err(avs.error), st1)
      else if receiver.Some? then
        var (ov, st2) := EvalExpr(st1, receiver.value, fuel);
        ReceiverError(st2, ov)
      else
        match LookupFunction(st1.scope, name, |args|)
        case None => (Err(UndefinedFunction(name, |args|)), st1)
        case Some(f) => Invocation(st1, f, avs.value, fuel)
  }

  /** The arguments of a call, left to right. */
  function EvalArgs(st: State, args: seq<Expr>, i: nat, acc: seq<Value>, fuel: nat): (r: Eval<seq<Value>>)
    requires i <= |args|
    ensures Extends(st, r.1)
    decreases fuel, ExprsSize(args), 2, |args| - i
  {
    if i == |args| then (Ok(acc), st)
    else
      ExprsSizeElement(args, i);
      var (v, st1) := EvalExpr(st, args[i], fuel);
      if v.Err? then (Err(v.error), st1)
      else EvalArgs(st1, args, i + 1, acc + [v.value], fuel)
  }

  /** Calling a function value. Print writes the display string of its first argument; a
      method binds its parameters in a scope nothing reads, runs its body in the
      interpreter's scope, and yields the returned value, or Nil when the body ends. */
  function Invocation(st: State, f: Callable, args: seq<Value>, fuel: nat): (r: Eval<Value>)
    ensures Extends(st, r.1)
    decreases fuel, 0, 0, 0
  {
    match f
    case Print =>
      if |args| == 0 then (Err(IndexOutOfBounds), st)
      else (Ok(NilV), st.(output := st.output + [PrintText(args[0])]))
    case Closure(m) =>
      if |args| < |m.parameters| then (Err(IndexOutOfBounds), st)
      else if fuel == 0 then (Err(OutOfFuel), st)
      else
        var (o, st1) := ExecStmts(st, m.statements, 0, fuel - 1);
        (if o.Err? then Err(o.error) else if o.value.Returning? then Ok(o.value.value) else Ok(NilV), st1)
  }

  function ExecStmt(st: State, s: Stmt, fuel: nat): (r: Eval<Outcome>)
    ensures Extends(st, r.1)
    decreases fuel, StmtSize(s), 2, 0
  {
    match s
    case Expression(e) =>
      var (v, st1) := EvalExpr(st, e, fuel);
      (if v.Err? then Err(v.error) else Ok(Normal), st1)
    case Declaration(name, _, init, _) =>
      if init.Some? then
        var (v, st1) := EvalExpr(st, init.value, fuel);
        if v.Err? then (Err(v.error), st1) else (Ok(Normal), Define(st1, name, v.value))
      else (Ok(Normal), Define(st, name, NilV))
    case Assignment(target, value) =>
      if !target.Access? then (Err(ClassCast), st)
      else
        var (v, st1) := EvalExpr(st, value, fuel);
        if v.Err? then (Err(v.error), st1)
        else if target.receiver.Some? then
          var (ov, st2) := EvalExpr(st1, target.receiver.value, fuel);
          (Err(ReceiverError(st2, ov).0.error), st2)
        else (Ok(Normal), Define(st1, target.name, v.value))
    case If(c, thens, elses) =>
      var (cv, st1) := EvalExpr(st, c, fuel);
      if cv.Err? then (Err(cv.error), st1)
      else if !cv.value.BoolV? then (Err(TypeError(BooleanClass, cv.value)), st1)
      else if cv.value.b then ExecStmts(st1, thens, 0, fuel)
      else ExecStmts(st1, elses, 0, fuel)
    case For(_, it, _) =>
      var (iv, st1) := EvalExpr(st, it, fuel);
      (Err(if iv.Err? then iv.error else TypeError(IterableClass, iv.value)), st1)
    case While(_, _) => ExecWhile(st, s, fuel)
    case Return(value) =>
      var (v, st1) := EvalExpr(st, value, fuel);
      (if v.Err? then Err(v.error) else Ok(Returning(v.value)), st1)
  }

  /** A statement list; a Return or an error ends it early. */
  function ExecStmts(st: State, ss: seq<Stmt>, i: nat, fuel: nat): (r: Eval<Outcome>)
    requires i <= |ss|
    ensures Extends(st, r.1)
    decreases fuel, StmtsSize(ss), 3, |ss| - i
  {
    if i == |ss| then (Ok(Normal), st)
    else
      StmtsSizeElement(ss, i);
      var (o, st1) := ExecStmt(st, ss[i], fuel);
      if o.Err? || o.value.Returning? then (o, st1)
      else ExecStmts(st1, ss, i + 1, fuel)
  }

  /** The while loop: each iteration after the first spends one unit of fuel. */
  function ExecWhile(st: State, s: Stmt, fuel: nat): (r: Eval<Outcome>)
    requires s.While?
    ensures Extends(st, r.1)
    decreases fuel, StmtSize(s), 1, 0
  {
    var (cv, st1) := EvalExpr(st, s.condition, fuel);
    if cv.Err? then (Err(cv.error), st1)
    else if !cv.value.BoolV? then (Err(TypeError(BooleanClass, cv.value)), st1)
    else if !cv.value.b then (Ok(Normal), st1)
    else
      var (o, st2) := ExecStmts(st1, s.statements, 0, fuel);
      if o.Err? || o.value.Returning? then (o, st2)
      else if fuel == 0 then (Err(OutOfFuel), st2)
      else ExecWhile(st2, s, fuel - 1)
  }

  // ---------------------------------------------------------------------------
  // Fields, methods and the source

  function ExecField(st: State, f: Field, fuel: nat): (r: Eval<()>)
    ensures Extends(st, r.1)
  {
    if f.initializer.Some? then
      var (v, st1) := EvalExpr(st, f.initializer.value, fuel);
      if v.Err? then (Err(v.error), st1) else (Ok(()), Define(st1, f.name, v.value))
    else (Ok(()), Define(st, f.name, NilV))
  }

  /** visit(Ast.Method): the method is bound under its name and its number of parameters. */
  function DefineMethod(st: State, m: Method): (r: State)
    ensures LookupFunction(r.scope, m.name, |m.parameters|) == Some(Closure(m))
    ensures r.output == st.output && r.scope.variables == st.scope.variables && r.scope.parent == st.scope.parent
  {
    st.(scope := DefineFunction(st.scope, m.name, |m.parameters|, Closure(m)))
  }

  function ExecFields(st: State, fs: seq<Field>, i: nat, fuel: nat): (r: Eval<()>)
    requires i <= |fs|
    ensures Extends(st, r.1)
    decreases |fs| - i
  {
    if i == |fs| then (Ok(()), st)
    else
      var (o, st1) := ExecField(st, fs[i], fuel);
      if o.Err? then (o, st1) else ExecFields(st1, fs, i + 1, fuel)
  }

  function DefineMethods(st: State, ms: seq<Method>, i: nat): (r: State)
    requires i <= |ms|
    ensures r.output == st.output && r.scope.variables == st.scope.variables && r.scope.parent == st.scope.parent
    ensures forall k :: k in st.scope.functions ==> k in r.scope.functions
    decreases |ms| - i
  {
    if i == |ms| then st else DefineMethods(DefineMethod(st, ms[i]), ms, i + 1)
  }

  /** visit(Ast.Source): the fields in order, then the methods, then main/0 with no arguments. */
  function RunSource(st: State, src: Source, fuel: nat): (r: Eval<Value>)
    ensures st.output <= r.1.output && r.1.scope.parent == st.scope.parent
    ensures r.0.Ok? ==> LookupFunction(r.1.scope, "main", 0).Some?
  {
    var (o, st1) := ExecFields(st, src.fields, 0, fuel);
    if o.Err? then (Err(o.error), st1)
    else
      var st2 := DefineMethods(st1, src.methods, 0);
      match LookupFunction(st2.scope, "main", 0)
      case None => (Err(UndefinedFunction("main", 0)), st2)
      case Some(f) => Invocation(st2, f, [], fuel)
  }

  // ---------------------------------------------------------------------------
  // The Interpreter class: one `scope` field, assigned only by the constructor and
  // changed only by defining into it, and the output written by print.

  class Interpreter {
    var scope: IScope
    var output: seq<string>

    function Current(): State
      reads this
    {
      State(scope, output)
    }

    /** new Interpreter(parent): a child scope of parent with print/1 defined in it. */
    constructor (parent: IScope)
      ensures scope == DefineFunction(Child(parent), "print", 1, Print) && output == []
    {
      scope := DefineFunction(Child(parent), "print", 1, Print);
      output := [];
    }

    method VisitSource(src: Source, fuel: nat) returns (r: Result<Value, RuntimeError>)
      modifies this
      ensures (r, Current()) == RunSource(old(Current()), src, fuel)
    {
      var i := 0;
      ghost var goal := ExecFields(Current(), src.fields, 0, fuel);
      while i < |src.fields|
        invariant i <= |src.fields| && ExecFields(Current(), src.fields, i, fuel) == goal
      {
        var o := VisitField(src.fields[i], fuel);
        if o.Err? {
          return Err(o.error);
        }
        i := i + 1;
      }
      var j := 0;
      ghost var afterFields := Current();
      while j < |src.methods|
        invariant j <= |src.methods| && DefineMethods(Current(), src.methods, j) == DefineMethods(afterFields, src.methods, 0)
      {
        VisitMethod(src.methods[j]);
        j := j + 1;
      }
      var main := LookupFunction(scope, "main", 0);
      if main.None? {
        return Err(UndefinedFunction("main", 0));
      }
      r := Invoke(main.value, [], fuel);
    }

    method VisitField(f: Field, fuel: nat) returns (r: Result<(), RuntimeError>)
      modifies this
      ensures (r, Current()) == ExecField(old(Current()), f, fuel)
    {
      var v: Value := NilV;
      if f.initializer.Some? {
        var init := VisitExpr(f.initializer.value, fuel);
        if init.Err? {
          return Err(init.error);
        }
        v := init.value;
      }
      scope := DefineVariable(scope, f.name, v);
      return Ok(());
    }

    method VisitMethod(m: Method)
      modifies this
      ensures Current() == DefineMethod(old(Current()), m)
    {
      scope := DefineFunction(scope, m.name, |m.parameters|, Closure(m));
    }

    /** Function.invoke: print, or the lambda visit(Ast.Method) defines. The scope created
        for the parameters is never read, so it is not kept. */
    method Invoke(f: Callable, args: seq<Value>, fuel: nat) returns (r: Result<Value, RuntimeError>)
      modifies this
      ensures (r, Current()) == Invocation(old(Current()), f, args, fuel)
      decreases fuel, 0, 0, 0
    {
      match f {
        case Print =>
          if |args| == 0 {
            return Err(IndexOutOfBounds);
          }
          output := output + [PrintText(args[0])];
          return Ok(NilV);
        case Closure(m) =>
          if |args| < |m.parameters| {
            return Err(IndexOutOfBounds);
          }
          if fuel == 0 {
            return Err(OutOfFuel);
          }
          var o := VisitStatements(m.statements, fuel - 1);
          if o.Err? {
            return Err(o.error);
          }
          if o.value.Returning? {
            return Ok(o.value.value);
          }
          return Ok(NilV);
      }
    }

    /** The loop over a statement list, left by the first Return or error. */
    method VisitStatements(ss: seq<Stmt>, fuel: nat) returns (r: Result<Outcome, RuntimeError>)
      modifies this
      ensures (r, Current()) == ExecStmts(old(Current()), ss, 0, fuel)
      decreases fuel, StmtsSize(ss), 3, |ss|
    {
      var i := 0;
      ghost var goal := ExecStmts(Current(), ss, 0, fuel);
      while i < |ss|
        invariant i <= |ss| && ExecStmts(Current(), ss, i, fuel) == goal
      {
        StmtsSizeElement(ss, i);
        var o := VisitStmt(ss[i], fuel);
        if o.Err? || o.value.Returning? {
          return o;
        }
        i := i + 1;
      }
      return Ok(Normal);
    }

    method VisitStmt(s: Stmt, fuel: nat) returns (r: Result<Outcome, RuntimeError>)
      modifies this
      ensures (r, Current()) == ExecStmt(old(Current()), s, fuel)
      decreases fuel, StmtSize(s), 2, 0
    {
      match s {
        case Expression(e) =>
          var v := VisitExpr(e, fuel);
          r := if v.Err? then Err(v.error) else Ok(Normal);
        case Declaration(name, _, init, _) =>
          var v: Value := NilV;
          if init.Some? {
            var iv := VisitExpr(init.value, fuel);
            if iv.Err? {
              return Err(iv.error);
            }
            v := iv.value;
          }
          scope := DefineVariable(scope, name, v);
          r := Ok(Normal);
        case Assignment(target, value) =>
          r := VisitAssignment(s, fuel);
        case If(c, thens, elses) =>
          var cv := VisitExpr(c, fuel);
          if cv.Err? {
            return Err(cv.error);
          }
          if !cv.value.BoolV? {
            return Err(TypeError(BooleanClass, cv.value));
          }
          if cv.value.b {
            r := VisitStatements(thens, fuel);
          } else {
            r := VisitStatements(elses, fuel);
          }
        case For(_, it, _) =>
          var iv := VisitExpr(it, fuel);
          r := Err(if iv.Err? then iv.error else TypeError(IterableClass, iv.value));
        case While(_, _) =>
          r := VisitWhile(s, fuel);
        case Return(value) =>
          var v := VisitExpr(value, fuel);
          r := if v.Err? then Err(v.error) else Ok(Returning(v.value));
      }
    }

    method VisitAssignment(s: Stmt, fuel: nat) returns (r: Result<Outcome, RuntimeError>)
      requires s.Assignment?
      modifies this
      ensures (r, Current()) == ExecStmt(old(Current()), s, fuel)
      decreases fuel, StmtSize(s), 1, 0
    {
      if !s.receiver.Access? {
        return Err(ClassCast);
      }
      var v := VisitExpr(s.value, fuel);
      if v.Err? {
        return Err(v.error);
      }
      if s.receiver.receiver.Some? {
        var ov := VisitExpr(s.receiver.receiver.value, fuel);
        return Err(if ov.Err? then ov.error else TypeError(ScopeClass, ov.value));
      }
      scope := DefineVariable(scope, s.receiver.name, v.value);
      return Ok(Normal);
    }

    method VisitWhile(s: Stmt, fuel: nat) returns (r: Result<Outcome, RuntimeError>)
      requires s.While?
      modifies this
      ensures (r, Current()) == ExecWhile(old(Current()), s, fuel)
      decreases fuel, StmtSize(s), 1, 0
    {
      var f: nat := fuel;
      ghost var goal := ExecWhile(Current(), s, fuel);
      while true
        invariant f <= fuel && ExecWhile(Current(), s, f) == goal
        decreases f
      {
        var cv := VisitExpr(s.condition, f);
        if cv.Err? {
          return Err(cv.error);
        }
        if !cv.value.BoolV? {
          return Err(TypeError(BooleanClass, cv.value));
        }
        if !cv.value.b {
          return Ok(Normal);
        }
        var o := VisitStatements(s.statements, f);
        if o.Err? || o.value.Returning? {
          return o;
        }
        if f == 0 {
          return Err(OutOfFuel);
        }
        f := f - 1;
      }
    }

    method VisitExpr(e: Expr, fuel: nat) returns (r: Result<Value, RuntimeError>)
      modifies this
      ensures (r, Current()) == EvalExpr(old(Current()), e, fuel)
      decreases fuel, ExprSize(e), 1, 0
    {
      match e {
        case Literal(lit, _) =>
          r := Ok(LiteralValue(lit));
        case Group(inner, _) =>
          r := VisitExpr(inner, fuel);
        case Binary(op, left, right, _) =>
          var lv := VisitExpr(left, fuel);
          if lv.Err? {
            return Err(lv.error);
          }
          var rv := VisitExpr(right, fuel);
          if rv.Err? {
            return Err(rv.error);
          }
          r := ApplyBinary(op, lv.value, rv.value);
        case Access(receiver, name, _) =>
          if receiver.Some? {
            var ov := VisitExpr(receiver.value, fuel);
            return Err(if ov.Err? then ov.error else TypeError(ScopeClass, ov.value));
          }
          var v := LookupVariable(scope, name);
          if v.None? {
            return Err(UndefinedVariable(name));
          }
          r := Ok(v.value);
        case Call(receiver, name, args, _) =>
          var avs := VisitArguments(args, fuel);
          if avs.Err? {
            return Err(avs.error);
          }
          if receiver.Some? {
            var ov := VisitExpr(receiver.value, fuel);
            return Err(if ov.Err? then ov.error else TypeError(ScopeClass, ov.value));
          }
          var f := LookupFunction(scope, name, |args|);
          if f.None? {
            return Err(UndefinedFunction(name, |args|));
          }
          r := Invoke(f.value, avs.value, fuel);
      }
    }

    /** The argument list, evaluated left to right. */
    method VisitArguments(args: seq<Expr>, fuel: nat) returns (r: Result<seq<Value>, RuntimeError>)
      modifies this
      ensures (r, Current()) == EvalArgs(old(Current()), args, 0, [], fuel)
      decreases fuel, ExprsSize(args), 2, |args|
    {
      var acc: seq<Value> := [];
      var i := 0;
      ghost var goal := EvalArgs(Current(), args, 0, [], fuel);
      while i < |args|
        invariant i <= |args| && EvalArgs(Current(), args, i, acc, fuel) == goal
      {
        ExprsSizeElement(args, i);
        var v := VisitExpr(args[i], fuel);
        if v.Err? {
          return Err(v.error);
        }
        acc := acc + [v.value];
        i := i + 1;
      }
      return Ok(acc);
    }
  }
}
