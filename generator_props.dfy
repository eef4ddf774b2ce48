/**
 * Properties of the text the generator writes, stated against independent definitions
 * (lists joined by a separator, lists with a terminator after every element).
 */
module GenerationProperties {
  import opened Wrappers
  import opened Ast
  import opened Generation

  /** The elements with `sep` between neighbours and nothing after the last. */
  function JoinedBy(sep: string, ts: seq<string>): string {
    if |ts| == 0 then ""
    else if |ts| == 1 then ts[0]
    else ts[0] + sep + JoinedBy(sep, ts[1..])
  }

  predicate ArgumentsOk(args: seq<Expr>) {
    forall k :: 0 <= k < |args| ==> GExpr(args[k]).Ok?
  }

  function ArgumentTexts(args: seq<Expr>): (ts: seq<string>)
    requires ArgumentsOk(args)
    ensures |ts| == |args|
  {
    seq(|args|, k requires 0 <= k < |args| => GExpr(args[k]).value)
  }

  predicate StatementsOk(nl: string, ss: seq<Stmt>, ind: int) {
    forall k :: 0 <= k < |ss| ==> GStmt(nl, ss[k], ind).Ok?
  }

  function StatementTexts(nl: string, ss: seq<Stmt>, ind: int): (ts: seq<string>)
    requires StatementsOk(nl, ss, ind)
    ensures |ts| == |ss|
  {
    seq(|ss|, k requires 0 <= k < |ss| => GStmt(nl, ss[k], ind).value)
  }

  predicate Distinct(ss: seq<Stmt>) {
    forall i, j :: 0 <= i < j < |ss| ==> ss[i] != ss[j]
  }

  // ---------------------------------------------------------------------------
  // Layout

  lemma {:induction false} SpacesShape(n: int)
    ensures |Spaces(n)| == (if n <= 0 then 0 else 4 * n)
    ensures forall i :: 0 <= i < |Spaces(n)| ==> Spaces(n)[i] == ' '
    decreases n
  {
    if n > 0 {
      SpacesShape(n - 1);
    }
  }

  /** newline(n) with n <= 0 writes the line separator alone. */
  lemma NewlineNonPositive(nl: string, n: int)
    requires n <= 0
    ensures NewlineText(nl, n) == nl
  {
    assert nl + "" == nl;
  }

  // ---------------------------------------------------------------------------
  // Expressions

  /** AND is the only operator that is translated; OR and the rest are written verbatim. */
  lemma BinaryOperator(op: string, l: Expr, r: Expr, t: Option<Type>)
    requires GExpr(l).Ok? && GExpr(r).Ok?
    ensures GExpr(Binary(op, l, r, t))
         == Ok(GExpr(l).value + " " + (if op == "AND" then "&&" else op) + " " + GExpr(r).value)
  {
  }

  lemma BinaryLeftFirst(op: string, l: Expr, r: Expr, t: Option<Type>)
    requires GExpr(l).Err?
    ensures GExpr(Binary(op, l, r, t)) == GExpr(l)
  {
  }

  lemma OrIsVerbatim()
    ensures GExpr(Binary("OR", Access(None, "a", None), Access(None, "b", None), None)) == Ok("a OR b")
    ensures GExpr(Binary("AND", Access(None, "a", None), Access(None, "b", None), None)) == Ok("a && b")
  {
    assert GExpr(Access(None, "a", None)) == Ok("a");
    assert GExpr(Access(None, "b", None)) == Ok("b");
    assert "a" + " " + "OR" + " " + "b" == "a OR b";
    assert "a" + " " + "&&" + " " + "b" == "a && b";
  }

  /** A string literal is quoted without escaping; a null literal cannot be written. */
  lemma LiteralTexts(s: string, t: Option<Type>)
    ensures GExpr(Literal(StrLit(s), t)) == Ok("\"" + s + "\"")
    ensures GExpr(Literal(NullLit, t)) == Err(NullPointer)
    ensures GExpr(Literal(BoolLit(true), t)) == Ok("true")
    ensures GExpr(Literal(CharLit('c'), t)) == Ok("c")
  {
  }

  lemma QuoteNotEscaped()
    ensures GExpr(Literal(StrLit("a\"b"), None)) == Ok("\"a\"b\"")
  {
    assert "\"" + "a\"b" + "\"" == "\"a\"b\"";
  }

  /** The argument loop joins the arguments with ", " and writes nothing after the last. */
  lemma {:induction false} ArgumentsJoined(args: seq<Expr>, i: nat)
    requires i <= |args| && ArgumentsOk(args)
    ensures GArguments(args, i) == Ok(JoinedBy(", ", ArgumentTexts(args)[i..]))
    decreases |args| - i
  {
    var ts := ArgumentTexts(args);
    if i < |args| {
      ArgumentsJoined(args, i + 1);
      assert ts[i..][1..] == ts[i + 1..];
      if i == |args| - 1 {
        assert ts[i + 1..] == [];
        assert ts[i] + "" + "" == ts[i];
      }
    }
  }

  /** The first failing argument decides the error. */
  lemma {:induction false} ArgumentFails(args: seq<Expr>, i: nat, k: nat)
    requires i <= k < |args| && GExpr(args[k]).Err?
    requires forall j :: i <= j < k ==> GExpr(args[j]).Ok?
    ensures GArguments(args, i) == GExpr(args[k])
    decreases k - i
  {
    if i < k {
      ArgumentFails(args, i + 1, k);
    }
  }

  /** A call to print writes System.out.println of its first argument, whatever the
      receiver and the other arguments are. */
  lemma PrintCall(rc: Option<Expr>, args: seq<Expr>, f: Option<Function>)
    ensures args == [] ==> GExpr(Call(rc, "print", args, f)) == Err(IndexOutOfBounds)
    ensures args != [] ==> GExpr(Call(rc, "print", args, f)) == GExpr(Call(None, "print", args[..1], None))
    ensures args != [] && GExpr(args[0]).Ok? ==>
      GExpr(Call(rc, "print", args, f)) == Ok("System.out.println(" + GExpr(args[0]).value + ")")
  {
    if args != [] {
      assert args[..1][0] == args[0];
    }
  }

  /** Any other call: the receiver and a dot, the name with slice written as substring,
      and the arguments joined by ", " in parentheses. */
  lemma CallText(rc: Option<Expr>, name: string, args: seq<Expr>, f: Option<Function>)
    requires name != "print" && ArgumentsOk(args)
    requires rc.Some? ==> GExpr(rc.value).Ok?
    ensures GExpr(Call(rc, name, args, f))
         == Ok((if rc.Some? then GExpr(rc.value).value + "." else "")
               + (if name == "slice" then "substring" else name)
               + "(" + JoinedBy(", ", ArgumentTexts(args)) + ")")
  {
    ArgumentsJoined(args, 0);
    assert ArgumentTexts(args)[0..] == ArgumentTexts(args);
    if rc.None? {
      var callee := if name == "slice" then "substring" else name;
      assert "" + callee == callee;
    }
  }

  lemma SliceExample()
    ensures GExpr(Call(Some(Access(None, "s", None)), "slice",
                       [Access(None, "i", None), Access(None, "j", None)], None))
         == Ok("s.substring(i, j)")
  {
    var args := [Access(None, "i", None), Access(None, "j", None)];
    assert GExpr(Access(None, "s", None)) == Ok("s");
    assert GExpr(args[0]) == Ok("i");
    assert GExpr(args[1]) == Ok("j");
    CallText(Some(Access(None, "s", None)), "slice", args, None);
    assert ArgumentTexts(args) == ["i", "j"];
    assert JoinedBy(", ", ["i", "j"][1..]) == "j";
    assert "s" + "." + "substring" + "(" + ("i" + ", " + "j") + ")" == "s.substring(i, j)";
  }

  // ---------------------------------------------------------------------------
  // Declarations, fields and methods

  /** An explicit type name wins over the resolved variable; each side maps the four
      known names and writes Object otherwise. */
  lemma DeclarationTypes(s: Stmt)
    requires s.Declaration?
    ensures s.typeName.Some? ==> DeclarationType(s) == JavaType(s.typeName.value)
    ensures s.typeName.None? && s.variable.Some? ==> DeclarationType(s) == JavaType(NameOf(s.variable.value.ty))
    ensures s.typeName.None? && s.variable.None? ==> DeclarationType(s) == "Object"
    ensures DeclarationType(s) in {"double", "int", "String", "boolean", "Object"}
  {
  }

  lemma JavaTypes(name: string)
    ensures name == "Decimal" <==> JavaType(name) == "double"
    ensures name == "Integer" <==> JavaType(name) == "int"
    ensures name == "String" <==> JavaType(name) == "String"
    ensures name == "Boolean" <==> JavaType(name) == "boolean"
    ensures JavaType(name) == "Object" <==> name !in {"Decimal", "Integer", "String", "Boolean"}
  {
  }

  /** The type tags the analyzer assigns: Decimal, Integer, String and Boolean keep a Java
      primitive or String; every other tag, Character included, becomes Object. */
  lemma VariableTypes(x: string, v: Variable)
    ensures v.ty == Type.DECIMAL ==> DeclarationType(Declaration(x, None, None, Some(v))) == "double"
    ensures v.ty == Type.CHARACTER ==> DeclarationType(Declaration(x, None, None, Some(v))) == "Object"
    ensures DeclarationType(Declaration(x, Some("Integer"), None, Some(v))) == "int"
  {
  }

  lemma DeclarationText(x: string, tn: Option<string>, init: Option<Expr>, v: Option<Variable>, nl: string, ind: int)
    requires init.Some? ==> GExpr(init.value).Ok?
    ensures GStmt(nl, Declaration(x, tn, init, v), ind)
         == Ok(DeclarationType(Declaration(x, tn, init, v)) + " " + x
               + (if init.Some? then " = " + GExpr(init.value).value else "") + ";")
  {
    var head := DeclarationType(Declaration(x, tn, init, v)) + " " + x;
    if init.None? {
      assert head + "" + ";" == head + ";";
    } else {
      var t := GExpr(init.value).value;
      assert head + (" = " + t) + ";" == head + " = " + t + ";";
    }
  }

  /** A field writes its type name as a string, so a missing one reads "null". */
  lemma FieldWithoutTypeName(f: Field)
    requires f.typeName.None? && f.initializer.None?
    ensures GField(f) == Ok("null " + f.name + ";")
  {
    assert "null" + " " + f.name == "null " + f.name;
  }

  lemma ReturnTypes(m: Method)
    ensures m.returnTypeName.None? ==> ReturnTypeText(m) == "Any"
    ensures m.returnTypeName == Some("Integer") ==> ReturnTypeText(m) == "int"
    ensures m.returnTypeName.Some? && m.returnTypeName.value != "Integer" ==>
      ReturnTypeText(m) == m.returnTypeName.value
  {
  }

  function ParameterTexts(m: Method): (ts: seq<string>)
    requires |m.parameters| <= |m.parameterTypeNames|
    ensures |ts| == |m.parameters|
  {
    seq(|m.parameters|, i requires 0 <= i < |m.parameters| => m.parameterTypeNames[i] + " " + m.parameters[i])
  }

  /** Enough type names: "type name" pairs joined by ", ". */
  lemma {:induction false} ParametersJoined(m: Method, i: nat)
    requires i <= |m.parameters| <= |m.parameterTypeNames|
    ensures GParameters(m, i) == Ok(JoinedBy(", ", ParameterTexts(m)[i..]))
    decreases |m.parameters| - i
  {
    var ts := ParameterTexts(m);
    if i < |m.parameters| {
      ParametersJoined(m, i + 1);
      assert ts[i..][1..] == ts[i + 1..];
      if i == |m.parameters| - 1 {
        assert ts[i + 1..] == [];
        assert ts[i] + "" + "" == ts[i];
      }
    }
  }

  /** Too few type names: the parameter loop reads past the end of the list. */
  lemma {:induction false} ParametersNeedTypeNames(m: Method, i: nat)
    requires i <= |m.parameterTypeNames| < |m.parameters|
    ensures GParameters(m, i) == Err(IndexOutOfBounds)
    decreases |m.parameterTypeNames| - i
  {
    if i < |m.parameterTypeNames| {
      ParametersNeedTypeNames(m, i + 1);
    }
  }

  /** The parser records no parameter type names, so a parsed method with parameters
      cannot be written. */
  lemma UntypedParametersFail(nl: string, m: Method, ind: int)
    requires m.parameterTypeNames == [] && m.parameters != []
    ensures GMethod(nl, m, ind) == Err(IndexOutOfBounds)
  {
    ParametersNeedTypeNames(m, 0);
  }

  /** An empty body closes with "    }" alone; a non-empty one puts a line separator after it. */
  lemma MethodClosing(nl: string, m: Method, ind: int)
    requires GMethod(nl, m, ind).Ok?
    ensures var t := GMethod(nl, m, ind).value;
      if m.statements == [] then |t| >= 5 && t[|t| - 5..] == "    }"
      else |t| >= 5 + |nl| && t[|t| - |nl|..] == nl && t[|t| - |nl| - 5..|t| - |nl|] == "    }"
  {
    var p := GParameters(m, 0).value;
    var head := "    " + ReturnTypeText(m) + " " + m.name + "(" + p + ") {" + nl;
    if m.statements == [] {
      assert GMethod(nl, m, ind).value == head + "    }";
    } else {
      var b := GMethodBody(nl, m.statements, 0, ind).value;
      assert GMethod(nl, m, ind).value == head + b + "    }" + nl;
    }
  }

  // ---------------------------------------------------------------------------
  // Statements

  /** In an if branch with no repeated statement, a newline separates neighbours and none
      follows the last. */
  lemma {:induction false} BranchJoined(nl: string, all: seq<Stmt>, k: nat, ind: int)
    requires k <= |all| && Distinct(all) && StatementsOk(nl, all, ind)
    ensures GBranch(nl, all, k, ind) == Ok(JoinedBy(NewlineText(nl, ind), StatementTexts(nl, all, ind)[k..]))
    decreases |all| - k
  {
    var ts := StatementTexts(nl, all, ind);
    if k < |all| {
      BranchJoined(nl, all, k + 1, ind);
      var j := IndexOf(all, all[k]);
      assert j == k by {
        IndexOfFirst(all, all[k]);
        assert all[k] in all;
      }
      assert ts[k..][1..] == ts[k + 1..];
      if k == |all| - 1 {
        assert ts[k + 1..] == [];
        assert ts[k] + "" + "" == ts[k];
      }
    }
  }

  /** List.indexOf finds the first copy, so a branch whose last statement repeats an earlier
      one ends with a newline. */
  lemma RepeatedLastStatement(nl: string, ind: int)
    ensures var s := Expression(Access(None, "x", None));
      GBranch(nl, [s, s], 0, ind) == Ok("x;" + NewlineText(nl, ind) + "x;" + NewlineText(nl, ind))
  {
    var s := Expression(Access(None, "x", None));
    assert GExpr(Access(None, "x", None)) == Ok("x");
    assert "x" + ";" == "x;";
    assert GStmt(nl, s, ind) == Ok("x;");
    assert IndexOf([s, s], s) == 0;
    IndexOfFirst([s, s], s);
    assert GBranch(nl, [s, s], 2, ind) == Ok("");
    assert GBranch(nl, [s, s], 1, ind) == Ok("x;" + NewlineText(nl, ind) + "");
    assert "x;" + NewlineText(nl, ind) + ("x;" + NewlineText(nl, ind) + "")
        == "x;" + NewlineText(nl, ind) + "x;" + NewlineText(nl, ind);
  }

  /** The else part is written after the then part only when the else list is non-empty. */
  lemma ElseAppended(nl: string, c: Expr, t: seq<Stmt>, f: seq<Stmt>, ind: int)
    requires GIf(nl, If(c, t, []), ind).Ok? && f != []
    requires GBranch(nl, f, 0, ind + 1).Ok?
    ensures GIf(nl, If(c, t, f), ind)
         == Ok(GIf(nl, If(c, t, []), ind).value + " else {" + NewlineText(nl, ind + 1)
               + GBranch(nl, f, 0, ind + 1).value + NewlineText(nl, ind) + "}")
  {
  }

  lemma IfWithoutElse(nl: string, c: Expr, t: seq<Stmt>, ind: int)
    requires GExpr(c).Ok? && GBranch(nl, t, 0, ind + 1).Ok?
    ensures GStmt(nl, If(c, t, []), ind)
         == Ok("if (" + GExpr(c).value + ") {" + NewlineText(nl, ind + 1)
               + GBranch(nl, t, 0, ind + 1).value + NewlineText(nl, ind) + "}")
  {
  }

  /** The body of a for or while loop: a newline after every statement, the last included. */
  lemma {:induction false} LoopBodyTerminated(nl: string, ss: seq<Stmt>, k: nat, ind: int)
    requires k < |ss| && StatementsOk(nl, ss, ind)
    ensures GLoopBody(nl, ss, k, ind)
         == Ok(JoinedBy(NewlineText(nl, ind), StatementTexts(nl, ss, ind)[k..]) + NewlineText(nl, ind))
    decreases |ss| - k
  {
    var ts := StatementTexts(nl, ss, ind);
    var sep := NewlineText(nl, ind);
    assert ts[k..][1..] == ts[k + 1..];
    if k == |ss| - 1 {
      assert GLoopBody(nl, ss, k + 1, ind) == Ok("");
      assert ts[k] + sep + "" == ts[k] + sep;
    } else {
      LoopBodyTerminated(nl, ss, k + 1, ind);
      var rest := JoinedBy(sep, ts[k + 1..]);
      assert ts[k] + sep + (rest + sep) == ts[k] + sep + rest + sep;
    }
  }

  lemma EmptyWhile(nl: string, c: Expr, ind: int)
    requires GExpr(c).Ok?
    ensures GStmt(nl, While(c, []), ind) == Ok("while (" + GExpr(c).value + ") { }")
  {
  }

  /** A for loop is written, although the interpreter of this model, where no value is an
      Iterable, cannot run one. */
  lemma ForText(nl: string, x: string, v: Expr, ss: seq<Stmt>, ind: int)
    requires GExpr(v).Ok? && ss != [] && StatementsOk(nl, ss, ind + 1)
    ensures GStmt(nl, For(x, v, ss), ind)
         == Ok("for (int " + x + " : " + GExpr(v).value + ") {" + NewlineText(nl, ind + 1)
               + JoinedBy(NewlineText(nl, ind + 1), StatementTexts(nl, ss, ind + 1)) + NewlineText(nl, ind + 1)
               + NewlineText(nl, ind) + "    }")
  {
    LoopBodyTerminated(nl, ss, 0, ind + 1);
    var ts := StatementTexts(nl, ss, ind + 1);
    assert ts[0..] == ts;
    var head := "for (int " + x + " : " + GExpr(v).value + ") {" + NewlineText(nl, ind + 1);
    var j := JoinedBy(NewlineText(nl, ind + 1), ts);
    assert head + (j + NewlineText(nl, ind + 1)) == head + j + NewlineText(nl, ind + 1);
  }

  // ---------------------------------------------------------------------------
  // The source

  /** A program is one class Main, opened first and closed last. */
  lemma SourceFrame(nl: string, src: Source, ind: int)
    requires GSource(nl, src, ind).Ok?
    ensures var t := GSource(nl, src, ind).value;
      |t| > 19 && t[..19] == "public class Main {" && t[|t| - 1] == '}'
  {
    var f := GFields(src.fields, 0).value;
    var m := GMethods(nl, src.methods, 0, ind - 1).value;
    var t := SourceHead(nl, ind) + f + m + NewlineText(nl, ind - 2) + "}";
    assert GSource(nl, src, ind).value == t;
    assert SourceHead(nl, ind)[..19] == "public class Main {";
  }

  /** Fields are written back to back, with no separator of their own. */
  lemma {:induction false} FieldsConcatenated(fs: seq<Field>, k: nat)
    requires k <= |fs| && forall i :: 0 <= i < |fs| ==> GField(fs[i]).Ok?
    ensures GFields(fs, k).Ok?
    ensures k < |fs| ==> GFields(fs, k).value == GField(fs[k]).value + GFields(fs, k + 1).value
    decreases |fs| - k
  {
    if k < |fs| {
      FieldsConcatenated(fs, k + 1);
    }
  }

  // ---------------------------------------------------------------------------
  // Failure: printing throws only on a null literal, a print call without arguments, or a
  // method with fewer parameter type names than parameters.

  /** No null literal and no print call without arguments anywhere in the expression:
      the two faults printing an expression can meet. */
  predicate Printable(e: Expr)
    decreases ExprSize(e), 1
  {
    match e
    case Literal(lit, _) => !lit.NullLit?
    case Group(inner, _) => Printable(inner)
    case Binary(_, left, right, _) => Printable(left) && Printable(right)
    case Access(receiver, _, _) => receiver.Some? ==> Printable(receiver.value)
    case Call(receiver, name, args, _) =>
      (name == "print" ==> args != []) && (receiver.Some? ==> Printable(receiver.value)) && AllPrintable(args, 0)
  }

  predicate AllPrintable(args: seq<Expr>, i: nat)
    requires i <= |args|
    decreases ExprsSize(args), 2, |args| - i
  {
    i == |args| || (ExprsSizeElement(args, i); Printable(args[i]) && AllPrintable(args, i + 1))
  }

  /** Every expression of the statement is printable. */
  predicate PrintableStmt(s: Stmt)
    decreases StmtSize(s), 1
  {
    match s
    case Expression(e) => Printable(e)
    case Declaration(_, _, init, _) => init.Some? ==> Printable(init.value)
    case Assignment(receiver, value) => Printable(receiver) && Printable(value)
    case If(c, thens, elses) => Printable(c) && AllPrintableStmts(thens, 0) && AllPrintableStmts(elses, 0)
    case For(_, it, body) => Printable(it) && AllPrintableStmts(body, 0)
    case While(c, body) => Printable(c) && AllPrintableStmts(body, 0)
    case Return(value) => Printable(value)
  }

  predicate AllPrintableStmts(ss: seq<Stmt>, k: nat)
    requires k <= |ss|
    decreases StmtsSize(ss), 2, |ss| - k
  {
    k == |ss| || (StmtsSizeElement(ss, k); PrintableStmt(ss[k]) && AllPrintableStmts(ss, k + 1))
  }

  predicate PrintableField(f: Field) {
    f.initializer.Some? ==> Printable(f.initializer.value)
  }

  /** A type name for every parameter, and a printable body. */
  predicate PrintableMethod(m: Method) {
    |m.parameters| <= |m.parameterTypeNames| && AllPrintableStmts(m.statements, 0)
  }

  predicate AllPrintableFields(fs: seq<Field>, k: nat)
    requires k <= |fs|
    decreases |fs| - k
  {
    k == |fs| || (PrintableField(fs[k]) && AllPrintableFields(fs, k + 1))
  }

  predicate AllPrintableMethods(ms: seq<Method>, k: nat)
    requires k <= |ms|
    decreases |ms| - k
  {
    k == |ms| || (PrintableMethod(ms[k]) && AllPrintableMethods(ms, k + 1))
  }

  predicate PrintableSource(src: Source) {
    AllPrintableFields(src.fields, 0) && AllPrintableMethods(src.methods, 0)
  }


  lemma {:induction false} ExprPrints(e: Expr)
    requires Printable(e)
    ensures GExpr(e).Ok?
    decreases ExprSize(e), 1
  {
    match e
    case Literal(_, _) =>
    case Group(inner, _) => ExprPrints(inner);
    case Binary(_, left, right, _) =>
      ExprPrints(left);
      ExprPrints(right);
    case Access(receiver, _, _) =>
      if receiver.Some? {
        ExprPrints(receiver.value);
      }
    case Call(receiver, name, args, _) =>
      if name == "print" {
        ExprsSizeElement(args, 0);
        ExprPrints(args[0]);
      } else {
        if receiver.Some? {
          ExprPrints(receiver.value);
        }
        ArgumentsPrint(args, 0);
      }
  }

  lemma {:induction false} ArgumentsPrint(args: seq<Expr>, i: nat)
    requires i <= |args| && AllPrintable(args, i)
    ensures GArguments(args, i).Ok?
    decreases ExprsSize(args), 2, |args| - i
  {
    if i < |args| {
      ExprsSizeElement(args, i);
      ExprPrints(args[i]);
      ArgumentsPrint(args, i + 1);
    }
  }

  lemma {:induction false} StmtPrints(nl: string, s: Stmt, ind: int)
    requires PrintableStmt(s)
    ensures GStmt(nl, s, ind).Ok?
    decreases StmtSize(s), 1
  {
    match s
    case Expression(e) => ExprPrints(e);
    case Declaration(_, _, init, _) =>
      if init.Some? {
        ExprPrints(init.value);
      }
    case Assignment(receiver, value) =>
      ExprPrints(receiver);
      ExprPrints(value);
    case If(c, thens, elses) =>
      ExprPrints(c);
      BranchPrints(nl, thens, 0, ind + 1);
      BranchPrints(nl, elses, 0, ind + 1);
    case For(_, it, body) =>
      ExprPrints(it);
      LoopBodyPrints(nl, body, 0, ind + 1);
    case While(c, body) =>
      ExprPrints(c);
      LoopBodyPrints(nl, body, 0, ind + 1);
    case Return(value) => ExprPrints(value);
  }

  lemma {:induction false} BranchPrints(nl: string, all: seq<Stmt>, k: nat, ind: int)
    requires k <= |all| && AllPrintableStmts(all, k)
    ensures GBranch(nl, all, k, ind).Ok?
    decreases StmtsSize(all), 2, |all| - k
  {
    if k < |all| {
      StmtsSizeElement(all, k);
      StmtPrints(nl, all[k], ind);
      BranchPrints(nl, all, k + 1, ind);
    }
  }

  lemma {:induction false} LoopBodyPrints(nl: string, ss: seq<Stmt>, k: nat, ind: int)
    requires k <= |ss| && AllPrintableStmts(ss, k)
    ensures GLoopBody(nl, ss, k, ind).Ok?
    decreases StmtsSize(ss), 2, |ss| - k
  {
    if k < |ss| {
      StmtsSizeElement(ss, k);
      StmtPrints(nl, ss[k], ind);
      LoopBodyPrints(nl, ss, k + 1, ind);
    }
  }

  lemma {:induction false} MethodBodyPrints(nl: string, ss: seq<Stmt>, k: nat, ind: int)
    requires k <= |ss| && AllPrintableStmts(ss, k)
    ensures GMethodBody(nl, ss, k, ind).Ok?
    decreases |ss| - k
  {
    if k < |ss| {
      StmtPrints(nl, ss[k], ind);
      MethodBodyPrints(nl, ss, k + 1, ind);
    }
  }

  /** A method fails exactly on a missing parameter type name or an unprintable body
      statement; with a type name per parameter and a printable body it prints. */
  lemma MethodPrints(nl: string, m: Method, ind: int)
    requires PrintableMethod(m)
    ensures GMethod(nl, m, ind).Ok?
  {
    ParametersJoined(m, 0);
    MethodBodyPrints(nl, m.statements, 0, ind);
  }

  lemma {:induction false} FieldsPrint(fs: seq<Field>, k: nat)
    requires k <= |fs| && AllPrintableFields(fs, k)
    ensures GFields(fs, k).Ok?
    decreases |fs| - k
  {
    if k < |fs| {
      if fs[k].initializer.Some? {
        ExprPrints(fs[k].initializer.value);
      }
      FieldsPrint(fs, k + 1);
    }
  }

  lemma {:induction false} MethodsPrint(nl: string, ms: seq<Method>, k: nat, ind: int)
    requires k <= |ms| && AllPrintableMethods(ms, k)
    ensures GMethods(nl, ms, k, ind).Ok?
    decreases |ms| - k
  {
    if k < |ms| {
      MethodPrints(nl, ms[k], ind);
      MethodsPrint(nl, ms, k + 1, ind);
    }
  }

  /** generate(source) throws nothing on a source whose every field and method prints. */
  lemma SourcePrints(nl: string, src: Source, ind: int)
    requires PrintableSource(src)
    ensures GSource(nl, src, ind).Ok?
  {
    FieldsPrint(src.fields, 0);
    MethodsPrint(nl, src.methods, 0, ind - 1);
  }
}
