/**
 * Generator.java: prints an analysed AST as Java source. The writer is the text written
 * so far, `indent` the nesting counter, and `nl` the platform line separator.
 * Each visit is proved to append exactly the text of a function of the node.
 */
module Generation {
  import opened Wrappers
  import opened Numbers
  import opened Ast

  /** The exceptions printing can raise: a list read past its end, and toString of null. */
  datatype GenError = IndexOutOfBounds | NullPointer

  type Text = Result<string, GenError>

  /** Text written before the text of the rest, unless the rest fails. */
  function Prefix(done: string, rest: Text): (r: Text)
    ensures r.Ok? <==> rest.Ok?
  {
    if rest.Err? then rest else Ok(done + rest.value)
  }

  lemma PrefixTwice(a: string, b: string, rest: Text)
    ensures Prefix(a, Prefix(b, rest)) == Prefix(a + b, rest)
  {
    if rest.Ok? {
      assert a + (b + rest.value) == (a + b) + rest.value;
    }
  }

  /** One more piece written after the text so far. */
  lemma Grow(w: string, done: string, piece: string)
    ensures w + done + piece == w + (done + piece)
  {
  }

  lemma PrefixEmpty(rest: Text)
    ensures Prefix("", rest) == rest
  {
    if rest.Ok? {
      assert "" + rest.value == rest.value;
    }
  }

  /** `n` levels of four spaces; none when n <= 0. */
  function Spaces(n: int): (s: string)
    decreases n
  {
    if n <= 0 then "" else Spaces(n - 1) + "    "
  }

  /** What newline(n) writes. */
  function NewlineText(nl: string, n: int): (r: string)
  {
    nl + Spaces(n)
  }

  /** The Java spelling of a PLC type name in a declaration. */
  function JavaType(name: string): (r: string)
    ensures r in {"double", "int", "String", "boolean", "Object"}
  {
    if name == "Decimal" then "double"
    else if name == "Integer" then "int"
    else if name == "String" then "String"
    else if name == "Boolean" then "boolean"
    else "Object"
  }

  /** An explicit type name comes first, then the type of the resolved variable. */
  function DeclarationType(s: Stmt): (r: string)
    requires s.Declaration?
    ensures r in {"double", "int", "String", "boolean", "Object"}
  {
    if s.typeName.Some? then JavaType(s.typeName.value)
    else if s.variable.Some? then JavaType(NameOf(s.variable.value.ty))
    else "Object"
  }

  /** A method's return type: Any when absent, int for Integer, otherwise as written. */
  function ReturnTypeText(m: Method): (r: string)
    ensures r != "Integer"
    ensures r == "int" <==> m.returnTypeName == Some("Integer") || m.returnTypeName == Some("int")
  {
    var t := if m.returnTypeName.Some? then m.returnTypeName.value else "Any";
    if t == "Integer" then "int" else t
  }

  /** List.indexOf: the first position holding an equal statement, or -1. */
  function IndexOf(ss: seq<Stmt>, x: Stmt): (k: int)
    ensures -1 <= k < |ss|
  {
    if ss == [] then -1
    else if ss[0] == x then 0
    else
      var k := IndexOf(ss[1..], x);
      if k == -1 then -1 else k + 1
  }

  lemma {:induction false} IndexOfFirst(ss: seq<Stmt>, x: Stmt)
    ensures var k := IndexOf(ss, x);
      (k >= 0 ==> ss[k] == x && forall j :: 0 <= j < k ==> ss[j] != x) && (k == -1 <==> x !in ss)
  {
    if ss != [] && ss[0] != x {
      IndexOfFirst(ss[1..], x);
      assert forall j :: 1 <= j < |ss| ==> ss[j] == ss[1..][j - 1];
    }
  }

  // ---------------------------------------------------------------------------
  // Expressions

  function LiteralText(lit: Literal): (r: Text)
    ensures r.Err? <==> lit.NullLit?
    ensures lit.IntLit? ==> ParseBigInteger(r.value) == Some(lit.i)
  {
    match lit
    case NullLit => Err(NullPointer)
    case BoolLit(b) => Ok(if b then "true" else "false")
    case IntLit(i) => IntegerTextRoundTrip(i); Ok(IntToString(i))
    case DecLit(d) => Ok(DecToString(d))
    case CharLit(c) => Ok([c])
    case StrLit(s) => Ok("\"" + s + "\"")
  }

  function GExpr(e: Expr): (r: Text)
    decreases ExprSize(e), 1
  {
    match e
    case Literal(lit, _) => LiteralText(lit)
    case Group(inner, _) =>
      (match GExpr(inner)
       case Err(x) => Err(x)
       case Ok(t) => Ok("(" + t + ")"))
    case Binary(op, left, right, _) =>
      (match GExpr(left)
       case Err(x) => Err(x)
       case Ok(l) =>
         match GExpr(right)
         case Err(x) => Err(x)
         case Ok(r) => Ok(l + " " + (if op == "AND" then "&&" else op) + " " + r))
    case Access(receiver, name, _) =>
      if receiver.Some? then
        match GExpr(receiver.value)
        case Err(x) => Err(x)
        case Ok(t) => Ok(t + "." + name)
      else Ok(name)
    case Call(receiver, name, args, _) =>
      if name == "print" then
        if args == [] then Err(IndexOutOfBounds)
        else
          ExprsSizeElement(args, 0);
          match GExpr(args[0])
          case Err(x) => Err(x)
          case Ok(t) => Ok("System.out.println(" + t + ")")
      else
        var callee := if name == "slice" then "substring" else name;
        var head: Text :=
          if receiver.Some? then
            (match GExpr(receiver.value)
             case Err(x) => Err(x)
             case Ok(t) => Ok(t + "."))
          else Ok("");
        match head
        case Err(x) => Err(x)
        case Ok(h) =>
          match GArguments(args, 0)
          case Err(x) => Err(x)
          case Ok(a) => Ok(h + callee + "(" + a + ")")
  }

  /** The argument loop: each argument, with ", " after all but the last. */
  function GArguments(args: seq<Expr>, i: nat): (r: Text)
    requires i <= |args|
    decreases ExprsSize(args), 2, |args| - i
  {
    if i == |args| then Ok("")
    else
      ExprsSizeElement(args, i);
      match GExpr(args[i])
      case Err(x) => Err(x)
      case Ok(t) => Prefix(t + (if i < |args| - 1 then ", " else ""), GArguments(args, i + 1))
  }

  // ---------------------------------------------------------------------------
  // Statements; `ind` is the value of the indent counter when the statement is visited

  function GStmt(nl: string, s: Stmt, ind: int): (r: Text)
    decreases StmtSize(s), 2
  {
    match s
    case Expression(e) =>
      (match GExpr(e)
       case Err(x) => Err(x)
       case Ok(t) => Ok(t + ";"))
    case Declaration(name, _, init, _) =>
      var head := DeclarationType(s) + " " + name;
      if init.Some? then
        match GExpr(init.value)
        case Err(x) => Err(x)
        case Ok(t) => Ok(head + " = " + t + ";")
      else Ok(head + ";")
    case Assignment(receiver, value) =>
      (match GExpr(receiver)
       case Err(x) => Err(x)
       case Ok(rc) =>
         match GExpr(value)
         case Err(x) => Err(x)
         case Ok(v) => Ok(rc + " = " + v + ";"))
    case If(_, _, _) => GIf(nl, s, ind)
    case For(_, _, _) => GFor(nl, s, ind)
    case While(_, _) => GWhile(nl, s, ind)
    case Return(value) =>
      (match GExpr(value)
       case Err(x) => Err(x)
       case Ok(t) => Ok("return " + t + ";"))
  }

  /**
   * The statements of an if branch: a newline follows a statement unless the first
   * occurrence of an equal statement is the last one of the list.
   */
  function GBranch(nl: string, all: seq<Stmt>, k: nat, ind: int): (r: Text)
    requires k <= |all|
    decreases StmtsSize(all), 3, |all| - k
  {
    if k == |all| then Ok("")
    else
      StmtsSizeElement(all, k);
      match GStmt(nl, all[k], ind)
      case Err(x) => Err(x)
      case Ok(t) =>
        var sep := if IndexOf(all, all[k]) < |all| - 1 then NewlineText(nl, ind) else "";
        Prefix(t + sep, GBranch(nl, all, k + 1, ind))
  }

  /** The body of a for or while loop: every statement followed by a newline. */
  function GLoopBody(nl: string, ss: seq<Stmt>, k: nat, ind: int): (r: Text)
    requires k <= |ss|
    decreases StmtsSize(ss), 3, |ss| - k
  {
    if k == |ss| then Ok("")
    else
      StmtsSizeElement(ss, k);
      match GStmt(nl, ss[k], ind)
      case Err(x) => Err(x)
      case Ok(t) => Prefix(t + NewlineText(nl, ind), GLoopBody(nl, ss, k + 1, ind))
  }

  function GIf(nl: string, s: Stmt, ind: int): (r: Text)
    requires s.If?
    decreases StmtSize(s), 1
  {
    match GExpr(s.condition)
    case Err(x) => Err(x)
    case Ok(c) =>
      match GBranch(nl, s.thenStatements, 0, ind + 1)
      case Err(x) => Err(x)
      case Ok(t) =>
        var head := "if (" + c + ") {" + NewlineText(nl, ind + 1) + t + NewlineText(nl, ind) + "}";
        if s.elseStatements == [] then Ok(head)
        else
          match GBranch(nl, s.elseStatements, 0, ind + 1)
          case Err(x) => Err(x)
          case Ok(f) => Ok(head + " else {" + NewlineText(nl, ind + 1) + f + NewlineText(nl, ind) + "}")
  }

  function GFor(nl: string, s: Stmt, ind: int): (r: Text)
    requires s.For?
    decreases StmtSize(s), 1
  {
    match GExpr(s.iterable)
    case Err(x) => Err(x)
    case Ok(v) =>
      match GLoopBody(nl, s.statements, 0, ind + 1)
      case Err(x) => Err(x)
      case Ok(b) =>
        Ok("for (int " + s.name + " : " + v + ") {" + NewlineText(nl, ind + 1) + b
           + NewlineText(nl, ind) + "    }")
  }

  function GWhile(nl: string, s: Stmt, ind: int): (r: Text)
    requires s.While?
    decreases StmtSize(s), 1
  {
    match GExpr(s.condition)
    case Err(x) => Err(x)
    case Ok(c) =>
      if s.statements == [] then Ok("while (" + c + ") { }")
      else
        match GLoopBody(nl, s.statements, 0, ind + 1)
        case Err(x) => Err(x)
        case Ok(b) =>
          Ok("while (" + c + ") {" + NewlineText(nl, ind + 1) + b + NewlineText(nl, ind) + "    }")
  }

  // ---------------------------------------------------------------------------
  // Fields, methods and the source

  /** A field prints its type name as a string, so an absent one prints as "null". */
  function GField(f: Field): (r: Text)
    ensures r.Ok? ==> |r.value| > 0 && r.value[|r.value| - 1] == ';'
  {
    var head := (if f.typeName.Some? then f.typeName.value else "null") + " " + f.name;
    if f.initializer.Some? then
      match GExpr(f.initializer.value)
      case Err(x) => Err(x)
      case Ok(t) => Ok(head + " = " + t + ";")
    else Ok(head + ";")
  }

  /** The parameter loop reads the type name at each parameter's position. */
  function GParameters(m: Method, i: nat): (r: Text)
    requires i <= |m.parameters|
    decreases |m.parameters| - i
  {
    if i == |m.parameters| then Ok("")
    else if i >= |m.parameterTypeNames| then Err(IndexOutOfBounds)
    else
      var sep := if i < |m.parameters| - 1 then ", " else "";
      Prefix(m.parameterTypeNames[i] + " " + m.parameters[i] + sep, GParameters(m, i + 1))
  }

  /** A method body: each statement on its own line after eight spaces. */
  function GMethodBody(nl: string, ss: seq<Stmt>, k: nat, ind: int): (r: Text)
    requires k <= |ss|
    decreases |ss| - k
  {
    if k == |ss| then Ok("")
    else
      match GStmt(nl, ss[k], ind)
      case Err(x) => Err(x)
      case Ok(t) => Prefix("        " + t + nl, GMethodBody(nl, ss, k + 1, ind))
  }

  function GMethod(nl: string, m: Method, ind: int): (r: Text)
  {
    match GParameters(m, 0)
    case Err(x) => Err(x)
    case Ok(p) =>
      var head := "    " + ReturnTypeText(m) + " " + m.name + "(" + p + ") {" + nl;
      if m.statements == [] then Ok(head + "    }")
      else
        match GMethodBody(nl, m.statements, 0, ind)
        case Err(x) => Err(x)
        case Ok(b) => Ok(head + b + "    }" + nl)
  }

  function GFields(fs: seq<Field>, k: nat): (r: Text)
    requires k <= |fs|
    decreases |fs| - k
  {
    if k == |fs| then Ok("")
    else
      match GField(fs[k])
      case Err(x) => Err(x)
      case Ok(t) => Prefix(t, GFields(fs, k + 1))
  }

  function GMethods(nl: string, ms: seq<Method>, k: nat, ind: int): (r: Text)
    requires k <= |ms|
    decreases |ms| - k
  {
    if k == |ms| then Ok("")
    else
      match GMethod(nl, ms[k], ind)
      case Err(x) => Err(x)
      case Ok(t) => Prefix(t, GMethods(nl, ms, k + 1, ind))
  }

  /** The text before the fields; visiting a source lowers the indent counter twice. */
  function SourceHead(nl: string, ind: int): (r: string)
    ensures ind <= 0 ==>
      r == "public class Main {" + nl + nl + "    public static void main(String[] args) {" + nl +
        "        System.exit(new Main().main());" + nl + "    }" + nl + nl
  {
    ("public class Main {" + nl) + NewlineText(nl, ind)
    + ("    public static void main(String[] args) {" + nl)
    + "        System.exit(new Main().main());" + NewlineText(nl, ind - 1)
    + ("    }" + nl) + NewlineText(nl, ind - 1)
  }

  function GSource(nl: string, src: Source, ind: int): (r: Text)
  {
    match GFields(src.fields, 0)
    case Err(x) => Err(x)
    case Ok(f) =>
      match GMethods(nl, src.methods, 0, ind - 1)
      case Err(x) => Err(x)
      case Ok(m) => Ok(SourceHead(nl, ind) + f + m + NewlineText(nl, ind - 2) + "}")
  }

  /** A visit that returns `r` wrote exactly the text `spec` after `before`, or failed as it does. */
  predicate Wrote(r: Result<(), GenError>, spec: Text, before: string, after: string) {
    if spec.Ok? then r.Ok? && after == before + spec.value else r == Err(spec.error)
  }

  // ---------------------------------------------------------------------------
  // The generator: a writer that only grows and an indent counter

  class Generator {
    var writer: string
    var indent: int
    const nl: string

    constructor(nl: string)
      ensures writer == "" && indent == 0 && this.nl == nl
    {
      writer := "";
      indent := 0;
      this.nl := nl;
    }

    method Print(text: string)
      modifies this
      ensures writer == old(writer) + text && indent == old(indent)
    {
      writer := writer + text;
    }

    method Newline(n: int)
      modifies this
      ensures writer == old(writer) + NewlineText(nl, n) && indent == old(indent)
    {
      Print(nl);
      var i := 0;
      while i < n
        invariant (if n <= 0 then i == 0 else 0 <= i <= n)
        invariant writer == old(writer) + (nl + Spaces(i)) && indent == old(indent)
      {
        Print("    ");
        Grow(old(writer), nl + Spaces(i), "    ");
        Grow(nl, Spaces(i), "    ");
        i := i + 1;
      }
    }

    /** visit(Source): the program text, lowering the indent counter by two. */
    method VisitSource(src: Source) returns (r: Result<(), GenError>)
      modifies this
      ensures Wrote(r, GSource(nl, src, old(indent)), old(writer), writer)
      ensures r.Ok? ==> indent == old(indent) - 2
    {
      ghost var ind := indent;
      PrintPrologue();
      ghost var done := SourceHead(nl, ind);
      r := VisitFields(src.fields);
      if r.Err? {
        return;
      }
      Grow(old(writer), done, GFields(src.fields, 0).value);
      done := done + GFields(src.fields, 0).value;
      r := VisitMethods(src.methods);
      if r.Err? {
        return;
      }
      Grow(old(writer), done, GMethods(nl, src.methods, 0, ind - 1).value);
      done := done + GMethods(nl, src.methods, 0, ind - 1).value;
      assert writer == old(writer) + done;
      indent := indent - 1;
      Newline(indent);
      Grow(old(writer), done, NewlineText(nl, ind - 2));
      done := done + NewlineText(nl, ind - 2);
      Print("}");
      Grow(old(writer), done, "}");
    }

    /** The class header and the generated entry point, which lower the indent once. */
    method PrintPrologue()
      modifies this
      ensures writer == old(writer) + SourceHead(nl, old(indent)) && indent == old(indent) - 1
    {
      ghost var ind := indent;
      ghost var done := "public class Main {" + nl;
      Print("public class Main {" + nl);
      Newline(indent);
      Grow(old(writer), done, NewlineText(nl, ind));
      done := done + NewlineText(nl, ind);
      Print("    public static void main(String[] args) {" + nl);
      Grow(old(writer), done, ("    public static void main(String[] args) {" + nl));
      done := done + ("    public static void main(String[] args) {" + nl);
      Print("        System.exit(new Main().main());");
      Grow(old(writer), done, "        System.exit(new Main().main());");
      done := done + "        System.exit(new Main().main());";
      indent := indent - 1;
      Newline(indent);
      Grow(old(writer), done, NewlineText(nl, ind - 1));
      done := done + NewlineText(nl, ind - 1);
      Print("    }" + nl);
      Grow(old(writer), done, ("    }" + nl));
      done := done + ("    }" + nl);
      Newline(indent);
      Grow(old(writer), done, NewlineText(nl, ind - 1));
    }

    /** The source's loop over its fields. */
    method VisitFields(fs: seq<Field>) returns (r: Result<(), GenError>)
      modifies this
      ensures Wrote(r, GFields(fs, 0), old(writer), writer) && indent == old(indent)
    {
      ghost var goal := GFields(fs, 0);
      ghost var done := "";
      PrefixEmpty(goal);
      var k := 0;
      while k < |fs|
        invariant k <= |fs| && writer == old(writer) + done && indent == old(indent)
        invariant Prefix(done, GFields(fs, k)) == goal
      {
        r := VisitField(fs[k]);
        if r.Err? {
          return;
        }
        ghost var t := GField(fs[k]).value;
        PrefixTwice(done, t, GFields(fs, k + 1));
        done := done + t;
        k := k + 1;
      }
      r := Ok(());
    }

    /** The source's loop over its methods. */
    method VisitMethods(ms: seq<Method>) returns (r: Result<(), GenError>)
      modifies this
      ensures Wrote(r, GMethods(nl, ms, 0, old(indent)), old(writer), writer)
      ensures r.Ok? ==> indent == old(indent)
    {
      ghost var goal := GMethods(nl, ms, 0, indent);
      ghost var done := "";
      PrefixEmpty(goal);
      var k := 0;
      while k < |ms|
        invariant k <= |ms| && writer == old(writer) + done && indent == old(indent)
        invariant Prefix(done, GMethods(nl, ms, k, indent)) == goal
      {
        r := VisitMethod(ms[k]);
        if r.Err? {
          return;
        }
        ghost var t := GMethod(nl, ms[k], indent).value;
        PrefixTwice(done, t, GMethods(nl, ms, k + 1, indent));
        done := done + t;
        k := k + 1;
      }
      r := Ok(());
    }

    method VisitField(f: Field) returns (r: Result<(), GenError>)
      modifies this
      ensures Wrote(r, GField(f), old(writer), writer) && indent == old(indent)
    {
      ghost var done := (if f.typeName.Some? then f.typeName.value else "null") + " " + f.name;
      Print((if f.typeName.Some? then f.typeName.value else "null") + " " + f.name);
      if f.initializer.Some? {
        Print(" = ");
        Grow(old(writer), done, " = ");
        done := done + " = ";
        assert writer == old(writer) + done;
        r := VisitExpr(f.initializer.value);
        if r.Err? {
          return;
        }
        Grow(old(writer), done, GExpr(f.initializer.value).value);
        done := done + GExpr(f.initializer.value).value;
        assert writer == old(writer) + done;
      }
      Print(";");
      Grow(old(writer), done, ";");
      done := done + ";";
      assert writer == old(writer) + done;
      r := Ok(());
    }

    method VisitMethod(m: Method) returns (r: Result<(), GenError>)
      modifies this
      ensures Wrote(r, GMethod(nl, m, old(indent)), old(writer), writer)
      ensures r.Ok? ==> indent == old(indent)
    {
      ghost var done := "    " + ReturnTypeText(m) + " " + m.name + "(";
      Print("    " + ReturnTypeText(m) + " " + m.name + "(");
      r := VisitParameters(m);
      if r.Err? {
        return;
      }
      Grow(old(writer), done, GParameters(m, 0).value);
      done := done + GParameters(m, 0).value;
      assert writer == old(writer) + done;
      Print(") {" + nl);
      Grow(old(writer), done, ") {" + nl);
      done := done + ") {" + nl;
      assert writer == old(writer) + done;
      if m.statements == [] {
        Print("    }");
        Grow(old(writer), done, "    }");
        done := done + "    }";
        assert writer == old(writer) + done;
      } else {
        r := VisitMethodBody(m.statements);
        if r.Err? {
          return;
        }
        Grow(old(writer), done, GMethodBody(nl, m.statements, 0, indent).value);
        done := done + GMethodBody(nl, m.statements, 0, indent).value;
        assert writer == old(writer) + done;
        Print("    }");
        Grow(old(writer), done, "    }");
        done := done + "    }";
        assert writer == old(writer) + done;
        Print(nl);
        Grow(old(writer), done, nl);
        done := done + nl;
        assert writer == old(writer) + done;
      }
      assert writer == old(writer) + done;
      r := Ok(());
    }

    /** The parameter loop of a method's header. */
    method VisitParameters(m: Method) returns (r: Result<(), GenError>)
      modifies this
      ensures Wrote(r, GParameters(m, 0), old(writer), writer) && indent == old(indent)
    {
      ghost var goal := GParameters(m, 0);
      ghost var done := "";
      PrefixEmpty(goal);
      var i := 0;
      while i < |m.parameters|
        invariant i <= |m.parameters| && writer == old(writer) + done && indent == old(indent)
        invariant Prefix(done, GParameters(m, i)) == goal
      {
        if i >= |m.parameterTypeNames| {
          return Err(IndexOutOfBounds);
        }
        var text := m.parameterTypeNames[i] + " " + m.parameters[i];
        Print(text);
        var sep := "";
        if i < |m.parameters| - 1 {
          sep := ", ";
          Print(sep);
        }
        PrefixTwice(done, text + sep, GParameters(m, i + 1));
        done := done + (text + sep);
        i := i + 1;
      }
      r := Ok(());
    }

    /** The statement loop of a method body. */
    method VisitMethodBody(ss: seq<Stmt>) returns (r: Result<(), GenError>)
      modifies this
      ensures Wrote(r, GMethodBody(nl, ss, 0, old(indent)), old(writer), writer)
      ensures r.Ok? ==> indent == old(indent)
    {
      ghost var ind := indent;
      ghost var goal := GMethodBody(nl, ss, 0, ind);
      ghost var done := "";
      PrefixEmpty(goal);
      var k := 0;
      while k < |ss|
        invariant k <= |ss| && writer == old(writer) + done && indent == ind
        invariant Prefix(done, GMethodBody(nl, ss, k, ind)) == goal
      {
        Print("        ");
        r := VisitStmt(ss[k]);
        if r.Err? {
          return;
        }
        Print(nl);
        ghost var piece := "        " + GStmt(nl, ss[k], ind).value + nl;
        PrefixTwice(done, piece, GMethodBody(nl, ss, k + 1, ind));
        done := done + piece;
        k := k + 1;
      }
      r := Ok(());
    }

    method VisitStmt(s: Stmt) returns (r: Result<(), GenError>)
      modifies this
      ensures Wrote(r, GStmt(nl, s, old(indent)), old(writer), writer)
      ensures r.Ok? ==> indent == old(indent)
      decreases StmtSize(s), 2
    {
      match s
      case Expression(e) =>
        r := VisitExpr(e);
        if r.Ok? {
          Print(";");
        }
      case Declaration(name, _, init, _) =>
        ghost var done := DeclarationType(s) + " " + name;
        Print(DeclarationType(s) + " " + name);
        if init.Some? {
          Print(" = ");
          Grow(old(writer), done, " = ");
          done := done + " = ";
          assert writer == old(writer) + done;
          r := VisitExpr(init.value);
          if r.Err? {
            return;
          }
          Grow(old(writer), done, GExpr(init.value).value);
          done := done + GExpr(init.value).value;
          assert writer == old(writer) + done;
        }
        Print(";");
        Grow(old(writer), done, ";");
        done := done + ";";
        assert writer == old(writer) + done;
        r := Ok(());
      case Assignment(receiver, value) =>
        r := VisitExpr(receiver);
        if r.Err? {
          return;
        }
        ghost var done := GExpr(receiver).value;
        Print(" = ");
        Grow(old(writer), done, " = ");
        done := done + " = ";
        assert writer == old(writer) + done;
        r := VisitExpr(value);
        if r.Err? {
          return;
        }
        Grow(old(writer), done, GExpr(value).value);
        done := done + GExpr(value).value;
        assert writer == old(writer) + done;
        Print(";");
        Grow(old(writer), done, ";");
        done := done + ";";
        assert writer == old(writer) + done;
      case If(_, _, _) =>
        r := VisitIf(s);
      case For(_, _, _) =>
        r := VisitFor(s);
      case While(_, _) =>
        r := VisitWhile(s);
      case Return(value) =>
        Print("return ");
        r := VisitExpr(value);
        if r.Ok? {
          ghost var done := "return " + GExpr(value).value;
          assert writer == old(writer) + done;
          Print(";");
          Grow(old(writer), done, ";");
          done := done + ";";
          assert writer == old(writer) + done;
        }
    }

    /** One branch of an if, visited at the raised indent. */
    method VisitBranch(all: seq<Stmt>) returns (r: Result<(), GenError>)
      modifies this
      ensures Wrote(r, GBranch(nl, all, 0, old(indent)), old(writer), writer)
      ensures r.Ok? ==> indent == old(indent)
      decreases StmtsSize(all), 3
    {
      ghost var ind := indent;
      ghost var goal := GBranch(nl, all, 0, ind);
      ghost var done := "";
      PrefixEmpty(goal);
      var k := 0;
      while k < |all|
        invariant k <= |all| && writer == old(writer) + done && indent == ind
        invariant Prefix(done, GBranch(nl, all, k, ind)) == goal
      {
        ghost var w := writer;
        StmtsSizeElement(all, k);
        r := VisitStmt(all[k]);
        if r.Err? {
          return;
        }
        ghost var t := GStmt(nl, all[k], ind).value;
        ghost var piece := t + "";
        if IndexOf(all, all[k]) < |all| - 1 {
          Newline(indent);
          piece := t + NewlineText(nl, ind);
        }
        assert writer == w + piece;
        Grow(old(writer), done, piece);
        PrefixTwice(done, piece, GBranch(nl, all, k + 1, ind));
        done := done + piece;
        k := k + 1;
      }
      r := Ok(());
    }

    /** The body of a for or while loop, visited at the raised indent. */
    method VisitLoopBody(ss: seq<Stmt>) returns (r: Result<(), GenError>)
      modifies this
      ensures Wrote(r, GLoopBody(nl, ss, 0, old(indent)), old(writer), writer)
      ensures r.Ok? ==> indent == old(indent)
      decreases StmtsSize(ss), 3
    {
      ghost var ind := indent;
      ghost var goal := GLoopBody(nl, ss, 0, ind);
      ghost var done := "";
      PrefixEmpty(goal);
      var k := 0;
      while k < |ss|
        invariant k <= |ss| && writer == old(writer) + done && indent == ind
        invariant Prefix(done, GLoopBody(nl, ss, k, ind)) == goal
      {
        ghost var w := writer;
        StmtsSizeElement(ss, k);
        r := VisitStmt(ss[k]);
        if r.Err? {
          return;
        }
        Newline(indent);
        ghost var piece := GStmt(nl, ss[k], ind).value + NewlineText(nl, ind);
        assert writer == w + piece;
        Grow(old(writer), done, piece);
        PrefixTwice(done, piece, GLoopBody(nl, ss, k + 1, ind));
        done := done + piece;
        k := k + 1;
      }
      r := Ok(());
    }

    method VisitIf(s: Stmt) returns (r: Result<(), GenError>)
      requires s.If?
      modifies this
      ensures Wrote(r, GIf(nl, s, old(indent)), old(writer), writer)
      ensures r.Ok? ==> indent == old(indent)
      decreases StmtSize(s), 1
    {
      ghost var ind := indent;
      Print("if (");
      r := VisitExpr(s.condition);
      if r.Err? {
        return;
      }
      ghost var done := "if (" + GExpr(s.condition).value;
      Print(") {");
      Grow(old(writer), done, ") {");
      done := done + ") {";
      assert writer == old(writer) + done;
      indent := indent + 1;
      Newline(indent);
      Grow(old(writer), done, NewlineText(nl, ind + 1));
      done := done + NewlineText(nl, ind + 1);
      assert writer == old(writer) + done;
      r := VisitBranch(s.thenStatements);
      if r.Err? {
        return;
      }
      Grow(old(writer), done, GBranch(nl, s.thenStatements, 0, ind + 1).value);
      done := done + GBranch(nl, s.thenStatements, 0, ind + 1).value;
      assert writer == old(writer) + done;
      indent := indent - 1;
      Newline(indent);
      Grow(old(writer), done, NewlineText(nl, ind));
      done := done + NewlineText(nl, ind);
      assert writer == old(writer) + done;
      Print("}");
      Grow(old(writer), done, "}");
      done := done + "}";
      assert writer == old(writer) + done;
      if s.elseStatements != [] {
        Print(" else {");
        Grow(old(writer), done, " else {");
        done := done + " else {";
        assert writer == old(writer) + done;
        indent := indent + 1;
        Newline(indent);
        Grow(old(writer), done, NewlineText(nl, ind + 1));
        done := done + NewlineText(nl, ind + 1);
        assert writer == old(writer) + done;
        r := VisitBranch(s.elseStatements);
        if r.Err? {
          return;
        }
        Grow(old(writer), done, GBranch(nl, s.elseStatements, 0, ind + 1).value);
        done := done + GBranch(nl, s.elseStatements, 0, ind + 1).value;
        assert writer == old(writer) + done;
        indent := indent - 1;
        Newline(indent);
        Grow(old(writer), done, NewlineText(nl, ind));
        done := done + NewlineText(nl, ind);
        assert writer == old(writer) + done;
        Print("}");
        Grow(old(writer), done, "}");
        done := done + "}";
        assert writer == old(writer) + done;
      }
    }

    method VisitFor(s: Stmt) returns (r: Result<(), GenError>)
      requires s.For?
      modifies this
      ensures Wrote(r, GFor(nl, s, old(indent)), old(writer), writer)
      ensures r.Ok? ==> indent == old(indent)
      decreases StmtSize(s), 1
    {
      ghost var ind := indent;
      Print("for (int " + s.name + " : ");
      r := VisitExpr(s.iterable);
      if r.Err? {
        return;
      }
      ghost var done := "for (int " + s.name + " : " + GExpr(s.iterable).value;
      Print(") {");
      Grow(old(writer), done, ") {");
      done := done + ") {";
      assert writer == old(writer) + done;
      indent := indent + 1;
      Newline(indent);
      Grow(old(writer), done, NewlineText(nl, ind + 1));
      done := done + NewlineText(nl, ind + 1);
      assert writer == old(writer) + done;
      r := VisitLoopBody(s.statements);
      if r.Err? {
        return;
      }
      Grow(old(writer), done, GLoopBody(nl, s.statements, 0, ind + 1).value);
      done := done + GLoopBody(nl, s.statements, 0, ind + 1).value;
      assert writer == old(writer) + done;
      indent := indent - 1;
      Newline(indent);
      Grow(old(writer), done, NewlineText(nl, ind));
      done := done + NewlineText(nl, ind);
      assert writer == old(writer) + done;
      Print("    }");
      Grow(old(writer), done, "    }");
      done := done + "    }";
      assert writer == old(writer) + done;
    }

    method VisitWhile(s: Stmt) returns (r: Result<(), GenError>)
      requires s.While?
      modifies this
      ensures Wrote(r, GWhile(nl, s, old(indent)), old(writer), writer)
      ensures r.Ok? ==> indent == old(indent)
      decreases StmtSize(s), 1
    {
      ghost var ind := indent;
      Print("while (");
      r := VisitExpr(s.condition);
      if r.Err? {
        return;
      }
      ghost var done := "while (" + GExpr(s.condition).value;
      Print(") {");
      Grow(old(writer), done, ") {");
      done := done + ") {";
      assert writer == old(writer) + done;
      if s.statements == [] {
        Print(" }");
        Grow(old(writer), done, " }");
        done := done + " }";
        assert writer == old(writer) + done;
      } else {
        indent := indent + 1;
        Newline(indent);
        Grow(old(writer), done, NewlineText(nl, ind + 1));
        done := done + NewlineText(nl, ind + 1);
        assert writer == old(writer) + done;
        r := VisitLoopBody(s.statements);
        if r.Err? {
          return;
        }
        Grow(old(writer), done, GLoopBody(nl, s.statements, 0, ind + 1).value);
        done := done + GLoopBody(nl, s.statements, 0, ind + 1).value;
        assert writer == old(writer) + done;
        indent := indent - 1;
        Newline(indent);
        Grow(old(writer), done, NewlineText(nl, ind));
        done := done + NewlineText(nl, ind);
        assert writer == old(writer) + done;
        Print("    }");
        Grow(old(writer), done, "    }");
        done := done + "    }";
        assert writer == old(writer) + done;
      }
      assert writer == old(writer) + done;
    }

    method VisitExpr(e: Expr) returns (r: Result<(), GenError>)
      modifies this
      ensures Wrote(r, GExpr(e), old(writer), writer) && indent == old(indent)
      decreases ExprSize(e), 1
    {
      match e
      case Literal(lit, _) =>
        var t := LiteralText(lit);
        if t.Err? {
          return Err(t.error);
        }
        Print(t.value);
        r := Ok(());
      case Group(inner, _) =>
        Print("(");
        r := VisitExpr(inner);
        if r.Ok? {
          ghost var done := "(" + GExpr(inner).value;
          assert writer == old(writer) + done;
          Print(")");
          Grow(old(writer), done, ")");
          done := done + ")";
          assert writer == old(writer) + done;
        }
      case Binary(op, left, right, _) =>
        r := VisitExpr(left);
        if r.Err? {
          return;
        }
        ghost var done := GExpr(left).value;
        var operator := if op == "AND" then "&&" else op;
        Print(" " + operator + " ");
        Grow(old(writer), done, " " + operator + " ");
        done := done + " " + operator + " ";
        assert writer == old(writer) + done;
        r := VisitExpr(right);
        if r.Ok? {
          Grow(old(writer), done, GExpr(right).value);
          done := done + GExpr(right).value;
          assert writer == old(writer) + done;
        }
      case Access(receiver, name, _) =>
        if receiver.Some? {
          r := VisitExpr(receiver.value);
          if r.Err? {
            return;
          }
          ghost var done := GExpr(receiver.value).value;
          Print(".");
          Grow(old(writer), done, ".");
          done := done + ".";
          assert writer == old(writer) + done;
          Print(name);
          Grow(old(writer), done, name);
          done := done + name;
          assert writer == old(writer) + done;
        } else {
          Print(name);
        }
        r := Ok(());
      case Call(_, _, _, _) =>
        r := VisitCall(e);
    }

    method VisitCall(e: Expr) returns (r: Result<(), GenError>)
      requires e.Call?
      modifies this
      ensures Wrote(r, GExpr(e), old(writer), writer) && indent == old(indent)
      decreases ExprSize(e), 0
    {
      if e.name == "print" {
        if e.arguments == [] {
          return Err(IndexOutOfBounds);
        }
        Print("System.out.println(");
        ExprsSizeElement(e.arguments, 0);
        r := VisitExpr(e.arguments[0]);
        if r.Ok? {
          ghost var done := "System.out.println(" + GExpr(e.arguments[0]).value;
          assert writer == old(writer) + done;
          Print(")");
          Grow(old(writer), done, ")");
          done := done + ")";
          assert writer == old(writer) + done;
        }
        return;
      }
      ghost var done := "";
      if e.receiver.Some? {
        r := VisitExpr(e.receiver.value);
        if r.Err? {
          return;
        }
        Print(".");
        done := GExpr(e.receiver.value).value + ".";
      }
      var callee := if e.name == "slice" then "substring" else e.name;
      Print(callee);
      Grow(old(writer), done, callee);
      done := done + callee;
      assert writer == old(writer) + done;
      Print("(");
      Grow(old(writer), done, "(");
      done := done + "(";
      assert writer == old(writer) + done;
      r := VisitArguments(e.arguments);
      if r.Ok? {
        Grow(old(writer), done, GArguments(e.arguments, 0).value);
        done := done + GArguments(e.arguments, 0).value;
        assert writer == old(writer) + done;
        Print(")");
        Grow(old(writer), done, ")");
        done := done + ")";
        assert writer == old(writer) + done;
      }
    }

    /** The argument loop of a call. */
    method VisitArguments(args: seq<Expr>) returns (r: Result<(), GenError>)
      modifies this
      ensures Wrote(r, GArguments(args, 0), old(writer), writer) && indent == old(indent)
      decreases ExprsSize(args), 2
    {
      ghost var goal := GArguments(args, 0);
      ghost var done := "";
      PrefixEmpty(goal);
      var i := 0;
      while i < |args|
        invariant i <= |args| && writer == old(writer) + done && indent == old(indent)
        invariant Prefix(done, GArguments(args, i)) == goal
      {
        ExprsSizeElement(args, i);
        r := VisitExpr(args[i]);
        if r.Err? {
          return;
        }
        ghost var piece := GExpr(args[i]).value;
        if i < |args| - 1 {
          Print(", ");
          piece := piece + ", ";
        } else {
          piece := piece + "";
        }
        PrefixTwice(done, piece, GArguments(args, i + 1));
        done := done + piece;
        i := i + 1;
      }
      r := Ok(());
    }
  }
}
