/**
 * The data shared by the stages: tokens, the abstract syntax tree with the resolution
 * slots the analyzer fills in, and the environment's type tags, variables and functions.
 * Ast.java, Token.java and Environment.java are not part of this model; the shapes below
 * are the ones the lexer, parser, analyzer, interpreter and generator use.
 */
module Ast {
  import opened Wrappers
  import opened Numbers

  datatype TokenType = IDENTIFIER | INTEGER | DECIMAL | CHARACTER | STRING | OPERATOR

  /** A token: its type, its literal text and the offset the lexer recorded. */
  datatype Token = Token(kind: TokenType, literal: string, index: int)

  /** Environment.Type: the built-in tags, and a user type known only by its name. */
  datatype Type =
    | NIL | BOOLEAN | INTEGER | DECIMAL | CHARACTER | STRING
    | ANY | COMPARABLE | INTEGER_ITERABLE
    | Named(typeName: string)

  /** Type.getName() of each tag. */
  function NameOf(t: Type): string {
    match t
    case NIL => "Nil"
    case BOOLEAN => "Boolean"
    case INTEGER => "Integer"
    case DECIMAL => "Decimal"
    case CHARACTER => "Character"
    case STRING => "String"
    case ANY => "Any"
    case COMPARABLE => "Comparable"
    case INTEGER_ITERABLE => "IntegerIterable"
    case Named(n) => n
  }

  /** Environment.Variable and Environment.Function as the analyzer records them. */
  datatype Variable = Variable(name: string, jvmName: string, ty: Type)
  datatype Function = Function(name: string, jvmName: string, parameterTypes: seq<Type>, returnType: Type)

  /** The object inside an Ast.Expr.Literal. NullLit stands for a Java null literal. */
  datatype Literal =
    | NullLit
    | BoolLit(b: bool)
    | IntLit(i: int)
    | DecLit(d: Decimal)
    | CharLit(c: char)
    | StrLit(s: string)

  /** Expressions. `ty`, `variable` and `func` are the resolution slots; an Access has the
      type of its variable and a Call the return type of its function. */
  datatype Expr =
    | Literal(literal: Literal, ty: Option<Type>)
    | Group(expr: Expr, ty: Option<Type>)
    | Binary(operator: string, left: Expr, right: Expr, ty: Option<Type>)
    | Access(receiver: Option<Expr>, name: string, variable: Option<Variable>)
    | Call(receiver: Option<Expr>, name: string, arguments: seq<Expr>, func: Option<Function>)

  /** Expr.getType(): the type the analyzer assigned, if any. */
  function TypeOf(e: Expr): Option<Type> {
    match e
    case Literal(_, t) => t
    case Group(_, t) => t
    case Binary(_, _, _, t) => t
    case Access(_, _, v) => if v.Some? then Some(v.value.ty) else None
    case Call(_, _, _, f) => if f.Some? then Some(f.value.returnType) else None
  }

  datatype Stmt =
    | Expression(expr: Expr)
    | Declaration(name: string, typeName: Option<string>, initializer: Option<Expr>, variable: Option<Variable>)
    | Assignment(receiver: Expr, value: Expr)
    | If(condition: Expr, thenStatements: seq<Stmt>, elseStatements: seq<Stmt>)
    | For(name: string, iterable: Expr, statements: seq<Stmt>)
    | While(condition: Expr, statements: seq<Stmt>)
    | Return(value: Expr)

  datatype Field = Field(name: string, typeName: Option<string>, initializer: Option<Expr>, variable: Option<Variable>)

  datatype Method = Method(
    name: string,
    parameters: seq<string>,
    parameterTypeNames: seq<string>,
    returnTypeName: Option<string>,
    statements: seq<Stmt>,
    func: Option<Function>)

  datatype Source = Source(fields: seq<Field>, methods: seq<Method>)

  /** Node counts, used as termination measures by the stages that walk the tree. */
  function ExprSize(e: Expr): nat {
    match e
    case Literal(_, _) => 1
    case Group(x, _) => 1 + ExprSize(x)
    case Binary(_, l, r, _) => 1 + ExprSize(l) + ExprSize(r)
    case Access(rc, _, _) => 1 + (if rc.Some? then ExprSize(rc.value) else 0)
    case Call(rc, _, args, _) => 1 + (if rc.Some? then ExprSize(rc.value) else 0) + ExprsSize(args)
  }

  function ExprsSize(es: seq<Expr>): nat {
    if es == [] then 0 else ExprSize(es[0]) + ExprsSize(es[1..])
  }

  function StmtSize(s: Stmt): nat {
    match s
    case Expression(e) => 1 + ExprSize(e)
    case Declaration(_, _, init, _) => 1 + (if init.Some? then ExprSize(init.value) else 0)
    case Assignment(r, v) => 1 + ExprSize(r) + ExprSize(v)
    case If(c, t, f) => 1 + ExprSize(c) + StmtsSize(t) + StmtsSize(f)
    case For(_, e, b) => 1 + ExprSize(e) + StmtsSize(b)
    case While(c, b) => 1 + ExprSize(c) + StmtsSize(b)
    case Return(v) => 1 + ExprSize(v)
  }

  function StmtsSize(ss: seq<Stmt>): nat {
    if ss == [] then 0 else StmtSize(ss[0]) + StmtsSize(ss[1..])
  }

  /** An element of a list is no larger than the list, and the tail is smaller. */
  lemma {:induction false} ExprsSizeElement(es: seq<Expr>, i: nat)
    requires i < |es|
    ensures ExprSize(es[i]) <= ExprsSize(es) && ExprsSize(es[i + 1..]) < ExprsSize(es[i..])
  {
    if i > 0 {
      ExprsSizeElement(es[1..], i - 1);
      assert es[1..][i - 1] == es[i];
      assert es[1..][i - 1 + 1..] == es[i + 1..];
      assert es[1..][i - 1..] == es[i..];
    } else {
      assert es[0..] == es;
    }
  }

  lemma {:induction false} StmtsSizeElement(ss: seq<Stmt>, i: nat)
    requires i < |ss|
    ensures StmtSize(ss[i]) <= StmtsSize(ss) && StmtsSize(ss[i + 1..]) < StmtsSize(ss[i..])
  {
    if i > 0 {
      StmtsSizeElement(ss[1..], i - 1);
      assert ss[1..][i - 1] == ss[i];
      assert ss[1..][i - 1 + 1..] == ss[i + 1..];
      assert ss[1..][i - 1..] == ss[i..];
    } else {
      assert ss[0..] == ss;
    }
  }
}
