/**
 * Parser.java: recursive descent over a token list with one cursor. `peek` and `match`
 * test a run of consecutive tokens against a run of patterns, each pattern naming a
 * token type or an exact literal.
 *
 * Each rule is a spec function from (tokens, position) to the node it builds and the
 * position after it, or the error it raises (the P* functions). The methods of the
 * Parser class carry the rules out on the cursor, with loops where the source loops, and
 * are proved to agree with the spec functions.
 */
module Parsing {
  import opened Wrappers
  import opened Numbers
  import opened Ast

  /** A peek/match pattern: a Token.Type or a literal. */
  datatype Pattern = Lit(literal: string) | Kind(kind: TokenType)

  predicate PatternMatches(p: Pattern, t: Token) {
    match p
    case Lit(s) => t.literal == s
    case Kind(k) => t.kind == k
  }

  /** peek(p0, ..., pn-1): tokens exist at offsets 0..n-1 and each matches its pattern. */
  predicate PeekAt(ts: seq<Token>, i: nat, ps: seq<Pattern>) {
    i + |ps| <= |ts| && forall k :: 0 <= k < |ps| ==> PatternMatches(ps[k], ts[i + k])
  }

  /** peek(p) for one pattern. */
  predicate At(ts: seq<Token>, i: nat, p: Pattern) {
    i < |ts| && PatternMatches(p, ts[i])
  }

  /** The exceptions a parse can end in: a ParseException, the IndexOutOfBoundsException
      of reading a token that is not there, and the NumberFormatException of a literal
      BigInteger or BigDecimal refuses. */
  datatype ParseError = ParseException(message: string, index: int) | IndexOutOfBounds | NumberFormat

  /** new ParseException(message, tokens.get(0).getIndex()) at position i. */
  function ErrorAt(ts: seq<Token>, i: nat, message: string): (e: ParseError)
  {
    if i < |ts| then ParseException(message, ts[i].index) else IndexOutOfBounds
  }

  /** What a rule returns: the node and the position after it, or an error. */
  type Parsed<T> = Result<(T, nat), ParseError>

  /** A method result and cursor agree with a rule: the same node with the cursor after it,
      or the same error. */
  predicate Follows<T(==)>(r: Result<T, ParseError>, spec: Parsed<T>, index: nat) {
    match spec
    case Ok((v, j)) => r == Ok(v) && index == j
    case Err(e) => r == Err(e)
  }

  // ---------------------------------------------------------------------------
  // Literals

  /** String.replace(`\` + c, replacement): each non-overlapping occurrence, left to right. */
  function ReplacePair(s: string, c: char, replacement: char): (r: string)
    ensures |r| <= |s|
  {
    if |s| >= 2 && s[0] == '\\' && s[1] == c then [replacement] + ReplacePair(s[2..], c, replacement)
    else if s == [] then []
    else [s[0]] + ReplacePair(s[1..], c, replacement)
  }

  /** The decoding of a string literal's inside: only `\n` and `\t`. */
  function Unescape(s: string): (r: string)
    ensures |r| <= |s|
  {
    ReplacePair(ReplacePair(s, 'n', '\n'), 't', '\t')
  }

  /** The value of a literal token: BigInteger, BigDecimal, the character at position 1, or
      the text between the first and the last character, decoded. */
  function LiteralValue(t: Token): (r: Result<Literal, ParseError>)
    requires t.kind != IDENTIFIER && t.kind != OPERATOR
    ensures r.Ok? ==> (r.value.IntLit? <==> t.kind == TokenType.INTEGER) && (r.value.DecLit? <==> t.kind == TokenType.DECIMAL)
    ensures r.Ok? ==> (r.value.CharLit? <==> t.kind == TokenType.CHARACTER) && (r.value.StrLit? <==> t.kind == TokenType.STRING)
    ensures r.Err? ==> (r.error == NumberFormat <==> t.kind == TokenType.INTEGER || t.kind == TokenType.DECIMAL)
    ensures t.kind == TokenType.CHARACTER || t.kind == TokenType.STRING ==> (r.Ok? <==> |t.literal| >= 2)
    ensures r.Ok? && r.value.CharLit? ==> r.value.c == t.literal[1]
    ensures r.Ok? && r.value.StrLit? ==> |r.value.s| <= |t.literal| - 2
  {
    var lit := t.literal;
    match t.kind
    case INTEGER => (match ParseBigInteger(lit) case Some(v) => Ok(IntLit(v)) case None => Err(NumberFormat))
    case DECIMAL => (match ParseBigDecimal(lit) case Some(d) => Ok(DecLit(d)) case None => Err(NumberFormat))
    case CHARACTER => if |lit| >= 2 then Ok(CharLit(lit[1])) else Err(IndexOutOfBounds)
    case STRING => if |lit| >= 2 then Ok(StrLit(Unescape(lit[1..|lit| - 1]))) else Err(IndexOutOfBounds)
  }

  predicate IsLiteralKind(k: TokenType) {
    k == TokenType.INTEGER || k == TokenType.DECIMAL || k == TokenType.CHARACTER || k == TokenType.STRING
  }

  // ---------------------------------------------------------------------------
  // Expressions

  /** The four binary rules, loosest first. */
  datatype Level = LogicalLevel | EqualityLevel | AdditiveLevel | MultiplicativeLevel

  /** The patterns each binary rule matches, as one consecutive run. */
  function Operators(l: Level): (ps: seq<Pattern>)
    ensures |ps| >= 2
  {
    match l
    case LogicalLevel => [Lit("AND"), Lit("OR")]
    case EqualityLevel => [Lit("=="), Lit("!="), Lit("<"), Lit("<="), Lit(">"), Lit(">=")]
    case AdditiveLevel => [Lit("+"), Lit("-")]
    case MultiplicativeLevel => [Lit("*"), Lit("/")]
  }

  function Rank(l: Level): nat {
    match l
    case LogicalLevel => 5
    case EqualityLevel => 4
    case AdditiveLevel => 3
    case MultiplicativeLevel => 2
  }

  function PExpression(ts: seq<Token>, i: nat): (r: Parsed<Expr>)
    requires i <= |ts|
    ensures r.Ok? ==> i < r.value.1 <= |ts|
    decreases |ts| - i, 6, 0
  {
    PBinary(ts, i, LogicalLevel)
  }

  /** The operand of a binary rule: the next tighter rule. */
  function POperand(ts: seq<Token>, i: nat, l: Level): (r: Parsed<Expr>)
    requires i <= |ts|
    ensures r.Ok? ==> i < r.value.1 <= |ts|
    decreases |ts| - i, Rank(l), 0
  {
    match l
    case LogicalLevel => PBinary(ts, i, EqualityLevel)
    case EqualityLevel => PBinary(ts, i, AdditiveLevel)
    case AdditiveLevel => PBinary(ts, i, MultiplicativeLevel)
    case MultiplicativeLevel => PSecondary(ts, i)
  }

  function PBinary(ts: seq<Token>, i: nat, l: Level): (r: Parsed<Expr>)
    requires i <= |ts|
    ensures r.Ok? ==> i < r.value.1 <= |ts|
    decreases |ts| - i, Rank(l), 2
  {
    match POperand(ts, i, l)
    case Err(e) => Err(e)
    case Ok((left, j)) => PBinaryRest(ts, j, left, l)
  }

  /** The loop of a binary rule: while the whole run of operators matches, the operator is
      the literal of the last token of the run, and the tree grows to the left. */
  function PBinaryRest(ts: seq<Token>, i: nat, left: Expr, l: Level): (r: Parsed<Expr>)
    requires i <= |ts|
    ensures r.Ok? ==> i <= r.value.1 <= |ts|
    decreases |ts| - i, Rank(l), 1
  {
    var ops := Operators(l);
    if PeekAt(ts, i, ops) then
      var operator := ts[i + |ops| - 1].literal;
      match POperand(ts, i + |ops|, l)
      case Err(e) => Err(e)
      case Ok((right, j)) => PBinaryRest(ts, j, Binary(operator, left, right, None), l)
    else Ok((left, i))
  }

  function PSecondary(ts: seq<Token>, i: nat): (r: Parsed<Expr>)
    requires i <= |ts|
    ensures r.Ok? ==> i < r.value.1 <= |ts|
    decreases |ts| - i, 1, 1
  {
    match PPrimary(ts, i)
    case Err(e) => Err(e)
    case Ok((e, j)) => PSecondaryRest(ts, j, e)
  }

  /** The loop of the secondary rule: `.name` is a field access, `.name(args)` a method call. */
  function PSecondaryRest(ts: seq<Token>, i: nat, receiver: Expr): (r: Parsed<Expr>)
    requires i <= |ts|
    ensures r.Ok? ==> i <= r.value.1 <= |ts|
    decreases |ts| - i, 1, 0
  {
    if At(ts, i, Lit(".")) then
      if !At(ts, i + 1, Kind(IDENTIFIER)) then Err(ErrorAt(ts, i + 1, "Expected identifier after '.'."))
      else
        var name := ts[i + 1].literal;
        if At(ts, i + 2, Lit("(")) then
          match PArguments(ts, i + 3)
          case Err(e) => Err(e)
          case Ok((args, j)) => PSecondaryRest(ts, j, Call(Some(receiver), name, args, None))
        else PSecondaryRest(ts, i + 2, Access(Some(receiver), name, None))
    else Ok((receiver, i))
  }

  /** An argument list after its '(': either ')' at once, or expressions separated by ','
      and closed by ')'. */
  function PArguments(ts: seq<Token>, i: nat): (r: Parsed<seq<Expr>>)
    requires i <= |ts|
    ensures r.Ok? ==> i < r.value.1 <= |ts|
    decreases |ts| - i, 8, 1
  {
    if At(ts, i, Lit(")")) then Ok(([], i + 1)) else PArgumentList(ts, i, [])
  }

  function PArgumentList(ts: seq<Token>, i: nat, acc: seq<Expr>): (r: Parsed<seq<Expr>>)
    requires i <= |ts|
    ensures r.Ok? ==> i < r.value.1 <= |ts|
    decreases |ts| - i, 8, 0
  {
    match PExpression(ts, i)
    case Err(e) => Err(e)
    case Ok((arg, j)) =>
      if At(ts, j, Lit(",")) then PArgumentList(ts, j + 1, acc + [arg])
      else if At(ts, j, Lit(")")) then Ok((acc + [arg], j + 1))
      else Err(ErrorAt(ts, j, "Expected ')' after arguments."))
  }

  function PPrimary(ts: seq<Token>, i: nat): (r: Parsed<Expr>)
    requires i <= |ts|
    ensures r.Ok? ==> i < r.value.1 <= |ts|
    decreases |ts| - i, 0, 0
  {
    if At(ts, i, Lit("TRUE")) || At(ts, i, Lit("true")) then Ok((Expr.Literal(BoolLit(true), None), i + 1))
    else if At(ts, i, Lit("FALSE")) || At(ts, i, Lit("false")) then Ok((Expr.Literal(BoolLit(false), None), i + 1))
    else if i < |ts| && IsLiteralKind(ts[i].kind) then
      match LiteralValue(ts[i])
      case Err(e) => Err(e)
      case Ok(v) => Ok((Expr.Literal(v, None), i + 1))
    else if At(ts, i, Kind(IDENTIFIER)) then
      var name := ts[i].literal;
      if At(ts, i + 1, Lit("(")) then
        match PArguments(ts, i + 2)
        case Err(e) => Err(e)
        case Ok((args, j)) => Ok((Call(None, name, args, None), j))
      else Ok((Access(None, name, None), i + 1))
    else if At(ts, i, Lit("(")) then
      match PExpression(ts, i + 1)
      case Err(e) => Err(e)
      case Ok((e, j)) =>
        if At(ts, j, Lit(")")) then Ok((Group(e, None), j + 1))
        else Err(ErrorAt(ts, j, "Expected ')' after expression."))
    else Err(ErrorAt(ts, i, "Expected a primary expression."))
  }

  // ---------------------------------------------------------------------------
  // Statements

  /** No For statement anywhere inside: the statement rule has no way to reach one. */
  predicate NoFor(s: Stmt) {
    match s
    case If(_, thens, elses) => (forall k :: 0 <= k < |thens| ==> NoFor(thens[k])) && (forall k :: 0 <= k < |elses| ==> NoFor(elses[k]))
    case For(_, _, _) => false
    case While(_, body) => forall k :: 0 <= k < |body| ==> NoFor(body[k])
    case _ => true
  }

  predicate AllNoFor(ss: seq<Stmt>) {
    forall k :: 0 <= k < |ss| ==> NoFor(ss[k])
  }

  function PStatement(ts: seq<Token>, i: nat): (r: Parsed<Stmt>)
    requires i <= |ts|
    ensures r.Ok? ==> i < r.value.1 <= |ts| && NoFor(r.value.0)
    decreases |ts| - i, 10, 1
  {
    if At(ts, i, Lit("LET")) then PDeclaration(ts, i + 1)
    else if At(ts, i, Lit("IF")) then PIf(ts, i + 1)
    else if At(ts, i, Lit("WHILE")) then PWhile(ts, i + 1)
    else if At(ts, i, Lit("RETURN")) then PReturn(ts, i + 1)
    else PExpressionStatement(ts, i)
  }

  /** A statement that starts with none of the four keywords: an expression, then either
      `= expression ;` (an assignment) or `;`. */
  function PExpressionStatement(ts: seq<Token>, i: nat): (r: Parsed<Stmt>)
    requires i <= |ts|
    ensures r.Ok? ==> i < r.value.1 <= |ts| && (r.value.0.Expression? || r.value.0.Assignment?)
    decreases |ts| - i, 10, 0
  {
    match PExpression(ts, i)
    case Err(e) => Err(e)
    case Ok((expr, j)) =>
      if At(ts, j, Lit("=")) then
        match PExpression(ts, j + 1)
        case Err(e) => Err(e)
        case Ok((value, k)) =>
          if At(ts, k, Lit(";")) then Ok((Assignment(expr, value), k + 1))
          else Err(ErrorAt(ts, k, "Expected ';' after assignment."))
      else if At(ts, j, Lit(";")) then Ok((Expression(expr), j + 1))
      else Err(ErrorAt(ts, j, "Expected ';' after expression."))
  }

  /** An optional `= expression`. */
  function PInitializer(ts: seq<Token>, i: nat): (r: Parsed<Option<Expr>>)
    requires i <= |ts|
    ensures r.Ok? ==> i <= r.value.1 <= |ts|
    decreases |ts| - i, 7, 0
  {
    if At(ts, i, Lit("=")) then
      match PExpression(ts, i + 1)
      case Err(e) => Err(e)
      case Ok((e, j)) => Ok((Some(e), j))
    else Ok((None, i))
  }

  function PDeclaration(ts: seq<Token>, i: nat): (r: Parsed<Stmt>)
    requires i <= |ts|
    ensures r.Ok? ==> i < r.value.1 <= |ts| && r.value.0.Declaration?
    decreases |ts| - i, 9, 0
  {
    if !At(ts, i, Lit("LET")) then Err(ErrorAt(ts, i, "Expected 'LET' at the start of a declaration statement."))
    else if !At(ts, i + 1, Kind(IDENTIFIER)) then Err(ErrorAt(ts, i + 1, "Expected identifier after 'LET'."))
    else
      var name := ts[i + 1].literal;
      match PInitializer(ts, i + 2)
      case Err(e) => Err(e)
      case Ok((init, j)) =>
        if At(ts, j, Lit(";")) then Ok((Declaration(name, None, init, None), j + 1))
        else Err(ErrorAt(ts, j, "Expected ';' after declaration."))
  }

  /** The then-loop: statements until the two-token run ELSE END is next. */
  function PThen(ts: seq<Token>, i: nat, acc: seq<Stmt>): (r: Parsed<seq<Stmt>>)
    requires i <= |ts|
    ensures r.Ok? ==> i <= r.value.1 <= |ts|
    ensures r.Ok? && AllNoFor(acc) ==> AllNoFor(r.value.0)
    decreases |ts| - i, 11, 0
  {
    if At(ts, i, Lit("ELSE")) && At(ts, i + 1, Lit("END")) then Ok((acc, i))
    else
      match PStatement(ts, i)
      case Err(e) => Err(e)
      case Ok((s, j)) => PThen(ts, j, acc + [s])
  }

  /** `while (!match("END")) statements.add(parseStatement());` */
  function PBlock(ts: seq<Token>, i: nat, acc: seq<Stmt>): (r: Parsed<seq<Stmt>>)
    requires i <= |ts|
    ensures r.Ok? ==> i < r.value.1 <= |ts|
    ensures r.Ok? && AllNoFor(acc) ==> AllNoFor(r.value.0)
    decreases |ts| - i, 11, 0
  {
    if At(ts, i, Lit("END")) then Ok((acc, i + 1))
    else
      match PStatement(ts, i)
      case Err(e) => Err(e)
      case Ok((s, j)) => PBlock(ts, j, acc + [s])
  }

  function PIf(ts: seq<Token>, i: nat): (r: Parsed<Stmt>)
    requires i <= |ts|
    ensures r.Ok? ==> i < r.value.1 <= |ts| && r.value.0.If? && NoFor(r.value.0)
    decreases |ts| - i, 9, 0
  {
    if !At(ts, i, Lit("IF")) then Err(ErrorAt(ts, i, "Expected 'IF' at the start of an if statement."))
    else
      match PExpression(ts, i + 1)
      case Err(e) => Err(e)
      case Ok((condition, j)) =>
        if !At(ts, j, Lit("DO")) then Err(ErrorAt(ts, j, "Expected 'DO' after condition in if statement."))
        else
          match PThen(ts, j + 1, [])
          case Err(e) => Err(e)
          case Ok((thens, k)) =>
            if At(ts, k, Lit("ELSE")) then
              match PBlock(ts, k + 1, [])
              case Err(e) => Err(e)
              case Ok((elses, m)) => Ok((If(condition, thens, elses), m))
            else if At(ts, k, Lit("END")) then Ok((If(condition, thens, []), k + 1))
            else Err(ErrorAt(ts, k, "Expected 'END' to terminate the if statement."))
  }

  function PFor(ts: seq<Token>, i: nat): (r: Parsed<Stmt>)
    requires i <= |ts|
    ensures r.Ok? ==> i < r.value.1 <= |ts| && r.value.0.For?
    decreases |ts| - i, 9, 0
  {
    if !At(ts, i, Lit("FOR")) then Err(ErrorAt(ts, i, "Expected 'FOR' at the start of a for loop."))
    else if !At(ts, i + 1, Kind(IDENTIFIER)) then Err(ErrorAt(ts, i + 1, "Expected identifier after 'FOR'."))
    else
      var name := ts[i + 1].literal;
      if !At(ts, i + 2, Lit("IN")) then Err(ErrorAt(ts, i + 2, "Expected 'IN' after identifier in for loop."))
      else
        match PExpression(ts, i + 3)
        case Err(e) => Err(e)
        case Ok((value, j)) =>
          if !At(ts, j, Lit("DO")) then Err(ErrorAt(ts, j, "Expected 'DO' after range in for loop."))
          else
            match PBlock(ts, j + 1, [])
            case Err(e) => Err(e)
            case Ok((body, k)) => Ok((For(name, value, body), k))
  }

  function PWhile(ts: seq<Token>, i: nat): (r: Parsed<Stmt>)
    requires i <= |ts|
    ensures r.Ok? ==> i < r.value.1 <= |ts| && r.value.0.While? && NoFor(r.value.0)
    decreases |ts| - i, 9, 0
  {
    if !At(ts, i, Lit("WHILE")) then Err(ErrorAt(ts, i, "Expected 'WHILE' at the start of a while loop."))
    else
      match PExpression(ts, i + 1)
      case Err(e) => Err(e)
      case Ok((condition, j)) =>
        if !At(ts, j, Lit("DO")) then Err(ErrorAt(ts, j, "Expected 'DO' after condition in while loop."))
        else
          match PBlock(ts, j + 1, [])
          case Err(e) => Err(e)
          case Ok((body, k)) => Ok((While(condition, body), k))
  }

  function PReturn(ts: seq<Token>, i: nat): (r: Parsed<Stmt>)
    requires i <= |ts|
    ensures r.Ok? ==> i < r.value.1 <= |ts| && r.value.0.Return?
    decreases |ts| - i, 9, 0
  {
    if !At(ts, i, Lit("RETURN")) then Err(ErrorAt(ts, i, "Expected 'RETURN' at the start of a return statement."))
    else
      match PExpression(ts, i + 1)
      case Err(e) => Err(e)
      case Ok((value, j)) =>
        if At(ts, j, Lit(";")) then Ok((Return(value), j + 1))
        else Err(ErrorAt(ts, j, "Expected ';' after return statement."))
  }

  // ---------------------------------------------------------------------------
  // Fields, methods and the source

  function PField(ts: seq<Token>, i: nat): (r: Parsed<Field>)
    requires i <= |ts|
    ensures r.Ok? ==> i < r.value.1 <= |ts|
    decreases |ts| - i, 12, 0
  {
    if !At(ts, i, Lit("LET")) then Err(ErrorAt(ts, i, "Expected 'LET' at the start of a field declaration."))
    else if !At(ts, i + 1, Kind(IDENTIFIER)) then Err(ErrorAt(ts, i + 1, "Expected identifier after 'LET'."))
    else
      var name := ts[i + 1].literal;
      match PInitializer(ts, i + 2)
      case Err(e) => Err(e)
      case Ok((init, j)) =>
        if At(ts, j, Lit(";")) then Ok((Field(name, None, init, None), j + 1))
        else Err(ErrorAt(ts, j, "Expected ';' at the end of a field declaration."))
  }

  /** The do-while loop over parameter names: an identifier, then more after each ','. */
  function PParameters(ts: seq<Token>, i: nat, acc: seq<string>): (r: Parsed<seq<string>>)
    requires i <= |ts|
    ensures r.Ok? ==> i < r.value.1 <= |ts| && |r.value.0| > |acc|
    decreases |ts| - i
  {
    if !At(ts, i, Kind(IDENTIFIER)) then Err(ErrorAt(ts, i, "Expected parameter name."))
    else if At(ts, i + 1, Lit(",")) then PParameters(ts, i + 2, acc + [ts[i].literal])
    else Ok((acc + [ts[i].literal], i + 1))
  }

  /** The parameter list after its '(': ')' at once, or names and then ')'. */
  function PParameterList(ts: seq<Token>, i: nat): (r: Parsed<seq<string>>)
    requires i <= |ts|
    ensures r.Ok? ==> i < r.value.1 <= |ts|
  {
    if At(ts, i, Lit(")")) then Ok(([], i + 1))
    else
      match PParameters(ts, i, [])
      case Err(e) => Err(e)
      case Ok((ps, j)) =>
        if At(ts, j, Lit(")")) then Ok((ps, j + 1))
        else Err(ErrorAt(ts, j, "Expected ')' after parameters."))
  }

  function PMethod(ts: seq<Token>, i: nat): (r: Parsed<Method>)
    requires i <= |ts|
    ensures r.Ok? ==> i < r.value.1 <= |ts|
    decreases |ts| - i, 12, 0
  {
    if !At(ts, i, Lit("DEF")) then Err(ErrorAt(ts, i, "Expected 'DEF' at the start of a method declaration."))
    else if !At(ts, i + 1, Kind(IDENTIFIER)) then Err(ErrorAt(ts, i + 1, "Expected method name after 'DEF'."))
    else
      var name := ts[i + 1].literal;
      if !At(ts, i + 2, Lit("(")) then Err(ErrorAt(ts, i + 2, "Expected '(' after method name."))
      else
        match PParameterList(ts, i + 3)
        case Err(e) => Err(e)
        case Ok((params, j)) =>
          if !At(ts, j, Lit("DO")) then Err(ErrorAt(ts, j, "Expected 'DO' after method parameters."))
          else
            match PBlock(ts, j + 1, [])
            case Err(e) => Err(e)
            case Ok((body, k)) => Ok((Method(name, params, [], None, body, None), k))
  }

  /** `while (match("LET")) fields.add(parseField());` */
  function PFields(ts: seq<Token>, i: nat, acc: seq<Field>): (r: Parsed<seq<Field>>)
    requires i <= |ts|
    ensures r.Ok? ==> i <= r.value.1 <= |ts| && !At(ts, r.value.1, Lit("LET"))
    decreases |ts| - i
  {
    if At(ts, i, Lit("LET")) then
      match PField(ts, i + 1)
      case Err(e) => Err(e)
      case Ok((f, j)) => PFields(ts, j, acc + [f])
    else Ok((acc, i))
  }

  /** `while (match("DEF")) methods.add(parseMethod());` */
  function PMethods(ts: seq<Token>, i: nat, acc: seq<Method>): (r: Parsed<seq<Method>>)
    requires i <= |ts|
    ensures r.Ok? ==> i <= r.value.1 <= |ts| && !At(ts, r.value.1, Lit("DEF"))
    decreases |ts| - i
  {
    if At(ts, i, Lit("DEF")) then
      match PMethod(ts, i + 1)
      case Err(e) => Err(e)
      case Ok((m, j)) => PMethods(ts, j, acc + [m])
    else Ok((acc, i))
  }

  /** parseSource: the leading fields, then the methods; it stops at the first token that
      continues neither loop and leaves the rest unread. */
  function PSource(ts: seq<Token>, i: nat): (r: Parsed<Source>)
    requires i <= |ts|
    ensures r.Ok? ==> i <= r.value.1 <= |ts| && !At(ts, r.value.1, Lit("DEF"))
  {
    match PFields(ts, i, [])
    case Err(e) => Err(e)
    case Ok((fields, j)) =>
      match PMethods(ts, j, [])
      case Err(e) => Err(e)
      case Ok((methods, k)) => Ok((Source(fields, methods), k))
  }

  lemma PeekOne(ts: seq<Token>, i: nat, p: Pattern)
    ensures PeekAt(ts, i, [p]) <==> At(ts, i, p)
  {
    if PeekAt(ts, i, [p]) {
      assert PatternMatches([p][0], ts[i + 0]);
    }
    if At(ts, i, p) {
      assert forall k :: 0 <= k < 1 ==> [p][k] == p && i + k == i;
    }
  }

  lemma PeekTwo(ts: seq<Token>, i: nat, p: Pattern, q: Pattern)
    ensures PeekAt(ts, i, [p, q]) <==> At(ts, i, p) && At(ts, i + 1, q)
  {
    if PeekAt(ts, i, [p, q]) {
      assert PatternMatches([p, q][0], ts[i + 0]) && PatternMatches([p, q][1], ts[i + 1]);
    }
  }

  /** Parser: the token list and the cursor of its TokenStream. */
  class Parser {
    const tokens: seq<Token>
    var index: nat

    ghost predicate Valid()
      reads this
    {
      index <= |tokens|
    }

    constructor (tokens: seq<Token>)
      ensures Valid() && this.tokens == tokens && index == 0
    {
      this.tokens := tokens;
      index := 0;
    }

    function Has(offset: nat): (b: bool)
      reads this
      ensures b <==> index + offset < |tokens|
    {
      index + offset < |tokens|
    }

    function Get(offset: int): (t: Token)
      reads this
      requires 0 <= index + offset < |tokens|
      ensures t == tokens[index + offset]
    {
      tokens[index + offset]
    }

    method Advance()
      requires index < |tokens|
      modifies this
      ensures index == old(index) + 1
    {
      index := index + 1;
    }

    /** peek: each pattern matches the token at its offset. */
    method Peek(patterns: seq<Pattern>) returns (b: bool)
      requires Valid()
      ensures b == PeekAt(tokens, index, patterns)
      ensures |patterns| == 1 ==> (b <==> At(tokens, index, patterns[0]))
      ensures |patterns| == 2 ==> (b <==> At(tokens, index, patterns[0]) && At(tokens, index + 1, patterns[1]))
    {
      b := true;
      var i := 0;
      while i < |patterns|
        invariant 0 <= i <= |patterns| && index + i <= |tokens|
        invariant forall k :: 0 <= k < i ==> PatternMatches(patterns[k], tokens[index + k])
      {
        if !Has(i) {
          b := false;
          break;
        }
        match patterns[i] {
          case Kind(k) =>
            if k != Get(i).kind {
              b := false;
              break;
            }
          case Lit(s) =>
            if s != Get(i).literal {
              b := false;
              break;
            }
        }
        i := i + 1;
      }
      if |patterns| == 1 {
        assert patterns == [patterns[0]];
        PeekOne(tokens, index, patterns[0]);
      } else if |patterns| == 2 {
        assert patterns == [patterns[0], patterns[1]];
        PeekTwo(tokens, index, patterns[0], patterns[1]);
      }
    }

    /** match: peek, and on success advance once per pattern. */
    method Match(patterns: seq<Pattern>) returns (b: bool)
      requires Valid()
      modifies this
      ensures Valid()
      ensures b == PeekAt(tokens, old(index), patterns)
      ensures |patterns| == 1 ==> (b <==> At(tokens, old(index), patterns[0]))
      ensures index == old(index) + (if b then |patterns| else 0)
    {
      b := Peek(patterns);
      if b {
        var i := 0;
        while i < |patterns|
          invariant 0 <= i <= |patterns| && index == old(index) + i
        {
          Advance();
          i := i + 1;
        }
      }
    }

    method MatchSingle(p: Pattern) returns (b: bool)
      requires Valid()
      modifies this
      ensures Valid()
      ensures b == At(tokens, old(index), p)
      ensures index == old(index) + (if b then 1 else 0)
    {
      b := Match([p]);
    }

    method ParseSource() returns (r: Result<Source, ParseError>)
      requires Valid()
      modifies this
      ensures Valid() && Follows(r, PSource(tokens, old(index)), index)
    {
      var fields := ParseFields();
      if fields.Err? {
        return Err(fields.error);
      }
      var methods := ParseMethods();
      if methods.Err? {
        return Err(methods.error);
      }
      return Ok(Source(fields.value, methods.value));
    }

    /** The first loop of parseSource: a field after each LET it matches. */
    method ParseFields() returns (r: Result<seq<Field>, ParseError>)
      requires Valid()
      modifies this
      ensures Valid() && Follows(r, PFields(tokens, old(index), []), index)
    {
      var fields: seq<Field> := [];
      ghost var goal := PFields(tokens, index, []);
      while true
        invariant Valid() && PFields(tokens, index, fields) == goal
        decreases |tokens| - index
      {
        ghost var i := index;
        var b := MatchSingle(Lit("LET"));
        if !b {
          assert goal == Ok((fields, i));
          break;
        }
        var f := ParseField();
        if f.Err? {
          assert goal == Err(f.error);
          return Err(f.error);
        }
        assert goal == PFields(tokens, index, fields + [f.value]);
        fields := fields + [f.value];
      }
      return Ok(fields);
    }

    /** The second loop of parseSource: a method after each DEF it matches. */
    method ParseMethods() returns (r: Result<seq<Method>, ParseError>)
      requires Valid()
      modifies this
      ensures Valid() && Follows(r, PMethods(tokens, old(index), []), index)
    {
      var methods: seq<Method> := [];
      ghost var goal := PMethods(tokens, index, []);
      while true
        invariant Valid() && PMethods(tokens, index, methods) == goal
        decreases |tokens| - index
      {
        ghost var i := index;
        var b := MatchSingle(Lit("DEF"));
        if !b {
          assert goal == Ok((methods, i));
          break;
        }
        var m := ParseMethod();
        if m.Err? {
          assert goal == Err(m.error);
          return Err(m.error);
        }
        assert goal == PMethods(tokens, index, methods + [m.value]);
        methods := methods + [m.value];
      }
      return Ok(methods);
    }

    method ParseField() returns (r: Result<Field, ParseError>)
      requires Valid()
      modifies this
      ensures Valid() && Follows(r, PField(tokens, old(index)), index)
    {
      var b := MatchSingle(Lit("LET"));
      if !b {
        return Err(ErrorAt(tokens, index, "Expected 'LET' at the start of a field declaration."));
      }
      b := MatchSingle(Kind(IDENTIFIER));
      if !b {
        return Err(ErrorAt(tokens, index, "Expected identifier after 'LET'."));
      }
      var name := Get(-1).literal;
      ghost var afterName := index;
      var initializer: Option<Expr> := None;
      b := MatchSingle(Lit("="));
      if b {
        var e := ParseExpression();
        if e.Err? {
          return Err(e.error);
        }
        initializer := Some(e.value);
      }
      assert PInitializer(tokens, afterName) == Ok((initializer, index));
      b := MatchSingle(Lit(";"));
      if !b {
        return Err(ErrorAt(tokens, index, "Expected ';' at the end of a field declaration."));
      }
      return Ok(Field(name, None, initializer, None));
    }

    method ParseMethod() returns (r: Result<Method, ParseError>)
      requires Valid()
      modifies this
      ensures Valid() && Follows(r, PMethod(tokens, old(index)), index)
    {
      var b := MatchSingle(Lit("DEF"));
      if !b {
        return Err(ErrorAt(tokens, index, "Expected 'DEF' at the start of a method declaration."));
      }
      b := MatchSingle(Kind(IDENTIFIER));
      if !b {
        return Err(ErrorAt(tokens, index, "Expected method name after 'DEF'."));
      }
      var name := Get(-1).literal;
      b := MatchSingle(Lit("("));
      if !b {
        return Err(ErrorAt(tokens, index, "Expected '(' after method name."));
      }
      var parameters := ParseParameterList();
      if parameters.Err? {
        return Err(parameters.error);
      }
      b := MatchSingle(Lit("DO"));
      if !b {
        return Err(ErrorAt(tokens, index, "Expected 'DO' after method parameters."));
      }
      var statements := ParseBlock();
      if statements.Err? {
        return Err(statements.error);
      }
      return Ok(Method(name, parameters.value, [], None, statements.value, None));
    }

    /** The parameter list of parseMethod after its '(': ')' at once, or a do-while loop
        over names separated by ',' and then ')'. */
    method ParseParameterList() returns (r: Result<seq<string>, ParseError>)
      requires Valid()
      modifies this
      ensures Valid() && Follows(r, PParameterList(tokens, old(index)), index)
    {
      var parameters: seq<string> := [];
      var b := MatchSingle(Lit(")"));
      if !b {
        ghost var goal := PParameters(tokens, index, []);
        while true
          invariant Valid() && PParameters(tokens, index, parameters) == goal
          decreases |tokens| - index
        {
          b := MatchSingle(Kind(IDENTIFIER));
          if !b {
            return Err(ErrorAt(tokens, index, "Expected parameter name."));
          }
          parameters := parameters + [Get(-1).literal];
          b := MatchSingle(Lit(","));
          if !b {
            assert goal == Ok((parameters, index));
            break;
          }
        }
        b := MatchSingle(Lit(")"));
        if !b {
          return Err(ErrorAt(tokens, index, "Expected ')' after parameters."));
        }
      }
      return Ok(parameters);
    }

    /** The loop `while (!match("END")) statements.add(parseStatement());` that ends a
        method, an else branch, a for and a while. */
    method ParseBlock() returns (r: Result<seq<Stmt>, ParseError>)
      requires Valid()
      modifies this
      ensures Valid() && Follows(r, PBlock(tokens, old(index), []), index)
      decreases |tokens| - index, 11, 0
    {
      var statements: seq<Stmt> := [];
      while true
        invariant Valid() && old(index) <= index
        invariant PBlock(tokens, index, statements) == PBlock(tokens, old(index), [])
        decreases |tokens| - index
      {
        var b := MatchSingle(Lit("END"));
        if b {
          break;
        }
        var s := ParseStatement();
        if s.Err? {
          return Err(s.error);
        }
        statements := statements + [s.value];
      }
      return Ok(statements);
    }

    method ParseStatement() returns (r: Result<Stmt, ParseError>)
      requires Valid()
      modifies this
      ensures Valid() && Follows(r, PStatement(tokens, old(index)), index)
      decreases |tokens| - index, 10, 1
    {
      var b := MatchSingle(Lit("LET"));
      if b {
        r := ParseDeclarationStatement();
        return;
      }
      b := MatchSingle(Lit("IF"));
      if b {
        r := ParseIfStatement();
        return;
      }
      b := MatchSingle(Lit("WHILE"));
      if b {
        r := ParseWhileStatement();
        return;
      }
      b := MatchSingle(Lit("RETURN"));
      if b {
        r := ParseReturnStatement();
        return;
      }
      r := ParseExpressionStatement();
    }

    /** The last case of parseStatement: an expression or an assignment. */
    method ParseExpressionStatement() returns (r: Result<Stmt, ParseError>)
      requires Valid()
      modifies this
      ensures Valid() && Follows(r, PExpressionStatement(tokens, old(index)), index)
      decreases |tokens| - index, 10, 0
    {
      var expr := ParseExpression();
      if expr.Err? {
        return Err(expr.error);
      }
      var b := MatchSingle(Lit("="));
      if b {
        var value := ParseExpression();
        if value.Err? {
          return Err(value.error);
        }
        b := MatchSingle(Lit(";"));
        if !b {
          return Err(ErrorAt(tokens, index, "Expected ';' after assignment."));
        }
        return Ok(Assignment(expr.value, value.value));
      }
      b := MatchSingle(Lit(";"));
      if !b {
        return Err(ErrorAt(tokens, index, "Expected ';' after expression."));
      }
      return Ok(Expression(expr.value));
    }

    method ParseDeclarationStatement() returns (r: Result<Stmt, ParseError>)
      requires Valid()
      modifies this
      ensures Valid() && Follows(r, PDeclaration(tokens, old(index)), index)
      decreases |tokens| - index, 9, 0
    {
      var b := MatchSingle(Lit("LET"));
      if !b {
        return Err(ErrorAt(tokens, index, "Expected 'LET' at the start of a declaration statement."));
      }
      b := MatchSingle(Kind(IDENTIFIER));
      if !b {
        return Err(ErrorAt(tokens, index, "Expected identifier after 'LET'."));
      }
      var name := Get(-1).literal;
      ghost var afterName := index;
      var initializer: Option<Expr> := None;
      b := MatchSingle(Lit("="));
      if b {
        var e := ParseExpression();
        if e.Err? {
          return Err(e.error);
        }
        initializer := Some(e.value);
      }
      assert PInitializer(tokens, afterName) == Ok((initializer, index));
      b := MatchSingle(Lit(";"));
      if !b {
        return Err(ErrorAt(tokens, index, "Expected ';' after declaration."));
      }
      return Ok(Declaration(name, None, initializer, None));
    }

    method ParseIfStatement() returns (r: Result<Stmt, ParseError>)
      requires Valid()
      modifies this
      ensures Valid() && Follows(r, PIf(tokens, old(index)), index)
      decreases |tokens| - index, 9, 0
    {
      var b := MatchSingle(Lit("IF"));
      if !b {
        return Err(ErrorAt(tokens, index, "Expected 'IF' at the start of an if statement."));
      }
      var condition := ParseExpression();
      if condition.Err? {
        return Err(condition.error);
      }
      b := MatchSingle(Lit("DO"));
      if !b {
        return Err(ErrorAt(tokens, index, "Expected 'DO' after condition in if statement."));
      }
      var thenStatements := ParseThenStatements();
      if thenStatements.Err? {
        return Err(thenStatements.error);
      }
      var elseStatements: seq<Stmt> := [];
      b := MatchSingle(Lit("ELSE"));
      if b {
        var block := ParseBlock();
        if block.Err? {
          return Err(block.error);
        }
        elseStatements := block.value;
      } else {
        b := MatchSingle(Lit("END"));
        if !b {
          return Err(ErrorAt(tokens, index, "Expected 'END' to terminate the if statement."));
        }
      }
      return Ok(If(condition.value, thenStatements.value, elseStatements));
    }

    /** The then-loop of parseIfStatement: statements until the run ELSE END is next. */
    method ParseThenStatements() returns (r: Result<seq<Stmt>, ParseError>)
      requires Valid()
      modifies this
      ensures Valid() && Follows(r, PThen(tokens, old(index), []), index)
      decreases |tokens| - index, 11, 1
    {
      var statements: seq<Stmt> := [];
      while true
        invariant Valid() && old(index) <= index
        invariant PThen(tokens, index, statements) == PThen(tokens, old(index), [])
        decreases |tokens| - index
      {
        var b := Peek([Lit("ELSE"), Lit("END")]);
        if b {
          break;
        }
        var s := ParseStatement();
        if s.Err? {
          return Err(s.error);
        }
        statements := statements + [s.value];
      }
      return Ok(statements);
    }

    /** parseForStatement, which no other rule calls. */
    method ParseForStatement() returns (r: Result<Stmt, ParseError>)
      requires Valid()
      modifies this
      ensures Valid() && Follows(r, PFor(tokens, old(index)), index)
    {
      var b := MatchSingle(Lit("FOR"));
      if !b {
        return Err(ErrorAt(tokens, index, "Expected 'FOR' at the start of a for loop."));
      }
      b := MatchSingle(Kind(IDENTIFIER));
      if !b {
        return Err(ErrorAt(tokens, index, "Expected identifier after 'FOR'."));
      }
      var name := Get(-1).literal;
      b := MatchSingle(Lit("IN"));
      if !b {
        return Err(ErrorAt(tokens, index, "Expected 'IN' after identifier in for loop."));
      }
      var value := ParseExpression();
      if value.Err? {
        return Err(value.error);
      }
      b := MatchSingle(Lit("DO"));
      if !b {
        return Err(ErrorAt(tokens, index, "Expected 'DO' after range in for loop."));
      }
      var statements := ParseBlock();
      if statements.Err? {
        return Err(statements.error);
      }
      return Ok(For(name, value.value, statements.value));
    }

    method ParseWhileStatement() returns (r: Result<Stmt, ParseError>)
      requires Valid()
      modifies this
      ensures Valid() && Follows(r, PWhile(tokens, old(index)), index)
      decreases |tokens| - index, 9, 0
    {
      var b := MatchSingle(Lit("WHILE"));
      if !b {
        return Err(ErrorAt(tokens, index, "Expected 'WHILE' at the start of a while loop."));
      }
      var condition := ParseExpression();
      if condition.Err? {
        return Err(condition.error);
      }
      b := MatchSingle(Lit("DO"));
      if !b {
        return Err(ErrorAt(tokens, index, "Expected 'DO' after condition in while loop."));
      }
      var statements := ParseBlock();
      if statements.Err? {
        return Err(statements.error);
      }
      return Ok(While(condition.value, statements.value));
    }

    method ParseReturnStatement() returns (r: Result<Stmt, ParseError>)
      requires Valid()
      modifies this
      ensures Valid() && Follows(r, PReturn(tokens, old(index)), index)
      decreases |tokens| - index, 9, 0
    {
      var b := MatchSingle(Lit("RETURN"));
      if !b {
        return Err(ErrorAt(tokens, index, "Expected 'RETURN' at the start of a return statement."));
      }
      var value := ParseExpression();
      if value.Err? {
        return Err(value.error);
      }
      b := MatchSingle(Lit(";"));
      if !b {
        return Err(ErrorAt(tokens, index, "Expected ';' after return statement."));
      }
      return Ok(Return(value.value));
    }

    method ParseExpression() returns (r: Result<Expr, ParseError>)
      requires Valid()
      modifies this
      ensures Valid() && Follows(r, PExpression(tokens, old(index)), index)
      decreases |tokens| - index, 6, 0
    {
      r := ParseLogicalExpression();
    }

    method ParseLogicalExpression() returns (r: Result<Expr, ParseError>)
      requires Valid()
      modifies this
      ensures Valid() && Follows(r, PBinary(tokens, old(index), LogicalLevel), index)
      decreases |tokens| - index, 5, 0
    {
      var first := ParseEqualityExpression();
      if first.Err? {
        return Err(first.error);
      }
      var expr := first.value;
      ghost var goal := PBinary(tokens, old(index), LogicalLevel);
      assert POperand(tokens, old(index), LogicalLevel) == PBinary(tokens, old(index), EqualityLevel);
      while true
        invariant Valid() && old(index) < index
        invariant PBinaryRest(tokens, index, expr, LogicalLevel) == goal
        decreases |tokens| - index
      {
        ghost var i := index;
        var b := Match([Lit("AND"), Lit("OR")]);
        if !b {
          assert goal == Ok((expr, i));
          break;
        }
        var operator := Get(-1).literal;
        var right := ParseEqualityExpression();
        if right.Err? {
          assert goal == Err(right.error);
          return Err(right.error);
        }
        assert goal == PBinaryRest(tokens, index, Binary(operator, expr, right.value, None), LogicalLevel);
        expr := Binary(operator, expr, right.value, None);
      }
      return Ok(expr);
    }

    method ParseEqualityExpression() returns (r: Result<Expr, ParseError>)
      requires Valid()
      modifies this
      ensures Valid() && Follows(r, PBinary(tokens, old(index), EqualityLevel), index)
      decreases |tokens| - index, 4, 0
    {
      var first := ParseAdditiveExpression();
      if first.Err? {
        return Err(first.error);
      }
      var expr := first.value;
      ghost var goal := PBinary(tokens, old(index), EqualityLevel);
      assert POperand(tokens, old(index), EqualityLevel) == PBinary(tokens, old(index), AdditiveLevel);
      while true
        invariant Valid() && old(index) < index
        invariant PBinaryRest(tokens, index, expr, EqualityLevel) == goal
        decreases |tokens| - index
      {
        ghost var i := index;
        var b := Match([Lit("=="), Lit("!="), Lit("<"), Lit("<="), Lit(">"), Lit(">=")]);
        if !b {
          assert goal == Ok((expr, i));
          break;
        }
        var operator := Get(-1).literal;
        var right := ParseAdditiveExpression();
        if right.Err? {
          assert goal == Err(right.error);
          return Err(right.error);
        }
        assert goal == PBinaryRest(tokens, index, Binary(operator, expr, right.value, None), EqualityLevel);
        expr := Binary(operator, expr, right.value, None);
      }
      return Ok(expr);
    }

    method ParseAdditiveExpression() returns (r: Result<Expr, ParseError>)
      requires Valid()
      modifies this
      ensures Valid() && Follows(r, PBinary(tokens, old(index), AdditiveLevel), index)
      decreases |tokens| - index, 3, 0
    {
      var first := ParseMultiplicativeExpression();
      if first.Err? {
        return Err(first.error);
      }
      var expr := first.value;
      ghost var goal := PBinary(tokens, old(index), AdditiveLevel);
      assert POperand(tokens, old(index), AdditiveLevel) == PBinary(tokens, old(index), MultiplicativeLevel);
      while true
        invariant Valid() && old(index) < index
        invariant PBinaryRest(tokens, index, expr, AdditiveLevel) == goal
        decreases |tokens| - index
      {
        ghost var i := index;
        var b := Match([Lit("+"), Lit("-")]);
        if !b {
          assert goal == Ok((expr, i));
          break;
        }
        var operator := Get(-1).literal;
        var right := ParseMultiplicativeExpression();
        if right.Err? {
          assert goal == Err(right.error);
          return Err(right.error);
        }
        assert goal == PBinaryRest(tokens, index, Binary(operator, expr, right.value, None), AdditiveLevel);
        expr := Binary(operator, expr, right.value, None);
      }
      return Ok(expr);
    }

    method ParseMultiplicativeExpression() returns (r: Result<Expr, ParseError>)
      requires Valid()
      modifies this
      ensures Valid() && Follows(r, PBinary(tokens, old(index), MultiplicativeLevel), index)
      decreases |tokens| - index, 2, 0
    {
      var first := ParseSecondaryExpression();
      if first.Err? {
        return Err(first.error);
      }
      var expr := first.value;
      ghost var goal := PBinary(tokens, old(index), MultiplicativeLevel);
      assert POperand(tokens, old(index), MultiplicativeLevel) == PSecondary(tokens, old(index));
      while true
        invariant Valid() && old(index) < index
        invariant PBinaryRest(tokens, index, expr, MultiplicativeLevel) == goal
        decreases |tokens| - index
      {
        ghost var i := index;
        var b := Match([Lit("*"), Lit("/")]);
        if !b {
          assert goal == Ok((expr, i));
          break;
        }
        var operator := Get(-1).literal;
        var right := ParseSecondaryExpression();
        if right.Err? {
          assert goal == Err(right.error);
          return Err(right.error);
        }
        assert goal == PBinaryRest(tokens, index, Binary(operator, expr, right.value, None), MultiplicativeLevel);
        expr := Binary(operator, expr, right.value, None);
      }
      return Ok(expr);
    }

    method ParseSecondaryExpression() returns (r: Result<Expr, ParseError>)
      requires Valid()
      modifies this
      ensures Valid() && Follows(r, PSecondary(tokens, old(index)), index)
      decreases |tokens| - index, 1, 1
    {
      var first := ParsePrimaryExpression();
      if first.Err? {
        return Err(first.error);
      }
      var expr := first.value;
      while true
        invariant Valid() && old(index) < index
        invariant PSecondaryRest(tokens, index, expr) == PSecondary(tokens, old(index))
        decreases |tokens| - index
      {
        var b := MatchSingle(Lit("."));
        if !b {
          break;
        }
        b := MatchSingle(Kind(IDENTIFIER));
        if !b {
          return Err(ErrorAt(tokens, index, "Expected identifier after '.'."));
        }
        var name := Get(-1).literal;
        b := MatchSingle(Lit("("));
        if b {
          var arguments := ParseArguments();
          if arguments.Err? {
            return Err(arguments.error);
          }
          expr := Call(Some(expr), name, arguments.value, None);
        } else {
          expr := Access(Some(expr), name, None);
        }
      }
      return Ok(expr);
    }

    /** The argument list after its '(', as the secondary and primary rules both read it. */
    method ParseArguments() returns (r: Result<seq<Expr>, ParseError>)
      requires Valid()
      modifies this
      ensures Valid() && Follows(r, PArguments(tokens, old(index)), index)
      decreases |tokens| - index, 8, 1
    {
      var arguments: seq<Expr> := [];
      var b := MatchSingle(Lit(")"));
      if !b {
        ghost var goal := PArgumentList(tokens, index, []);
        while true
          invariant Valid() && old(index) <= index
          invariant PArgumentList(tokens, index, arguments) == goal
          decreases |tokens| - index
        {
          var argument := ParseExpression();
          if argument.Err? {
            return Err(argument.error);
          }
          arguments := arguments + [argument.value];
          b := MatchSingle(Lit(","));
          if !b {
            break;
          }
        }
        b := MatchSingle(Lit(")"));
        if !b {
          return Err(ErrorAt(tokens, index, "Expected ')' after arguments."));
        }
      }
      return Ok(arguments);
    }

    method ParsePrimaryExpression() returns (r: Result<Expr, ParseError>)
      requires Valid()
      modifies this
      ensures Valid() && Follows(r, PPrimary(tokens, old(index)), index)
      decreases |tokens| - index, 0, 0
    {
      var b := MatchSingle(Lit("TRUE"));
      if !b {
        b := MatchSingle(Lit("true"));
      }
      if b {
        return Ok(Expr.Literal(BoolLit(true), None));
      }
      b := MatchSingle(Lit("FALSE"));
      if !b {
        b := MatchSingle(Lit("false"));
      }
      if b {
        return Ok(Expr.Literal(BoolLit(false), None));
      }
      b := MatchSingle(Kind(TokenType.INTEGER));
      if !b {
        b := MatchSingle(Kind(TokenType.DECIMAL));
      }
      if !b {
        b := MatchSingle(Kind(TokenType.CHARACTER));
      }
      if !b {
        b := MatchSingle(Kind(TokenType.STRING));
      }
      if b {
        var v := LiteralValue(Get(-1));
        if v.Err? {
          return Err(v.error);
        }
        return Ok(Expr.Literal(v.value, None));
      }
      b := MatchSingle(Kind(IDENTIFIER));
      if b {
        var name := Get(-1).literal;
        b := MatchSingle(Lit("("));
        if b {
          var arguments := ParseArguments();
          if arguments.Err? {
            return Err(arguments.error);
          }
          return Ok(Call(None, name, arguments.value, None));
        }
        return Ok(Access(None, name, None));
      }
      b := MatchSingle(Lit("("));
      if b {
        var expr := ParseExpression();
        if expr.Err? {
          return Err(expr.error);
        }
        b := MatchSingle(Lit(")"));
        if !b {
          return Err(ErrorAt(tokens, index, "Expected ')' after expression."));
        }
        return Ok(Group(expr.value, None));
      }
      return Err(ErrorAt(tokens, index, "Expected a primary expression."));
    }
  }
}
