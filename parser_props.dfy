/**
 * Properties of the parsing rules of Parser.java, stated over the spec functions of
 * module Parsing (which the Parser class is proved to follow): sequence matching of
 * operator runs, the doubled keywords, the shape of if statements, where parseSource
 * stops, and what the literal rule decodes.
 */
module ParserProperties {
  import opened Wrappers
  import opened Numbers
  import opened Ast
  import opened Parsing

  // ---------------------------------------------------------------------------
  // peek and match

  /** A run of patterns matches exactly when its two halves match one after the other. */
  lemma PeekAtAppend(ts: seq<Token>, i: nat, ps: seq<Pattern>, qs: seq<Pattern>)
    ensures PeekAt(ts, i, ps + qs) <==> PeekAt(ts, i, ps) && PeekAt(ts, i + |ps|, qs)
  {
    var pq := ps + qs;
    if PeekAt(ts, i, pq) {
      forall k | 0 <= k < |ps| ensures PatternMatches(ps[k], ts[i + k]) {
        assert pq[k] == ps[k];
      }
      forall k | 0 <= k < |qs| ensures PatternMatches(qs[k], ts[i + |ps| + k]) {
        assert pq[|ps| + k] == qs[k];
      }
    }
    if PeekAt(ts, i, ps) && PeekAt(ts, i + |ps|, qs) {
      forall k | 0 <= k < |pq| ensures PatternMatches(pq[k], ts[i + k]) {
        if k < |ps| {
          assert pq[k] == ps[k];
        } else {
          assert pq[k] == qs[k - |ps|];
          assert ts[i + k] == ts[i + |ps| + (k - |ps|)];
        }
      }
    }
  }

  // ---------------------------------------------------------------------------
  // Binary expressions

  /** The literal of the last pattern of a level's run. */
  function LastOperator(l: Level): string {
    match l
    case LogicalLevel => "OR"
    case EqualityLevel => ">="
    case AdditiveLevel => "-"
    case MultiplicativeLevel => "/"
  }

  /** `e` is `base` under zero or more unresolved Binary(op, _, _) nodes on its left spine. */
  predicate LeftSpine(e: Expr, base: Expr, op: string)
    decreases e
  {
    e == base || (e.Binary? && e.operator == op && e.ty == None && LeftSpine(e.left, base, op))
  }

  lemma {:induction false} LeftSpineStep(e: Expr, base: Expr, right: Expr, op: string)
    requires LeftSpine(e, Binary(op, base, right, None), op)
    ensures LeftSpine(e, base, op)
    decreases e
  {
    if e != Binary(op, base, right, None) {
      LeftSpineStep(e.left, base, right, op);
    }
  }

  /** The matched run's last token is the operator, and it equals the last pattern. */
  lemma LastOperatorMatched(ts: seq<Token>, i: nat, l: Level)
    requires PeekAt(ts, i, Operators(l))
    ensures ts[i + |Operators(l)| - 1].literal == LastOperator(l)
  {
    var ops := Operators(l);
    assert PatternMatches(ops[|ops| - 1], ts[i + (|ops| - 1)]);
  }

  /** The loop of a binary rule grows the tree to the left, and because the whole run is
      matched, every node it builds carries the run's last literal: "OR" for the logical
      rule, ">=" for the comparisons, "-" and "/" for the arithmetic rules. */
  lemma {:induction false} BinaryRestSpine(ts: seq<Token>, i: nat, left: Expr, l: Level)
    requires i <= |ts|
    ensures PBinaryRest(ts, i, left, l).Ok? ==> LeftSpine(PBinaryRest(ts, i, left, l).value.0, left, LastOperator(l))
    decreases |ts| - i
  {
    var ops := Operators(l);
    if PeekAt(ts, i, ops) {
      LastOperatorMatched(ts, i, l);
      match POperand(ts, i + |ops|, l)
      case Err(_) =>
      case Ok((right, j)) =>
        var node := Binary(LastOperator(l), left, right, None);
        assert PBinaryRest(ts, i, left, l) == PBinaryRest(ts, j, node, l);
        BinaryRestSpine(ts, j, node, l);
        if PBinaryRest(ts, j, node, l).Ok? {
          LeftSpineStep(PBinaryRest(ts, j, node, l).value.0, left, right, LastOperator(l));
        }
    }
  }

  /** A binary rule's result is its first operand under a left spine of that operator. */
  lemma BinarySpine(ts: seq<Token>, i: nat, l: Level)
    requires i <= |ts|
    ensures PBinary(ts, i, l).Ok? ==>
      POperand(ts, i, l).Ok? && LeftSpine(PBinary(ts, i, l).value.0, POperand(ts, i, l).value.0, LastOperator(l))
  {
    match POperand(ts, i, l)
    case Err(_) =>
    case Ok((left, j)) => BinaryRestSpine(ts, j, left, l);
  }

  function Ident(name: string, index: int): Token {
    Token(IDENTIFIER, name, index)
  }

  /** A run matches only where its first two patterns match. */
  lemma RunPrefix(ts: seq<Token>, i: nat, ps: seq<Pattern>)
    requires |ps| >= 2
    ensures PeekAt(ts, i, ps) ==> At(ts, i, ps[0]) && At(ts, i + 1, ps[1])
  {
    if PeekAt(ts, i, ps) {
      assert PatternMatches(ps[0], ts[i + 0]) && PatternMatches(ps[1], ts[i + 1]);
    }
  }

  /** `a AND b`: the run AND OR is not there, so the expression is `a` alone and the
      cursor stops before AND. */
  lemma LoneAndStops()
    ensures PExpression([Ident("a", 1), Ident("AND", 5), Ident("b", 7)], 0) == Ok((Access(None, "a", None), 1))
  {
    var ts := [Ident("a", 1), Ident("AND", 5), Ident("b", 7)];
    var a := Access(None, "a", None);
    assert PPrimary(ts, 0) == Ok((a, 1));
    assert !At(ts, 1, Lit("."));
    assert PSecondary(ts, 0) == Ok((a, 1));
    RunPrefix(ts, 1, Operators(MultiplicativeLevel));
    assert PBinary(ts, 0, MultiplicativeLevel) == Ok((a, 1));
    RunPrefix(ts, 1, Operators(AdditiveLevel));
    assert PBinary(ts, 0, AdditiveLevel) == Ok((a, 1));
    RunPrefix(ts, 1, Operators(EqualityLevel));
    assert PBinary(ts, 0, EqualityLevel) == Ok((a, 1));
    RunPrefix(ts, 1, Operators(LogicalLevel));
  }

  /** The tokens of `a AND OR b`. */
  function AndOrTokens(): seq<Token> {
    [Ident("a", 1), Ident("AND", 5), Ident("OR", 8), Ident("b", 10)]
  }

  lemma AndOrLeftOperand()
    ensures PBinary(AndOrTokens(), 0, EqualityLevel) == Ok((Access(None, "a", None), 1))
  {
    var ts := AndOrTokens();
    var a := Access(None, "a", None);
    assert PSecondary(ts, 0) == Ok((a, 1)) by {
      assert PPrimary(ts, 0) == Ok((a, 1));
      assert !At(ts, 1, Lit("."));
    }
    RunPrefix(ts, 1, Operators(MultiplicativeLevel));
    RunPrefix(ts, 1, Operators(AdditiveLevel));
    RunPrefix(ts, 1, Operators(EqualityLevel));
  }

  lemma AndOrRightOperand()
    ensures PBinary(AndOrTokens(), 3, EqualityLevel) == Ok((Access(None, "b", None), 4))
  {
    var ts := AndOrTokens();
    var b := Access(None, "b", None);
    assert PSecondary(ts, 3) == Ok((b, 4)) by {
      assert PPrimary(ts, 3) == Ok((b, 4));
    }
    assert !PeekAt(ts, 4, Operators(MultiplicativeLevel));
    assert !PeekAt(ts, 4, Operators(AdditiveLevel));
    assert !PeekAt(ts, 4, Operators(EqualityLevel));
  }

  /** The two-token run `AND OR` is one operator, recorded as "OR". */
  lemma AndOrRunIsOr()
    ensures PExpression([Ident("a", 1), Ident("AND", 5), Ident("OR", 8), Ident("b", 10)], 0)
      == Ok((Binary("OR", Access(None, "a", None), Access(None, "b", None), None), 4))
  {
    var ts := AndOrTokens();
    var a, b := Access(None, "a", None), Access(None, "b", None);
    AndOrLeftOperand();
    AndOrRightOperand();
    assert POperand(ts, 0, LogicalLevel) == Ok((a, 1));
    assert POperand(ts, 3, LogicalLevel) == Ok((b, 4));
    var or := Binary("OR", a, b, None);
    assert PBinaryRest(ts, 4, or, LogicalLevel) == Ok((or, 4)) by {
      assert !PeekAt(ts, 4, Operators(LogicalLevel));
    }
    assert PBinaryRest(ts, 1, a, LogicalLevel) == Ok((or, 4)) by {
      assert Operators(LogicalLevel) == [Lit("AND"), Lit("OR")];
      PeekTwo(ts, 1, Lit("AND"), Lit("OR"));
      assert PeekAt(ts, 1, Operators(LogicalLevel));
      assert ts[1 + 2 - 1].literal == "OR";
    }
    assert PBinary(ts, 0, LogicalLevel) == Ok((or, 4));
  }

  // ---------------------------------------------------------------------------
  // Where the rules stop

  /** With no tokens left, an expression fails on the missing token, not with a
      ParseException. */
  lemma ExhaustedExpression(ts: seq<Token>)
    ensures PExpression(ts, |ts|) == Err(IndexOutOfBounds)
  {
    assert PPrimary(ts, |ts|) == Err(IndexOutOfBounds);
    assert PSecondary(ts, |ts|) == Err(IndexOutOfBounds);
    assert PBinary(ts, |ts|, MultiplicativeLevel) == Err(IndexOutOfBounds);
    assert PBinary(ts, |ts|, AdditiveLevel) == Err(IndexOutOfBounds);
    assert PBinary(ts, |ts|, EqualityLevel) == Err(IndexOutOfBounds);
    assert PBinary(ts, |ts|, LogicalLevel) == Err(IndexOutOfBounds);
  }

  /** A block that runs out of tokens before its END fails the same way. */
  lemma ExhaustedBlock(ts: seq<Token>, acc: seq<Stmt>)
    ensures PStatement(ts, |ts|) == Err(IndexOutOfBounds)
    ensures PBlock(ts, |ts|, acc) == Err(IndexOutOfBounds)
  {
    ExhaustedExpression(ts);
  }

  /** A block ends just after an END token. */
  lemma {:induction false} BlockEndsWithEnd(ts: seq<Token>, i: nat, acc: seq<Stmt>)
    requires i <= |ts|
    ensures PBlock(ts, i, acc).Ok? ==> At(ts, PBlock(ts, i, acc).value.1 - 1, Lit("END"))
    decreases |ts| - i
  {
    if !At(ts, i, Lit("END")) {
      match PStatement(ts, i)
      case Err(_) =>
      case Ok((s, j)) => BlockEndsWithEnd(ts, j, acc + [s]);
    }
  }

  /** The then-loop of an if statement leaves the cursor on the run ELSE END. */
  lemma {:induction false} ThenStopsAtElseEnd(ts: seq<Token>, i: nat, acc: seq<Stmt>)
    requires i <= |ts|
    ensures PThen(ts, i, acc).Ok? ==>
      At(ts, PThen(ts, i, acc).value.1, Lit("ELSE")) && At(ts, PThen(ts, i, acc).value.1 + 1, Lit("END"))
    decreases |ts| - i
  {
    if !(At(ts, i, Lit("ELSE")) && At(ts, i + 1, Lit("END"))) {
      match PStatement(ts, i)
      case Err(_) =>
      case Ok((s, j)) => ThenStopsAtElseEnd(ts, j, acc + [s]);
    }
  }

  /** A parsed if statement always has an empty else list: the then-loop stops only at
      ELSE END, the ELSE is matched and its block ends at once at that END. */
  lemma IfElseEmpty(ts: seq<Token>, i: nat)
    requires i <= |ts|
    ensures PIf(ts, i).Ok? ==> PIf(ts, i).value.0.elseStatements == []
    ensures PIf(ts, i).Ok? ==>
      2 <= PIf(ts, i).value.1 && At(ts, PIf(ts, i).value.1 - 2, Lit("ELSE")) && At(ts, PIf(ts, i).value.1 - 1, Lit("END"))
  {
    if At(ts, i, Lit("IF")) {
      match PExpression(ts, i + 1)
      case Err(_) =>
      case Ok((_, j)) =>
        if At(ts, j, Lit("DO")) {
          ThenStopsAtElseEnd(ts, j + 1, []);
          match PThen(ts, j + 1, [])
          case Err(_) =>
          case Ok((_, k)) =>
            assert PBlock(ts, k + 1, []) == Ok(([], k + 2));
        }
    }
  }

  // ---------------------------------------------------------------------------
  // Doubled keywords

  /** parseSource matches LET and parseField demands a second one. */
  lemma SingleLetField(ts: seq<Token>, i: nat)
    requires At(ts, i, Lit("LET")) && !At(ts, i + 1, Lit("LET"))
    ensures PSource(ts, i) == Err(ErrorAt(ts, i + 1, "Expected 'LET' at the start of a field declaration."))
  {
  }

  /** The same for DEF and parseMethod, once the fields are done. */
  lemma SingleDefMethod(ts: seq<Token>, i: nat)
    requires i <= |ts| && !At(ts, i, Lit("LET")) && At(ts, i, Lit("DEF")) && !At(ts, i + 1, Lit("DEF"))
    ensures PSource(ts, i) == Err(ErrorAt(ts, i + 1, "Expected 'DEF' at the start of a method declaration."))
  {
    assert PFields(ts, i, []) == Ok(([], i));
  }

  /** parseStatement matches its keyword and the statement rule demands it again. */
  lemma SingleStatementKeyword(ts: seq<Token>, i: nat)
    requires i < |ts| && !At(ts, i + 1, Lit(ts[i].literal))
    ensures ts[i].literal == "LET" ==>
      PStatement(ts, i) == Err(ErrorAt(ts, i + 1, "Expected 'LET' at the start of a declaration statement."))
    ensures ts[i].literal == "IF" ==>
      PStatement(ts, i) == Err(ErrorAt(ts, i + 1, "Expected 'IF' at the start of an if statement."))
    ensures ts[i].literal == "WHILE" ==>
      PStatement(ts, i) == Err(ErrorAt(ts, i + 1, "Expected 'WHILE' at the start of a while loop."))
    ensures ts[i].literal == "RETURN" ==>
      PStatement(ts, i) == Err(ErrorAt(ts, i + 1, "Expected 'RETURN' at the start of a return statement."))
  {
  }

  /** `DEF main() DO RETURN 1; END` as lexed: the name token carries the space before it
      and the index where it ends, and the lone DEF is refused at that token. */
  lemma LoneDefProgram(rest: seq<Token>)
    ensures PSource([Ident("DEF", 3), Ident(" main", 8)] + rest, 0)
      == Err(ParseException("Expected 'DEF' at the start of a method declaration.", 8))
  {
    var ts := [Ident("DEF", 3), Ident(" main", 8)] + rest;
    assert ts[0].literal == "DEF" && ts[1].literal == " main";
    SingleDefMethod(ts, 0);
  }

  // ---------------------------------------------------------------------------
  // parseSource

  lemma {:induction false} FieldsExtend(ts: seq<Token>, i: nat, acc: seq<Field>)
    requires i <= |ts|
    ensures PFields(ts, i, acc).Ok? ==> acc <= PFields(ts, i, acc).value.0
    ensures PFields(ts, i, acc).Ok? ==> (PFields(ts, i, acc).value.0 == acc <==> PFields(ts, i, acc).value.1 == i)
    decreases |ts| - i
  {
    if At(ts, i, Lit("LET")) {
      match PField(ts, i + 1)
      case Err(_) =>
      case Ok((f, j)) =>
        FieldsExtend(ts, j, acc + [f]);
        if PFields(ts, j, acc + [f]).Ok? {
          assert (acc + [f])[..|acc|] == acc;
        }
    }
  }

  lemma {:induction false} MethodsExtend(ts: seq<Token>, i: nat, acc: seq<Method>)
    requires i <= |ts|
    ensures PMethods(ts, i, acc).Ok? ==> acc <= PMethods(ts, i, acc).value.0
    ensures PMethods(ts, i, acc).Ok? ==> (PMethods(ts, i, acc).value.0 == acc <==> PMethods(ts, i, acc).value.1 == i)
    decreases |ts| - i
  {
    if At(ts, i, Lit("DEF")) {
      match PMethod(ts, i + 1)
      case Err(_) =>
      case Ok((m, j)) =>
        MethodsExtend(ts, j, acc + [m]);
        if PMethods(ts, j, acc + [m]).Ok? {
          assert (acc + [m])[..|acc|] == acc;
        }
    }
  }

  /** parseSource stops without error at the first token that continues neither loop:
      never at a DEF, and not at a LET either unless a method came after the fields. */
  lemma SourceStops(ts: seq<Token>, i: nat)
    requires i <= |ts|
    ensures PSource(ts, i).Ok? ==> !At(ts, PSource(ts, i).value.1, Lit("DEF"))
    ensures PSource(ts, i).Ok? && PSource(ts, i).value.0.methods == [] ==> !At(ts, PSource(ts, i).value.1, Lit("LET"))
  {
    match PFields(ts, i, [])
    case Err(_) =>
    case Ok((_, j)) => MethodsExtend(ts, j, []);
  }

  /** The tokens after the stop are left unread: an expression after the declarations is
      not an error, and it is not consumed. */
  lemma SourceLeavesRest()
    ensures PSource([Ident("x", 1), Token(OPERATOR, ";", 2)], 0) == Ok((Source([], []), 0))
  {
  }

  /** No method body holds a For statement: parseForStatement is never called. */
  lemma MethodForFree(ts: seq<Token>, i: nat)
    requires i <= |ts|
    ensures PMethod(ts, i).Ok? ==> AllNoFor(PMethod(ts, i).value.0.statements)
  {
    if At(ts, i, Lit("DEF")) && At(ts, i + 1, Kind(IDENTIFIER)) && At(ts, i + 2, Lit("(")) {
      match PParameterList(ts, i + 3)
      case Err(_) =>
      case Ok((_, j)) =>
        assert AllNoFor([]);
    }
  }

  lemma {:induction false} MethodsForFree(ts: seq<Token>, i: nat, acc: seq<Method>)
    requires i <= |ts|
    requires forall k :: 0 <= k < |acc| ==> AllNoFor(acc[k].statements)
    ensures PMethods(ts, i, acc).Ok? ==>
      forall k :: 0 <= k < |PMethods(ts, i, acc).value.0| ==> AllNoFor(PMethods(ts, i, acc).value.0[k].statements)
    decreases |ts| - i
  {
    if At(ts, i, Lit("DEF")) {
      MethodForFree(ts, i + 1);
      match PMethod(ts, i + 1)
      case Err(_) =>
      case Ok((m, j)) =>
        assert forall k :: 0 <= k < |acc + [m]| ==> AllNoFor((acc + [m])[k].statements);
        MethodsForFree(ts, j, acc + [m]);
    }
  }

  lemma SourceForFree(ts: seq<Token>, i: nat)
    requires i <= |ts|
    ensures PSource(ts, i).Ok? ==>
      forall k :: 0 <= k < |PSource(ts, i).value.0.methods| ==> AllNoFor(PSource(ts, i).value.0.methods[k].statements)
  {
    match PFields(ts, i, [])
    case Err(_) =>
    case Ok((_, j)) => MethodsForFree(ts, j, []);
  }

  // ---------------------------------------------------------------------------
  // Literals

  /** String.replace finds nothing to replace in a text without a backslash. */
  lemma {:induction false} ReplacePairIdentity(s: string, c: char, replacement: char)
    requires forall k :: 0 <= k < |s| ==> s[k] != '\\'
    ensures ReplacePair(s, c, replacement) == s
  {
    if s != [] {
      ReplacePairIdentity(s[1..], c, replacement);
      assert [s[0]] + s[1..] == s;
    }
  }

  /** An error is reported at the index of the token at position i, or as reading past
      the end when there is none. */
  lemma ErrorAtToken(ts: seq<Token>, i: nat, message: string)
    ensures ErrorAt(ts, i, message).ParseException? <==> i < |ts|
    ensures i < |ts| ==> ErrorAt(ts, i, message) == ParseException(message, ts[i].index)
    ensures i >= |ts| ==> ErrorAt(ts, i, message) == IndexOutOfBounds
  {
  }

  lemma UnescapeIdentity(s: string)
    requires forall k :: 0 <= k < |s| ==> s[k] != '\\'
    ensures Unescape(s) == s
  {
    ReplacePairIdentity(s, 'n', '\n');
    ReplacePairIdentity(s, 't', '\t');
  }

  /** Only `\n` and `\t` are decoded, left to right, and an escaped backslash is not: the
      backslash it leaves behind still pairs with a following `n`. */
  lemma UnescapeExamples()
    ensures Unescape("a\\nb") == "a\nb"
    ensures Unescape("\\r\\t") == "\\r\t"
    ensures Unescape("\\\\n") == "\\\n"
  {
    assert ReplacePair("a\\nb", 'n', '\n') == "a\nb" by {
      assert "a\\nb"[1..] == "\\nb" && "\\nb"[2..] == "b" && "b"[1..] == "";
    }
    assert ReplacePair("a\nb", 't', '\t') == "a\nb" by {
      ReplacePairIdentity("a\nb", 't', '\t');
    }
    assert ReplacePair("\\r\\t", 'n', '\n') == "\\r\\t" by {
      assert "\\r\\t"[1..] == "r\\t" && "r\\t"[1..] == "\\t" && "\\t"[1..] == "t" && "t"[1..] == "";
    }
    assert ReplacePair("\\r\\t", 't', '\t') == "\\r\t" by {
      assert "\\r\\t"[1..] == "r\\t" && "r\\t"[1..] == "\\t" && "\\t"[2..] == "";
    }
    assert ReplacePair("\\\\n", 'n', '\n') == "\\\n" by {
      assert "\\\\n"[1..] == "\\n" && "\\n"[2..] == "";
    }
    assert ReplacePair("\\\n", 't', '\t') == "\\\n" by {
      assert "\\\n"[1..] == "\n" && "\n"[1..] == "";
    }
  }

  /** A character literal is the literal's character at position 1, so an escape keeps
      only its backslash; a number literal that carries the whitespace before it is
      refused by BigInteger. */
  lemma LiteralExamples()
    ensures LiteralValue(Token(TokenType.CHARACTER, "'\\n'", 4)) == Ok(CharLit('\\'))
    ensures LiteralValue(Token(TokenType.STRING, "\"a\\tb\"", 6)) == Ok(StrLit("a\tb"))
    ensures LiteralValue(Token(TokenType.INTEGER, " -7", 3)) == Err(NumberFormat)
  {
    var lit := "\"a\\tb\"";
    assert lit[1..|lit| - 1] == "a\\tb";
    assert ReplacePair("a\\tb", 'n', '\n') == "a\\tb" by {
      assert "a\\tb"[1..] == "\\tb" && "\\tb"[1..] == "tb" && "tb"[1..] == "b" && "b"[1..] == "";
    }
    assert ReplacePair("a\\tb", 't', '\t') == "a\tb" by {
      assert "a\\tb"[1..] == "\\tb" && "\\tb"[2..] == "b" && "b"[1..] == "";
    }
    assert !AllDigits(" -7") by {
      assert !IsDigit(" -7"[0]);
    }
  }
}
