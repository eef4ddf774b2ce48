/**
 * Lexer.java: a tokenizer over a character stream with two cursors, `index` (the next
 * character) and `start` (where the current literal began). Each regular expression the
 * source tests one character against is a character class here.
 *
 * The spec functions (RunEnd, NumberLexeme, ScanEscape, ScanCharacter, ScanString,
 * TokenAt, LexFrom) say what each lexing step does to the stream; the methods of
 * CharStream and Lexer carry out the same steps on the two cursors and are proved to
 * agree with them.
 */
module Lexing {
  import opened Wrappers
  import opened Numbers
  import opened Ast

  /** The one-character patterns the lexer peeks and matches. */
  datatype CharClass =
    | Whitespace     // [ \n\r\t]
    | IdentStart     // [A-Za-z_]
    | IdentPart      // [A-Za-z0-9_-]
    | OptionalSign   // [+-]?
    | Digit          // [0-9]
    | Quote          // '
    | DoubleQuote    // "
    | Backslash      // \\
    | CharBody       // [^'\n\r\\]
    | StringBody     // [^"\n\r\\]
    | EscapeCode     // [bnrt'"\\]
    | Period         // \.
    | CompoundOp     // [<>!=]=
    | AnyChar        // .

  predicate IsLetter(c: char) {
    ('A' <= c <= 'Z') || ('a' <= c <= 'z')
  }

  /** The characters Java's `.` does not match: the line terminators. */
  predicate IsLineTerminator(c: char) {
    c == '\n' || c == '\r' || c == '\U{85}' || c == '\U{2028}' || c == '\U{2029}'
  }

  /** Whether String.valueOf(c).matches(pattern): a one-character string against each pattern.
      A two-character pattern such as [<>!=]= never matches a single character, and the
      optional sign matches a single character only when it is a sign. */
  predicate Matches(p: CharClass, c: char) {
    match p
    case Whitespace => c == ' ' || c == '\n' || c == '\r' || c == '\t'
    case IdentStart => IsLetter(c) || c == '_'
    case IdentPart => IsLetter(c) || IsDigit(c) || c == '_' || c == '-'
    case OptionalSign => c == '+' || c == '-'
    case Digit => IsDigit(c)
    case Quote => c == '\''
    case DoubleQuote => c == '"'
    case Backslash => c == '\\'
    case CharBody => c != '\'' && c != '\n' && c != '\r' && c != '\\'
    case StringBody => c != '"' && c != '\n' && c != '\r' && c != '\\'
    case EscapeCode => c == 'b' || c == 'n' || c == 'r' || c == 't' || c == '\'' || c == '"' || c == '\\'
    case Period => c == '.'
    case CompoundOp => false
    case AnyChar => !IsLineTerminator(c)
  }

  /** peek(p0, ..., pn-1): characters exist at offsets 0..n-1 and each matches its class. */
  predicate PeekAt(s: string, i: nat, ps: seq<CharClass>) {
    i + |ps| <= |s| && forall k :: 0 <= k < |ps| ==> Matches(ps[k], s[i + k])
  }

  /** peek(p) for one pattern. */
  predicate At(s: string, i: nat, p: CharClass) {
    i < |s| && Matches(p, s[i])
  }

  lemma PeekOne(s: string, i: nat, p: CharClass)
    ensures PeekAt(s, i, [p]) <==> At(s, i, p)
  {
    if PeekAt(s, i, [p]) {
      assert Matches([p][0], s[i + 0]);
    }
    if At(s, i, p) {
      assert forall k :: 0 <= k < 1 ==> [p][k] == p && i + k == i;
    }
  }

  lemma PeekTwo(s: string, i: nat, p: CharClass, q: CharClass)
    ensures PeekAt(s, i, [p, q]) <==> At(s, i, p) && At(s, i + 1, q)
  {
    if PeekAt(s, i, [p, q]) {
      assert [p, q][0] == p && [p, q][1] == q;
      assert Matches([p, q][0], s[i + 0]) && Matches([p, q][1], s[i + 1]);
    }
  }

  /** The position after match(p) at position i. */
  function After(s: string, i: nat, p: CharClass): (j: nat)
    requires i <= |s|
    ensures j == (if At(s, i, p) then i + 1 else i)
  {
    if At(s, i, p) then i + 1 else i
  }

  datatype LexError = ParseException(message: string, index: nat) | Stuck(at: nat)

  /** The stream position at which an error leaves the lexer: ParseException records
      chars.getIndex(), and a lexer that is stuck stays where it is. */
  function ErrorIndex(e: LexError): nat {
    match e
    case ParseException(_, i) => i
    case Stuck(i) => i
  }

  /** The end of a run of characters of class p starting at i (the loop `while (match(p));`). */
  function RunEnd(s: string, i: nat, p: CharClass): (j: nat)
    requires i <= |s|
    ensures i <= j <= |s|
    ensures forall k :: i <= k < j ==> Matches(p, s[k])
    ensures j == |s| || !Matches(p, s[j])
    decreases |s| - i
  {
    if i < |s| && Matches(p, s[i]) then RunEnd(s, i + 1, p) else i
  }

  datatype Lexeme = Lexeme(kind: TokenType, end: nat)

  /** lexNumber from position i: an optional sign, digits, and when a '.' follows, that
      '.' and the digits after it. */
  function NumberLexeme(s: string, i: nat): (l: Lexeme)
    requires i <= |s|
    ensures i <= l.end <= |s| && (l.kind == TokenType.INTEGER || l.kind == TokenType.DECIMAL)
    ensures At(s, i, OptionalSign) ==> i < l.end
  {
    var digitsEnd := RunEnd(s, After(s, i, OptionalSign), Digit);
    if digitsEnd < |s| && s[digitsEnd] == '.' then Lexeme(TokenType.DECIMAL, RunEnd(s, digitsEnd + 1, Digit))
    else Lexeme(TokenType.INTEGER, digitsEnd)
  }

  /** lexEscape from position i: a backslash and one escape code. */
  function ScanEscape(s: string, i: nat): (r: Result<nat, LexError>)
    requires i <= |s|
    ensures r.Ok? ==> r.value == i + 2 <= |s|
    ensures r.Err? ==> i <= ErrorIndex(r.error) <= |s|
  {
    if At(s, i, Backslash) then
      if At(s, i + 1, EscapeCode) then Ok(i + 2)
      else Err(ParseException("Invalid escape sequence", i + 1))
    else Err(ParseException("Expected escape sequence", i))
  }

  /** lexCharacter from position i: a quote, one plain character or one escape, a quote. */
  function ScanCharacter(s: string, i: nat): (r: Result<nat, LexError>)
    requires i <= |s|
    ensures r.Ok? ==> i < r.value <= |s|
    ensures r.Err? ==> i <= ErrorIndex(r.error) <= |s|
  {
    var open := After(s, i, Quote);
    var body :=
      if At(s, open, CharBody) then Ok(open + 1)
      else if At(s, open, Backslash) then ScanEscape(s, open)
      else Err(ParseException("Invalid character literal", open));
    match body
    case Err(e) => Err(e)
    case Ok(j) =>
      if At(s, j, Quote) then Ok(j + 1)
      else Err(ParseException("Unterminated character literal", j))
  }

  /** The loop of lexString from position i: while the next character is a string
      character or a backslash, consume an escape or one character; then a closing quote.
      A character the loop admits but `.` refuses (NEL, LS, PS) is never consumed, and the
      loop repeats the same iteration forever: the lexer is Stuck there. */
  function ScanStringBody(s: string, i: nat): (r: Result<nat, LexError>)
    requires i <= |s|
    ensures r.Ok? ==> i < r.value <= |s| && s[r.value - 1] == '"'
    ensures r.Err? ==> i <= ErrorIndex(r.error) <= |s|
    decreases |s| - i
  {
    if At(s, i, StringBody) || At(s, i, Backslash) then
      if At(s, i, Backslash) then
        match ScanEscape(s, i)
        case Err(e) => Err(e)
        case Ok(j) => ScanStringBody(s, j)
      else if At(s, i, AnyChar) then ScanStringBody(s, i + 1)
      else Err(Stuck(i))
    else if At(s, i, DoubleQuote) then Ok(i + 1)
    else Err(ParseException("Unterminated string", i))
  }

  function ScanString(s: string, i: nat): (r: Result<nat, LexError>)
    requires i <= |s|
    ensures r.Ok? ==> i < r.value <= |s|
    ensures r.Err? ==> i <= ErrorIndex(r.error) <= |s|
  {
    ScanStringBody(s, After(s, i, DoubleQuote))
  }

  function MapKind(r: Result<nat, LexError>, kind: TokenType): Result<Lexeme, LexError> {
    match r
    case Ok(j) => Ok(Lexeme(kind, j))
    case Err(e) => Err(e)
  }

  /** lexToken at position i: the first rule whose peek succeeds. The rule for
      peek("[<>!=]=", ".") is left out because its first pattern matches no character. */
  function TokenAt(s: string, i: nat): (r: Result<Lexeme, LexError>)
    requires i < |s|
    ensures r.Ok? ==> i < r.value.end <= |s|
    ensures r.Err? ==> i <= ErrorIndex(r.error) <= |s|
  {
    if At(s, i, IdentStart) then Ok(Lexeme(IDENTIFIER, RunEnd(s, After(s, i, IdentStart), IdentPart)))
    else if At(s, i, OptionalSign) && At(s, i + 1, Digit) then Ok(NumberLexeme(s, i))
    else if At(s, i, Quote) then MapKind(ScanCharacter(s, i), TokenType.CHARACTER)
    else if At(s, i, DoubleQuote) then MapKind(ScanString(s, i), TokenType.STRING)
    else if At(s, i, AnyChar) then Ok(Lexeme(OPERATOR, After(s, i, AnyChar)))
    else Err(ParseException("Invalid token", i))
  }

  /** The token built from a lexeme: the literal is everything since `start` (whitespace
      included) and the index is the end offset, or end - 1 for an operator. */
  function MakeToken(s: string, start: nat, l: Lexeme): Token
    requires start <= l.end <= |s|
  {
    Token(l.kind, s[start..l.end], if l.kind == OPERATOR then l.end - 1 else l.end)
  }

  /** Where lexing stops: the tokens or the error, and both cursors. */
  datatype LexOutcome = LexOutcome(result: Result<seq<Token>, LexError>, index: nat, start: nat)

  function Prepend(ts: seq<Token>, o: LexOutcome): LexOutcome {
    match o.result
    case Ok(rest) => o.(result := Ok(ts + rest))
    case Err(_) => o
  }

  /** lex() from cursors (i, start): skip whitespace without moving `start`, otherwise lex
      one token and continue after it. */
  function LexFrom(s: string, i: nat, start: nat): (o: LexOutcome)
    requires start <= i <= |s|
    ensures o.result.Ok? ==> o.index == |s| && start <= o.start <= |s|
    ensures o.result.Err? ==> o.index == ErrorIndex(o.result.error) && start <= o.start <= o.index && i <= o.index <= |s|
    decreases |s| - i
  {
    if i == |s| then LexOutcome(Ok([]), i, start)
    else if At(s, i, Whitespace) then LexFrom(s, i + 1, start)
    else
      match TokenAt(s, i)
      case Err(e) => LexOutcome(Err(e), ErrorIndex(e), start)
      case Ok(l) => Prepend([MakeToken(s, start, l)], LexFrom(s, l.end, l.end))
  }

  /** lex(): a whole program either lexes to the end or stops at the error's index. */
  function Lex(s: string): (o: LexOutcome)
    ensures o.result.Ok? ==> o.index == |s|
    ensures o.result.Err? ==> o.index == ErrorIndex(o.result.error) <= |s|
  {
    LexFrom(s, 0, 0)
  }

  /** Lexer.CharStream: the input and the two cursors. */
  class CharStream {
    const input: string
    var index: nat
    var start: nat

    ghost predicate Valid()
      reads this
    {
      start <= index <= |input|
    }

    constructor (input: string)
      ensures Valid() && this.input == input && index == 0 && start == 0
    {
      this.input := input;
      index := 0;
      start := 0;
    }

    function Has(offset: nat): (b: bool)
      reads this
      ensures b <==> index + offset < |input|
    {
      index + offset < |input|
    }

    function Get(offset: nat): (c: char)
      reads this
      requires index + offset < |input|
      ensures c == input[index + offset]
    {
      input[index + offset]
    }

    method Advance()
      requires Valid() && index < |input|
      modifies this
      ensures Valid() && index == old(index) + 1 && start == old(start)
    {
      index := index + 1;
    }

    /** The literal since `start`; `start` then moves up to `index`. */
    method Emit() returns (literal: string)
      requires Valid()
      modifies this
      ensures Valid() && index == old(index) && start == index && literal == input[old(start)..index]
    {
      literal := input[start..index];
      start := index;
    }
  }

  class Lexer {
    const chars: CharStream

    constructor (input: string)
      ensures chars.Valid() && fresh(chars) && chars.input == input && chars.index == 0 && chars.start == 0
    {
      chars := new CharStream(input);
    }

    /** peek: each pattern matches the character at its offset. */
    method Peek(patterns: seq<CharClass>) returns (b: bool)
      requires chars.Valid()
      ensures b == PeekAt(chars.input, chars.index, patterns)
      ensures |patterns| == 1 ==> (b <==> At(chars.input, chars.index, patterns[0]))
      ensures |patterns| == 2 ==> (b <==> At(chars.input, chars.index, patterns[0]) && At(chars.input, chars.index + 1, patterns[1]))
    {
      b := true;
      var i := 0;
      while i < |patterns|
        invariant 0 <= i <= |patterns| && chars.index + i <= |chars.input|
        invariant forall k :: 0 <= k < i ==> Matches(patterns[k], chars.input[chars.index + k])
      {
        if !chars.Has(i) || !Matches(patterns[i], chars.Get(i)) {
          b := false;
          break;
        }
        i := i + 1;
      }
      if |patterns| == 1 {
        assert patterns == [patterns[0]];
        PeekOne(chars.input, chars.index, patterns[0]);
      } else if |patterns| == 2 {
        assert patterns == [patterns[0], patterns[1]];
        PeekTwo(chars.input, chars.index, patterns[0], patterns[1]);
      }
    }

    /** match: peek, and on success advance once per pattern. */
    method Match(patterns: seq<CharClass>) returns (b: bool)
      requires chars.Valid()
      modifies chars
      ensures chars.Valid() && chars.start == old(chars.start)
      ensures b == PeekAt(chars.input, old(chars.index), patterns)
      ensures |patterns| == 1 ==> (b <==> At(chars.input, old(chars.index), patterns[0]))
      ensures chars.index == old(chars.index) + (if b then |patterns| else 0)
    {
      b := Peek(patterns);
      if b {
        var i := 0;
        while i < |patterns|
          invariant 0 <= i <= |patterns| && chars.Valid() && chars.start == old(chars.start)
          invariant chars.index == old(chars.index) + i
        {
          chars.Advance();
          i := i + 1;
        }
      }
    }

    /** peek with a single pattern, the form most rules use. */
    method PeekSingle(p: CharClass) returns (b: bool)
      requires chars.Valid()
      ensures b == At(chars.input, chars.index, p)
    {
      b := Peek([p]);
    }

    /** match with a single pattern. */
    method MatchSingle(p: CharClass) returns (b: bool)
      requires chars.Valid()
      modifies chars
      ensures chars.Valid() && chars.start == old(chars.start)
      ensures b == At(chars.input, old(chars.index), p)
      ensures chars.index == old(chars.index) + (if b then 1 else 0)
    {
      b := Match([p]);
    }

    /** `while (match(p));`: the cursor ends at the end of the run. */
    method MatchRun(p: CharClass)
      requires chars.Valid()
      modifies chars
      ensures chars.Valid() && chars.start == old(chars.start)
      ensures chars.index == RunEnd(chars.input, old(chars.index), p)
    {
      var more := true;
      while more
        invariant chars.Valid() && chars.start == old(chars.start)
        invariant RunEnd(chars.input, chars.index, p) == RunEnd(chars.input, old(chars.index), p)
        invariant !more ==> chars.index == RunEnd(chars.input, chars.index, p)
        decreases |chars.input| - chars.index, more
      {
        more := MatchSingle(p);
      }
    }

    /** lex: the token list, or the first error. */
    method Lex() returns (r: Result<seq<Token>, LexError>)
      requires chars.Valid()
      modifies chars
      ensures chars.Valid()
      ensures var o := LexFrom(chars.input, old(chars.index), old(chars.start));
        r == o.result && chars.index == o.index && chars.start == o.start
    {
      var tokens: seq<Token> := [];
      ghost var goal := LexFrom(chars.input, chars.index, chars.start);
      PrependEmpty(goal);
      while chars.Has(0)
        invariant chars.Valid()
        invariant Prepend(tokens, LexFrom(chars.input, chars.index, chars.start)) == goal
        decreases |chars.input| - chars.index
      {
        ghost var s, i, st := chars.input, chars.index, chars.start;
        var ws := PeekSingle(Whitespace);
        if ws {
          var _ := MatchSingle(Whitespace);
          assert LexFrom(s, i, st) == LexFrom(s, i + 1, st);
          assert Prepend(tokens, LexFrom(chars.input, chars.index, chars.start)) == goal;
        } else {
          var t := LexToken();
          if t.Err? {
            assert LexFrom(s, i, st) == LexOutcome(Err(t.error), chars.index, st);
            return Err(t.error);
          }
          ghost var rest := LexFrom(s, chars.index, chars.start);
          assert LexFrom(s, i, st) == Prepend([t.value], rest);
          PrependTwice(tokens, [t.value], rest);
          tokens := tokens + [t.value];
          assert Prepend(tokens, LexFrom(chars.input, chars.index, chars.start)) == goal;
        }
      }
      assert tokens + [] == tokens;
      r := Ok(tokens);
    }

    /** lexToken: the first rule whose peek succeeds. */
    method LexToken() returns (r: Result<Token, LexError>)
      requires chars.Valid() && chars.index < |chars.input|
      modifies chars
      ensures chars.Valid()
      ensures match TokenAt(chars.input, old(chars.index))
        case Ok(l) => r == Ok(MakeToken(chars.input, old(chars.start), l)) && chars.index == l.end && chars.start == l.end
        case Err(e) => r == Err(e) && chars.index == ErrorIndex(e) && chars.start == old(chars.start)
    {
      var b := PeekSingle(IdentStart);
      if b {
        var t := LexIdentifier();
        return Ok(t);
      }
      b := Peek([OptionalSign, Digit]);
      if b {
        var t := LexNumber();
        return Ok(t);
      }
      b := PeekSingle(Quote);
      if b {
        r := LexCharacter();
        return;
      }
      b := PeekSingle(DoubleQuote);
      if b {
        r := LexString();
        return;
      }
      b := Peek([CompoundOp, AnyChar]);
      // The compound-operator rule: its first pattern matches no single character.
      CompoundOpNeverMatches(chars.input, chars.index);
      assert !b;
      b := PeekSingle(AnyChar);
      if b {
        var t := LexOperator();
        return Ok(t);
      }
      return Err(ParseException("Invalid token", chars.index));
    }

    method LexIdentifier() returns (t: Token)
      requires chars.Valid()
      modifies chars
      ensures chars.Valid()
      ensures var l := Lexeme(IDENTIFIER, RunEnd(chars.input, After(chars.input, old(chars.index), IdentStart), IdentPart));
        t == MakeToken(chars.input, old(chars.start), l) && chars.index == l.end && chars.start == l.end
    {
      var _ := MatchSingle(IdentStart);
      MatchRun(IdentPart);
      var literal := chars.Emit();
      t := Token(IDENTIFIER, literal, chars.index);
    }

    method LexNumber() returns (t: Token)
      requires chars.Valid()
      modifies chars
      ensures chars.Valid()
      ensures var l := NumberLexeme(chars.input, old(chars.index));
        t == MakeToken(chars.input, old(chars.start), l) && chars.index == l.end && chars.start == l.end
    {
      ghost var s, i0 := chars.input, chars.index;
      var _ := MatchSingle(OptionalSign);
      MatchRun(Digit);
      ghost var digitsEnd := chars.index;
      assert digitsEnd == RunEnd(s, After(s, i0, OptionalSign), Digit);
      var dot := MatchSingle(Period);
      if dot {
        assert digitsEnd < |s| && s[digitsEnd] == '.';
        MatchRun(Digit);
        assert NumberLexeme(s, i0) == Lexeme(TokenType.DECIMAL, chars.index);
        var literal := chars.Emit();
        t := Token(TokenType.DECIMAL, literal, chars.index);
      } else {
        assert NumberLexeme(s, i0) == Lexeme(TokenType.INTEGER, chars.index);
        var literal := chars.Emit();
        t := Token(TokenType.INTEGER, literal, chars.index);
      }
    }

    method LexCharacter() returns (r: Result<Token, LexError>)
      requires chars.Valid()
      modifies chars
      ensures chars.Valid()
      ensures match ScanCharacter(chars.input, old(chars.index))
        case Ok(j) => r == Ok(MakeToken(chars.input, old(chars.start), Lexeme(TokenType.CHARACTER, j))) && chars.index == j && chars.start == j
        case Err(e) => r == Err(e) && chars.index == ErrorIndex(e) && chars.start == old(chars.start)
    {
      var _ := MatchSingle(Quote);
      var b := PeekSingle(CharBody);
      if b {
        var _ := MatchSingle(CharBody);
      } else {
        b := PeekSingle(Backslash);
        if b {
          var e := LexEscape();
          if e.Err? {
            return Err(e.error);
          }
        } else {
          return Err(ParseException("Invalid character literal", chars.index));
        }
      }
      b := MatchSingle(Quote);
      if !b {
        return Err(ParseException("Unterminated character literal", chars.index));
      }
      var literal := chars.Emit();
      r := Ok(Token(TokenType.CHARACTER, literal, chars.index));
    }

    method LexString() returns (r: Result<Token, LexError>)
      requires chars.Valid()
      modifies chars
      ensures chars.Valid()
      ensures match ScanString(chars.input, old(chars.index))
        case Ok(j) => r == Ok(MakeToken(chars.input, old(chars.start), Lexeme(TokenType.STRING, j))) && chars.index == j && chars.start == j
        case Err(e) => r == Err(e) && chars.index == ErrorIndex(e) && chars.start == old(chars.start)
    {
      ghost var s := chars.input;
      ghost var goal := ScanString(s, chars.index);
      var _ := MatchSingle(DoubleQuote);
      while true
        invariant chars.Valid() && chars.start == old(chars.start)
        invariant ScanStringBody(s, chars.index) == goal
        decreases |s| - chars.index
      {
        ghost var i := chars.index;
        var body := PeekSingle(StringBody);
        var escape := PeekSingle(Backslash);
        if !(body || escape) {
          break;
        }
        if escape {
          var e := LexEscape();
          if e.Err? {
            assert goal == Err(e.error);
            return Err(e.error);
          }
          assert goal == ScanStringBody(s, chars.index);
        } else {
          var moved := MatchSingle(AnyChar);
          if !moved {
            // Nothing was consumed: the source repeats this iteration forever.
            assert goal == Err(Stuck(i));
            return Err(Stuck(chars.index));
          }
          assert goal == ScanStringBody(s, i + 1);
        }
      }
      ghost var i := chars.index;
      var closed := MatchSingle(DoubleQuote);
      if !closed {
        assert goal == Err(ParseException("Unterminated string", i));
        return Err(ParseException("Unterminated string", chars.index));
      }
      assert goal == Ok(chars.index);
      var literal := chars.Emit();
      r := Ok(Token(TokenType.STRING, literal, chars.index));
    }

    method LexOperator() returns (t: Token)
      requires chars.Valid()
      modifies chars
      ensures chars.Valid()
      ensures var l := Lexeme(OPERATOR, After(chars.input, old(chars.index), AnyChar));
        t == MakeToken(chars.input, old(chars.start), l) && chars.index == l.end && chars.start == l.end
    {
      var _ := MatchSingle(AnyChar);
      var literal := chars.Emit();
      t := Token(OPERATOR, literal, chars.index - 1);
    }

    method LexEscape() returns (r: Result<(), LexError>)
      requires chars.Valid()
      modifies chars
      ensures chars.Valid() && chars.start == old(chars.start)
      ensures match ScanEscape(chars.input, old(chars.index))
        case Ok(j) => r == Ok(()) && chars.index == j
        case Err(e) => r == Err(e) && chars.index == ErrorIndex(e)
    {
      var b := MatchSingle(Backslash);
      if b {
        b := MatchSingle(EscapeCode);
        if !b {
          return Err(ParseException("Invalid escape sequence", chars.index));
        }
        return Ok(());
      } else {
        return Err(ParseException("Expected escape sequence", chars.index));
      }
    }
  }

  lemma PrependEmpty(o: LexOutcome)
    ensures Prepend([], o) == o
  {
    if o.result.Ok? {
      assert [] + o.result.value == o.result.value;
    }
  }

  lemma PrependTwice(a: seq<Token>, b: seq<Token>, o: LexOutcome)
    ensures Prepend(a, Prepend(b, o)) == Prepend(a + b, o)
  {
    if o.result.Ok? {
      assert a + (b + o.result.value) == (a + b) + o.result.value;
    }
  }

  /** The rule peek("[<>!=]=", ".") never fires: a two-character pattern cannot match one character. */
  lemma CompoundOpNeverMatches(s: string, i: nat)
    ensures !PeekAt(s, i, [CompoundOp, AnyChar])
  {
    PeekTwo(s, i, CompoundOp, AnyChar);
  }

  // ---------------------------------------------------------------------------
  // What a successful lex produces.

  /** The literals of a token list, concatenated. */
  function Literals(ts: seq<Token>): (w: string)
    ensures |ts| > 0 ==> w == ts[0].literal + Literals(ts[1..])
  {
    if ts == [] then "" else ts[0].literal + Literals(ts[1..])
  }

  predicate AllWhitespace(w: string) {
    forall k :: 0 <= k < |w| ==> Matches(Whitespace, w[k])
  }

  /** A literal without the whitespace the lexer absorbed in front of it. */
  function TrimStart(w: string): (r: string)
    ensures |r| <= |w|
  {
    if |w| > 0 && Matches(Whitespace, w[0]) then TrimStart(w[1..]) else w
  }

  predicate AllOf(p: CharClass, w: string) {
    forall k :: 0 <= k < |w| ==> Matches(p, w[k])
  }

  /** The text of each kind of lexeme. */
  predicate IdentifierText(w: string) {
    |w| >= 1 && Matches(IdentStart, w[0]) && AllOf(IdentPart, w[1..])
  }

  predicate IntegerText(w: string) {
    |w| >= 2 && Matches(OptionalSign, w[0]) && AllOf(Digit, w[1..])
  }

  /** A sign, at least one digit, a '.', and any number of digits: "+1." is a decimal. */
  predicate DecimalText(w: string) {
    exists p :: 2 <= p < |w| && w[p] == '.' && Matches(OptionalSign, w[0]) && AllOf(Digit, w[1..p]) && AllOf(Digit, w[p + 1..])
  }

  predicate CharacterText(w: string) {
    (|w| == 3 && w[0] == '\'' && Matches(CharBody, w[1]) && w[2] == '\'')
    || (|w| == 4 && w[0] == '\'' && w[1] == '\\' && Matches(EscapeCode, w[2]) && w[3] == '\'')
  }

  /** The inside of a string literal: characters that are neither a quote, a backslash
      nor a line terminator, and backslash escapes. */
  predicate StringChars(b: string)
    decreases |b|
  {
    b == []
    || (Matches(StringBody, b[0]) && Matches(AnyChar, b[0]) && StringChars(b[1..]))
    || (|b| >= 2 && b[0] == '\\' && Matches(EscapeCode, b[1]) && StringChars(b[2..]))
  }

  predicate StringText(w: string) {
    |w| >= 2 && w[0] == '"' && w[|w| - 1] == '"' && StringChars(w[1..|w| - 1])
  }

  predicate OperatorText(w: string) {
    |w| == 1 && Matches(AnyChar, w[0]) && !Matches(Whitespace, w[0])
  }

  predicate KindText(kind: TokenType, w: string) {
    match kind
    case IDENTIFIER => IdentifierText(w)
    case INTEGER => IntegerText(w)
    case DECIMAL => DecimalText(w)
    case CHARACTER => CharacterText(w)
    case STRING => StringText(w)
    case OPERATOR => OperatorText(w)
  }

  lemma {:induction false} RunEndAll(s: string, i: nat, p: CharClass)
    requires i <= |s|
    ensures AllOf(p, s[i..RunEnd(s, i, p)])
  {
  }

  lemma {:induction false} ScanStringBodyText(s: string, i: nat)
    requires i <= |s| && ScanStringBody(s, i).Ok?
    ensures StringChars(s[i..ScanStringBody(s, i).value - 1])
    decreases |s| - i
  {
    var j := ScanStringBody(s, i).value;
    if At(s, i, StringBody) || At(s, i, Backslash) {
      if At(s, i, Backslash) {
        ScanStringBodyText(s, i + 2);
        assert s[i..j - 1][2..] == s[i + 2..j - 1];
      } else {
        ScanStringBodyText(s, i + 1);
        assert s[i..j - 1][1..] == s[i + 1..j - 1];
      }
    } else {
      assert s[i..j - 1] == [];
    }
  }

  lemma IdentifierLexeme(s: string, i: nat)
    requires At(s, i, IdentStart)
    ensures IdentifierText(s[i..RunEnd(s, i + 1, IdentPart)])
  {
    var e := RunEnd(s, i + 1, IdentPart);
    RunEndAll(s, i + 1, IdentPart);
    assert s[i..e][1..] == s[i + 1..e];
  }

  lemma NumberLexemeText(s: string, i: nat)
    requires At(s, i, OptionalSign) && At(s, i + 1, Digit)
    ensures KindText(NumberLexeme(s, i).kind, s[i..NumberLexeme(s, i).end])
  {
    var l := NumberLexeme(s, i);
    var w := s[i..l.end];
    var d := RunEnd(s, i + 1, Digit);
    RunEndAll(s, i + 1, Digit);
    assert d > i + 1;
    if l.kind == TokenType.DECIMAL {
      RunEndAll(s, d + 1, Digit);
      assert w[1..d - i] == s[i + 1..d] && w[d - i + 1..] == s[d + 1..l.end];
      assert w[d - i] == '.';
      assert DecimalText(w);
    } else {
      assert w[1..] == s[i + 1..d];
    }
  }

  lemma CharacterLexeme(s: string, i: nat)
    requires At(s, i, Quote) && ScanCharacter(s, i).Ok?
    ensures CharacterText(s[i..ScanCharacter(s, i).value])
  {
  }

  lemma StringLexeme(s: string, i: nat)
    requires At(s, i, DoubleQuote) && ScanString(s, i).Ok?
    ensures StringText(s[i..ScanString(s, i).value])
  {
    var j := ScanString(s, i).value;
    assert After(s, i, DoubleQuote) == i + 1;
    assert j == ScanStringBody(s, i + 1).value && i + 2 <= j && s[j - 1] == '"';
    ScanStringBodyText(s, i + 1);
    var w := s[i..j];
    assert |w| == j - i && w[0] == '"' && w[|w| - 1] == '"';
    assert w[1..|w| - 1] == s[i + 1..j - 1];
  }

  /** Every lexeme lexToken produces has the text its kind calls for. */
  lemma TokenAtText(s: string, i: nat)
    requires i < |s| && !Matches(Whitespace, s[i]) && TokenAt(s, i).Ok?
    ensures KindText(TokenAt(s, i).value.kind, s[i..TokenAt(s, i).value.end])
  {
    if At(s, i, IdentStart) {
      IdentifierLexeme(s, i);
    } else if At(s, i, OptionalSign) && At(s, i + 1, Digit) {
      NumberLexemeText(s, i);
    } else if At(s, i, Quote) {
      CharacterLexeme(s, i);
    } else if At(s, i, DoubleQuote) {
      StringLexeme(s, i);
    }
  }

  lemma {:induction false} TrimWhitespacePrefix(ws: string, lexeme: string)
    requires AllWhitespace(ws) && |lexeme| > 0 && !Matches(Whitespace, lexeme[0])
    ensures TrimStart(ws + lexeme) == lexeme
    decreases |ws|
  {
    if ws == [] {
      assert ws + lexeme == lexeme;
    } else {
      assert (ws + lexeme)[0] == ws[0];
      assert (ws + lexeme)[1..] == ws[1..] + lexeme;
      TrimWhitespacePrefix(ws[1..], lexeme);
    }
  }

  /** Where a token's literal ends in the input: its index, or one past it for an operator. */
  function EndOf(t: Token): int {
    if t.kind == OPERATOR then t.index + 1 else t.index
  }

  /** One step of a successful lex at a non-whitespace position: the token it emits, and
      the rest of the run after it. */
  lemma LexStep(s: string, i: nat, start: nat)
    requires start <= i < |s| && !At(s, i, Whitespace) && LexFrom(s, i, start).result.Ok?
    ensures TokenAt(s, i).Ok?
    ensures var l := TokenAt(s, i).value; var rest := LexFrom(s, l.end, l.end);
      rest.result.Ok? && LexFrom(s, i, start).start == rest.start
      && LexFrom(s, i, start).result.value == [MakeToken(s, start, l)] + rest.result.value
  {
  }

  /** A successful lex from cursors (i, start), where s[start..i] is whitespace already
      skipped: the literals, followed by the trailing whitespace, spell out the input from
      `start`. */
  lemma {:induction false} LexedCover(s: string, i: nat, start: nat)
    requires start <= i <= |s| && AllWhitespace(s[start..i]) && LexFrom(s, i, start).result.Ok?
    ensures var o := LexFrom(s, i, start);
      AllWhitespace(s[o.start..]) && Literals(o.result.value) + s[o.start..] == s[start..]
    decreases |s| - i
  {
    if i == |s| {
      assert Literals([]) == "";
    } else if At(s, i, Whitespace) {
      assert s[start..i + 1] == s[start..i] + [s[i]];
      LexedCover(s, i + 1, start);
    } else {
      LexStep(s, i, start);
      var l := TokenAt(s, i).value;
      var rest := LexFrom(s, l.end, l.end);
      assert s[l.end..l.end] == [];
      LexedCover(s, l.end, l.end);
      var ts := LexFrom(s, i, start).result.value;
      assert ts[0] == MakeToken(s, start, l) && ts[1..] == rest.result.value;
      assert s[start..] == s[start..l.end] + s[l.end..];
    }
  }

  /** Each literal ends at the offset its index records (for an operator, one past it). */
  lemma {:induction false} LexedIndices(s: string, i: nat, start: nat)
    requires start <= i <= |s| && LexFrom(s, i, start).result.Ok?
    ensures var ts := LexFrom(s, i, start).result.value;
      forall k :: 0 <= k < |ts| ==> EndOf(ts[k]) == start + |Literals(ts[..k + 1])|
    decreases |s| - i
  {
    if i < |s| && At(s, i, Whitespace) {
      LexedIndices(s, i + 1, start);
    } else if i < |s| {
      LexStep(s, i, start);
      var l := TokenAt(s, i).value;
      var t := MakeToken(s, start, l);
      LexedIndices(s, l.end, l.end);
      var ts := LexFrom(s, i, start).result.value;
      var rs := LexFrom(s, l.end, l.end).result.value;
      assert ts == [t] + rs;
      forall k | 0 <= k < |ts|
        ensures EndOf(ts[k]) == start + |Literals(ts[..k + 1])|
      {
        if k > 0 {
          assert ts[..k + 1][1..] == rs[..k - 1 + 1];
          assert ts[k] == rs[k - 1];
        } else {
          assert ts[..1][1..] == [];
        }
      }
    }
  }

  /** Each literal, with its leading whitespace removed, is a lexeme of its kind. */
  lemma {:induction false} LexedKinds(s: string, i: nat, start: nat)
    requires start <= i <= |s| && AllWhitespace(s[start..i]) && LexFrom(s, i, start).result.Ok?
    ensures var ts := LexFrom(s, i, start).result.value;
      forall k :: 0 <= k < |ts| ==> KindText(ts[k].kind, TrimStart(ts[k].literal))
    decreases |s| - i
  {
    if i < |s| && At(s, i, Whitespace) {
      assert s[start..i + 1] == s[start..i] + [s[i]];
      LexedKinds(s, i + 1, start);
    } else if i < |s| {
      LexStep(s, i, start);
      var l := TokenAt(s, i).value;
      var t := MakeToken(s, start, l);
      assert s[l.end..l.end] == [];
      LexedKinds(s, l.end, l.end);
      var ts := LexFrom(s, i, start).result.value;
      var rs := LexFrom(s, l.end, l.end).result.value;
      assert ts == [t] + rs;
      TokenAtText(s, i);
      assert t.literal == s[start..i] + s[i..l.end];
      TrimWhitespacePrefix(s[start..i], s[i..l.end]);
      forall k | 0 <= k < |ts|
        ensures KindText(ts[k].kind, TrimStart(ts[k].literal))
      {
        if k > 0 {
          assert ts[k] == rs[k - 1];
        }
      }
    }
  }

  /** The three facts for a whole input. */
  lemma LexLayout(s: string)
    requires Lex(s).result.Ok?
    ensures var o := Lex(s); var ts := o.result.value;
      o.start <= |s| && Literals(ts) + s[o.start..] == s && AllWhitespace(s[o.start..])
      && (forall k :: 0 <= k < |ts| ==> EndOf(ts[k]) == |Literals(ts[..k + 1])|)
      && (forall k :: 0 <= k < |ts| ==> KindText(ts[k].kind, TrimStart(ts[k].literal)))
  {
    assert s[0..0] == [];
    LexedCover(s, 0, 0);
    LexedIndices(s, 0, 0);
    LexedKinds(s, 0, 0);
    assert s[0..] == s;
  }

  /** A lone digit is an operator: the number rule needs a sign before the digit. */
  lemma LexLoneDigit()
    ensures Lex("5").result == Ok([Token(OPERATOR, "5", 0)])
  {
    var s := "5";
    assert !At(s, 0, Whitespace) && !At(s, 0, IdentStart) && !At(s, 0, OptionalSign);
    assert !At(s, 0, Quote) && !At(s, 0, DoubleQuote) && At(s, 0, AnyChar);
    assert TokenAt(s, 0) == Ok(Lexeme(OPERATOR, 1));
    assert s[0..1] == "5";
    assert LexFrom(s, 1, 1) == LexOutcome(Ok([]), 1, 1);
    assert LexFrom(s, 0, 0) == Prepend([MakeToken(s, 0, Lexeme(OPERATOR, 1))], LexFrom(s, 1, 1));
    assert [Token(OPERATOR, "5", 0)] + [] == [Token(OPERATOR, "5", 0)];
  }

  lemma LexSignedInteger()
    ensures Lex("+5").result == Ok([Token(TokenType.INTEGER, "+5", 2)])
  {
    var s := "+5";
    assert !At(s, 0, Whitespace) && !At(s, 0, IdentStart) && At(s, 0, OptionalSign) && At(s, 1, Digit);
    assert RunEnd(s, 2, Digit) == 2 && RunEnd(s, 1, Digit) == 2;
    assert TokenAt(s, 0) == Ok(Lexeme(TokenType.INTEGER, 2));
    assert s[0..2] == "+5";
    assert LexFrom(s, 2, 2) == LexOutcome(Ok([]), 2, 2);
    assert LexFrom(s, 0, 0) == Prepend([MakeToken(s, 0, Lexeme(TokenType.INTEGER, 2))], LexFrom(s, 2, 2));
    assert [Token(TokenType.INTEGER, "+5", 2)] + [] == [Token(TokenType.INTEGER, "+5", 2)];
  }

  /** A literal keeps the whitespace in front of it; trailing whitespace belongs to no token. */
  lemma LexLeadingWhitespace()
    ensures Lex(" x ").result == Ok([Token(IDENTIFIER, " x", 2)])
  {
    var s := " x ";
    assert At(s, 0, Whitespace) && !At(s, 1, Whitespace) && At(s, 1, IdentStart);
    assert RunEnd(s, 2, IdentPart) == 2;
    assert TokenAt(s, 1) == Ok(Lexeme(IDENTIFIER, 2));
    assert s[0..2] == " x";
    assert At(s, 2, Whitespace);
    assert LexFrom(s, 3, 2) == LexOutcome(Ok([]), 3, 2);
    assert LexFrom(s, 2, 2) == LexOutcome(Ok([]), 3, 2);
    assert LexFrom(s, 1, 0) == Prepend([MakeToken(s, 0, Lexeme(IDENTIFIER, 2))], LexFrom(s, 2, 2));
    assert LexFrom(s, 0, 0) == LexFrom(s, 1, 0);
    assert [Token(IDENTIFIER, " x", 2)] + [] == [Token(IDENTIFIER, " x", 2)];
  }

  /** A string holding U+0085 never finishes lexing: the loop admits the character but
      `.` does not consume it. */
  lemma LexStuckString()
    ensures Lex("\"\U{85}\"").result == Err(Stuck(1))
  {
    var s := "\"\U{85}\"";
    assert !At(s, 0, Whitespace) && !At(s, 0, IdentStart) && !At(s, 0, OptionalSign) && !At(s, 0, Quote) && At(s, 0, DoubleQuote);
    assert At(s, 1, StringBody) && !At(s, 1, Backslash) && !At(s, 1, AnyChar);
    assert ScanStringBody(s, 1) == Err(Stuck(1));
    assert TokenAt(s, 0) == Err(Stuck(1));
  }
}
