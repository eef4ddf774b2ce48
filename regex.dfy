/**
 * The validators of homework/Regex.java, each as a whole-string match (Matcher.matches):
 * a predicate that follows the pattern's structure, with the regex engine's choices as
 * existentially chosen split points, and a deterministic scanner proved equivalent to it.
 * Characters are Unicode code points, the units a Java pattern matches.
 */
module Regexes {

  /** \d without UNICODE_CHARACTER_CLASS: the ASCII digits. */
  predicate IsDigit(c: char) {
    '0' <= c <= '9'
  }

  predicate IsLetter(c: char) {
    'A' <= c <= 'Z' || 'a' <= c <= 'z'
  }

  /** The line terminators that `.` does not match when DOTALL is off. */
  predicate IsLineTerminator(c: char) {
    c == '\n' || c == '\r' || c == '\U{85}' || c == '\U{2028}' || c == '\U{2029}'
  }

  /** [A-Za-z0-9._%+-] */
  predicate IsLocalChar(c: char) {
    IsLetter(c) || IsDigit(c) || c == '.' || c == '_' || c == '%' || c == '+' || c == '-'
  }

  /** [A-Za-z0-9.-] */
  predicate IsDomainChar(c: char) {
    IsLetter(c) || IsDigit(c) || c == '.' || c == '-'
  }

  /** \d+ on s[i..j]. */
  predicate DigitsIn(s: string, i: int, j: int)
    requires 0 <= i <= j <= |s|
  {
    i < j && forall k :: i <= k < j ==> IsDigit(s[k])
  }

  /** The end of the run of digits that starts at i, stopping at e. */
  function DigitEnd(s: string, i: nat, e: nat): (r: nat)
    requires i <= e <= |s|
    ensures i <= r <= e
    ensures forall k :: i <= k < r ==> IsDigit(s[k])
    ensures r == e || !IsDigit(s[r])
    decreases e - i
  {
    if i == e || !IsDigit(s[i]) then i else DigitEnd(s, i + 1, e)
  }

  /** A run of digits that ends where a non-digit or the bound e begins is the greedy run. */
  lemma DigitEndUnique(s: string, i: nat, j: nat, e: nat)
    requires i <= j <= e <= |s|
    requires forall k :: i <= k < j ==> IsDigit(s[k])
    requires j == e || !IsDigit(s[j])
    ensures DigitEnd(s, i, e) == j
  {
  }

  // ---------------------------------------------------------------------------
  // EMAIL  [A-Za-z0-9._%+-]+@[A-Za-z0-9.-]+\.[A-Za-z]{2,6}

  /** The local part s[..a], the @ at a, the domain s[a+1..d], the dot at d and the
      top-level part s[d+1..]. */
  predicate EmailParts(s: string, a: int, d: int)
    requires 0 < a < d < |s|
  {
    (forall i :: 0 <= i < a ==> IsLocalChar(s[i])) && s[a] == '@'
    && a + 1 < d && (forall i :: a < i < d ==> IsDomainChar(s[i])) && s[d] == '.'
    && 2 <= |s| - d - 1 <= 6 && (forall i :: d < i < |s| ==> IsLetter(s[i]))
  }

  /** At least one local character, a domain character, a dot and two letters. */
  ghost predicate EmailPattern(s: string)
    ensures EmailPattern(s) ==> 6 <= |s|
  {
    exists a, d :: 0 < a < d < |s| && EmailParts(s, a, d)
  }

  function FirstAt(s: string, i: nat): (r: nat)
    requires i <= |s|
    ensures i <= r <= |s| && (r < |s| ==> s[r] == '@')
    ensures forall k :: i <= k < r ==> s[k] != '@'
    decreases |s| - i
  {
    if i == |s| || s[i] == '@' then i else FirstAt(s, i + 1)
  }

  function LastDot(s: string): (r: int)
    ensures -1 <= r < |s| && (r >= 0 ==> s[r] == '.')
    ensures forall k :: r < k < |s| ==> s[k] != '.'
  {
    if s == [] then -1
    else if s[|s| - 1] == '.' then |s| - 1
    else LastDot(s[..|s| - 1])
  }

  /** The local part cannot hold an @ and the top-level part cannot hold a dot, so the
      split is at the first @ and the last dot. */
  predicate IsEmail(s: string)
    ensures IsEmail(s) ==> 6 <= |s| && forall i :: 0 <= i < |s| && s[i] == '@' ==> i == FirstAt(s, 0)
  {
    var a := FirstAt(s, 0);
    var d := LastDot(s);
    0 < a < d < |s| && EmailParts(s, a, d)
  }

  lemma EmailDecided(s: string)
    ensures IsEmail(s) <==> EmailPattern(s)
  {
    if EmailPattern(s) {
      var a, d :| 0 < a < d < |s| && EmailParts(s, a, d);
      assert FirstAt(s, 0) == a;
      assert LastDot(s) == d;
    }
  }

  lemma EmailExamples()
    ensures EmailPattern("ab@c.de")
    ensures !EmailPattern("a@b.c")
    ensures !EmailPattern("a@.de")
    ensures !EmailPattern("@b.de")
  {
    EmailDecided("ab@c.de");
    assert EmailParts("ab@c.de", 2, 4);
    EmailDecided("a@b.c");
    EmailDecided("a@.de");
    EmailDecided("@b.de");
    assert FirstAt("@b.de", 0) == 0;
  }

  // ---------------------------------------------------------------------------
  // EVEN_STRINGS  ^.{2}(.{2}){4,9}$

  /** Two characters followed by k pairs. */
  function PairedLength(k: int): int {
    2 + 2 * k
  }

  predicate NoLineTerminator(s: string) {
    forall i :: 0 <= i < |s| ==> !IsLineTerminator(s[i])
  }

  ghost predicate EvenStringsPattern(s: string)
    ensures EvenStringsPattern(s) ==> |s| % 2 == 0 && 10 <= |s| <= 20
  {
    NoLineTerminator(s) && exists k :: 4 <= k <= 9 && |s| == PairedLength(k)
  }

  predicate IsEvenString(s: string)
    ensures IsEvenString(s) ==> 4 <= (|s| - 2) / 2 <= 9 && |s| == PairedLength((|s| - 2) / 2)
  {
    10 <= |s| <= 20 && |s| % 2 == 0 && NoLineTerminator(s)
  }

  lemma EvenStringsDecided(s: string)
    ensures IsEvenString(s) <==> EvenStringsPattern(s)
  {
    if IsEvenString(s) {
      assert |s| == PairedLength((|s| - 2) / 2);
    }
  }

  lemma EvenStringsExamples()
    ensures EvenStringsPattern("0123456789")
    ensures !EvenStringsPattern("012345678")
    ensures !EvenStringsPattern("01234567890")
    ensures !EvenStringsPattern("0123\n56789")
  {
    EvenStringsDecided("0123456789");
    EvenStringsDecided("012345678");
    EvenStringsDecided("01234567890");
    EvenStringsDecided("0123\n56789");
    assert IsLineTerminator("0123\n56789"[4]);
  }

  // ---------------------------------------------------------------------------
  // INTEGER_LIST  ^\[(\d+(, ?\d+)*)?\]$

  /** `, ?` on s[p..i]. */
  predicate Separator(s: string, p: int, i: int)
    requires 0 <= p < i <= |s|
  {
    s[p] == ',' && (i == p + 1 || (i == p + 2 && s[p + 1] == ' '))
  }

  /** (, ?\d+)* on s[p..e]. */
  ghost predicate MoreItems(s: string, p: int, e: int)
    requires 0 <= p <= e <= |s|
    decreases e - p
  {
    p == e
    || exists i, j :: p < i < j <= e && Separator(s, p, i) && DigitsIn(s, i, j) && MoreItems(s, j, e)
  }

  /** A non-empty list starts with a digit. */
  ghost predicate IntegerListPattern(s: string)
    ensures IntegerListPattern(s) && |s| > 2 ==> IsDigit(s[1])
  {
    |s| >= 2 && s[0] == '[' && s[|s| - 1] == ']'
    && (|s| == 2 || exists j :: 1 < j <= |s| - 1 && DigitsIn(s, 1, j) && MoreItems(s, j, |s| - 1))
  }

  /** Reads separators and digit runs greedily from p up to e. */
  predicate ScanItems(s: string, p: nat, e: nat)
    requires p <= e <= |s|
    decreases e - p
  {
    if p == e then true
    else if s[p] != ',' then false
    else
      var k := if p + 1 < e && s[p + 1] == ' ' then p + 2 else p + 1;
      var j := DigitEnd(s, k, e);
      k < j && ScanItems(s, j, e)
  }

  predicate IsIntegerList(s: string)
    ensures IsIntegerList(s) && |s| > 2 ==> IsDigit(s[1])
  {
    |s| >= 2 && s[0] == '[' && s[|s| - 1] == ']'
    && (|s| == 2 || (var j := DigitEnd(s, 1, |s| - 1); 1 < j && ScanItems(s, j, |s| - 1)))
  }

  lemma MoreItemsStart(s: string, p: int, e: int)
    requires 0 <= p <= e <= |s| && MoreItems(s, p, e)
    ensures p == e || s[p] == ','
  {
  }

  lemma {:induction false} ItemsDecided(s: string, p: nat, e: nat)
    requires p <= e <= |s|
    ensures ScanItems(s, p, e) <==> MoreItems(s, p, e)
    decreases e - p
  {
    if p < e {
      if ScanItems(s, p, e) {
        var k := if p + 1 < e && s[p + 1] == ' ' then p + 2 else p + 1;
        var j := DigitEnd(s, k, e);
        ItemsDecided(s, j, e);
        assert Separator(s, p, k) && DigitsIn(s, k, j);
      }
      if MoreItems(s, p, e) {
        var i, j :| p < i < j <= e && Separator(s, p, i) && DigitsIn(s, i, j) && MoreItems(s, j, e);
        var k := if p + 1 < e && s[p + 1] == ' ' then p + 2 else p + 1;
        assert k == i by {
          if i == p + 1 {
            assert IsDigit(s[p + 1]);
          }
        }
        MoreItemsStart(s, j, e);
        DigitEndUnique(s, k, j, e);
        ItemsDecided(s, j, e);
      }
    }
  }

  lemma IntegerListDecided(s: string)
    ensures IsIntegerList(s) <==> IntegerListPattern(s)
  {
    if |s| > 2 && s[0] == '[' && s[|s| - 1] == ']' {
      var e := |s| - 1;
      var j := DigitEnd(s, 1, e);
      ItemsDecided(s, j, e);
      if IntegerListPattern(s) {
        var j' :| 1 < j' <= e && DigitsIn(s, 1, j') && MoreItems(s, j', e);
        MoreItemsStart(s, j', e);
        DigitEndUnique(s, 1, j', e);
      }
      if IsIntegerList(s) {
        assert DigitsIn(s, 1, j);
      }
    }
  }

  lemma IntegerListExamples()
    ensures IntegerListPattern("[]")
    ensures IntegerListPattern("[1,2, 3]")
    ensures !IntegerListPattern("[1,  2]")
    ensures !IntegerListPattern("[1,]")
    ensures !IntegerListPattern("[ 1]")
  {
    IntegerListDecided("[]");
    var s := "[1,2, 3]";
    assert ScanItems(s, 7, 7);
    assert DigitEnd(s, 6, 7) == 7;
    assert ScanItems(s, 4, 7);
    assert DigitEnd(s, 3, 7) == 4;
    assert ScanItems(s, 2, 7);
    assert DigitEnd(s, 1, 7) == 2;
    IntegerListDecided(s);
    assert DigitEnd("[1,  2]", 4, 6) == 4;
    assert DigitEnd("[1,  2]", 1, 6) == 2;
    assert DigitEnd("[1,]", 3, 3) == 3;
    assert DigitEnd("[1,]", 1, 3) == 2;
    IntegerListDecided("[1,  2]");
    IntegerListDecided("[1,]");
    IntegerListDecided("[ 1]");
  }

  // ---------------------------------------------------------------------------
  // NUMBER  ^[+-]?\d+(\.\d+)?$

  /** An optional sign s[..i], the digits s[i..j] and an optional fraction s[j..]. */
  predicate NumberParts(s: string, i: int, j: int)
    requires 0 <= i < j <= |s| && i <= 1
  {
    (i == 1 ==> s[0] == '+' || s[0] == '-')
    && (forall k :: i <= k < j ==> IsDigit(s[k]))
    && (j == |s| || (s[j] == '.' && j + 1 < |s| && forall k :: j < k < |s| ==> IsDigit(s[k])))
  }

  /** A number ends in a digit. */
  ghost predicate NumberPattern(s: string)
    ensures NumberPattern(s) ==> 0 < |s| && IsDigit(s[|s| - 1])
  {
    exists i, j :: 0 <= i <= 1 && i < j <= |s| && NumberParts(s, i, j)
  }

  predicate IsNumber(s: string)
    ensures IsNumber(s) ==> 0 < |s| && IsDigit(s[|s| - 1])
  {
    var i := if |s| > 0 && (s[0] == '+' || s[0] == '-') then 1 else 0;
    var j := DigitEnd(s, i, |s|);
    i < j && (j == |s| || (s[j] == '.' && j + 1 < |s| && DigitEnd(s, j + 1, |s|) == |s|))
  }

  lemma NumberDecided(s: string)
    ensures IsNumber(s) <==> NumberPattern(s)
  {
    var i := if |s| > 0 && (s[0] == '+' || s[0] == '-') then 1 else 0;
    var j := DigitEnd(s, i, |s|);
    if IsNumber(s) {
      assert NumberParts(s, i, j);
    }
    if NumberPattern(s) {
      var i', j' :| 0 <= i' <= 1 && i' < j' <= |s| && NumberParts(s, i', j');
      assert i' == i by {
        if i' == 0 {
          assert IsDigit(s[0]);
        }
      }
      DigitEndUnique(s, i, j', |s|);
      if j' < |s| {
        DigitEndUnique(s, j' + 1, |s|, |s|);
      }
    }
  }

  lemma NumberExamples()
    ensures NumberPattern("-1.5") && NumberPattern("+10") && NumberPattern("0")
    ensures !NumberPattern("1.") && !NumberPattern(".5") && !NumberPattern("+") && !NumberPattern("1.2.3")
  {
    NumberDecided("-1.5");
    NumberDecided("+10");
    NumberDecided("0");
    assert DigitEnd("1.", 0, 2) == 1;
    NumberDecided("1.");
    NumberDecided(".5");
    NumberDecided("+");
    assert DigitEnd("1.2.3", 2, 5) == 3;
    assert DigitEnd("1.2.3", 0, 5) == 1;
    NumberDecided("1.2.3");
  }

  // ---------------------------------------------------------------------------
  // STRING  ^"(\\[bnrt'"\\]|[^"\\])*"$

  predicate IsEscapable(c: char) {
    c == 'b' || c == 'n' || c == 'r' || c == 't' || c == '\'' || c == '"' || c == '\\'
  }

  /** One repetition on s[p..q]: an escape or a character that is neither a quote nor a
      backslash (line terminators included). */
  predicate Chunk(s: string, p: int, q: int)
    requires 0 <= p < q <= |s|
  {
    (q == p + 2 && s[p] == '\\' && IsEscapable(s[p + 1]))
    || (q == p + 1 && s[p] != '"' && s[p] != '\\')
  }

  ghost predicate Chunks(s: string, p: int, e: int)
    requires 0 <= p <= e <= |s|
    decreases e - p
  {
    p == e || exists q :: p < q <= e && Chunk(s, p, q) && Chunks(s, q, e)
  }

  /** Inside the quotes, a quote only ever follows a backslash. */
  ghost predicate StringPattern(s: string)
    ensures StringPattern(s) ==> forall i :: 0 < i < |s| - 1 && s[i] == '"' ==> s[i - 1] == '\\'
  {
    |s| >= 2 && s[0] == '"' && s[|s| - 1] == '"'
    && (ChunksDecided(s, 1, |s| - 1); Chunks(s, 1, |s| - 1))
  }

  /** Every quote the scanner accepts is the second half of an escape. */
  predicate ScanChunks(s: string, p: nat, e: nat)
    requires p <= e <= |s|
    ensures ScanChunks(s, p, e) ==> forall i :: p <= i < e && s[i] == '"' ==> p < i && s[i - 1] == '\\'
    decreases e - p
  {
    if p == e then true
    else if s[p] == '\\' then p + 1 < e && IsEscapable(s[p + 1]) && ScanChunks(s, p + 2, e)
    else if s[p] == '"' then false
    else ScanChunks(s, p + 1, e)
  }

  predicate IsStringLiteral(s: string)
    ensures IsStringLiteral(s) ==> forall i :: 0 < i < |s| - 1 && s[i] == '"' ==> s[i - 1] == '\\'
  {
    |s| >= 2 && s[0] == '"' && s[|s| - 1] == '"' && ScanChunks(s, 1, |s| - 1)
  }

  lemma {:induction false} ChunksDecided(s: string, p: nat, e: nat)
    requires p <= e <= |s|
    ensures ScanChunks(s, p, e) <==> Chunks(s, p, e)
    decreases e - p
  {
    if p < e {
      var q := if s[p] == '\\' then p + 2 else p + 1;
      if q <= e {
        ChunksDecided(s, q, e);
      }
      if ScanChunks(s, p, e) {
        assert Chunk(s, p, q);
      }
      if Chunks(s, p, e) {
        var q' :| p < q' <= e && Chunk(s, p, q') && Chunks(s, q', e);
        assert q' == q;
      }
    }
  }

  lemma StringDecided(s: string)
    ensures IsStringLiteral(s) <==> StringPattern(s)
  {
    if |s| >= 2 {
      ChunksDecided(s, 1, |s| - 1);
    }
  }

  lemma StringExamples()
    ensures StringPattern("\"\"")
    ensures StringPattern("\"a\\nb\"")
    ensures StringPattern("\"a\nb\"")
    ensures !StringPattern("\"\\u\"")
    ensures !StringPattern("\"a")
    ensures !StringPattern("\"\\\"")
  {
    StringDecided("\"\"");
    var escaped := "\"a\\nb\"";
    assert ScanChunks(escaped, 5, 5) && ScanChunks(escaped, 4, 5) && ScanChunks(escaped, 2, 5);
    StringDecided(escaped);
    var broken := "\"a\nb\"";
    assert ScanChunks(broken, 4, 4) && ScanChunks(broken, 3, 4) && ScanChunks(broken, 2, 4);
    StringDecided(broken);
    StringDecided("\"\\u\"");
    StringDecided("\"a");
    StringDecided("\"\\\"");
  }
}
