/**
 The tokenizer of Countdown expressions (`crates/ferrl/src/countdown.rs`, `lex_number`, `tokenize`).

 `Lex` is the specification, read off the text from the left; `Tokenize` is the source's index loop.
 `LexFailsExactly` and `LexConcat` say what the specification means without following its recursion.
 The source walks UTF-8 bytes; every byte of a non-ASCII character is outside the accepted alphabet,
 so a walk over characters rejects exactly the same texts.
 */
module CountdownLexer {
  import opened Common
  import opened Decimal

  datatype Tok = Num(n: U32) | Plus | Minus | Star | Slash | LParen | RParen

  predicate IsSpace(c: char) {
    c == ' ' || c == '\t' || c == '\n' || c == '\r'
  }

  function Symbol(c: char): Option<Tok> {
    match c
    case '+' => Some(Plus)
    case '-' => Some(Minus)
    case '*' => Some(Star)
    case '/' => Some(Slash)
    case '(' => Some(LParen)
    case ')' => Some(RParen)
    case _ => None
  }

  predicate DigitsBetween(s: string, i: nat, j: nat)
    requires j <= |s|
  {
    forall k :: i <= k < j ==> IsDigit(s[k])
  }

  /** How many digits `s` starts with. */
  function DigitRun(s: string): (n: nat)
    ensures n <= |s| && DigitsBetween(s, 0, n) && AllDigits(s[..n])
    ensures n < |s| ==> !IsDigit(s[n])
  {
    if s == "" || !IsDigit(s[0]) then 0
    else
      var n := DigitRun(s[1..]);
      assert forall i :: 0 < i < n + 1 ==> s[i] == s[1..][i - 1];
      n + 1
  }

  function Prepend(ts: seq<Tok>, rest: Option<seq<Tok>>): Option<seq<Tok>> {
    if rest.None? then None else Some(ts + rest.value)
  }

  /** The tokens of `s`, or nothing on an illegal character or a literal beyond `u32`. */
  function Lex(s: string): Option<seq<Tok>>
    decreases |s|
  {
    if s == "" then Some([])
    else if IsDigit(s[0]) then
      var n := DigitRun(s);
      var v := DecimalValue(s[..n]);
      if v > U32_MAX then None else Prepend([Num(v)], Lex(s[n..]))
    else if IsSpace(s[0]) then Lex(s[1..])
    else if Symbol(s[0]).None? then None
    else Prepend([Symbol(s[0]).value], Lex(s[1..]))
  }

  // ---------------------------------------------------------------------------
  // The source's loops
  // ---------------------------------------------------------------------------

  lemma DigitRunUnique(s: string, n: nat)
    requires n <= |s| && DigitsBetween(s, 0, n) && (n < |s| ==> !IsDigit(s[n]))
    ensures DigitRun(s) == n
  {
  }

  /** One more digit of a run. */
  lemma DigitNext(s: string, i: nat, j: nat)
    requires i <= j < |s| && AllDigits(s[i..j]) && IsDigit(s[j])
    ensures AllDigits(s[i..j + 1]) && DecimalValue(s[i..j + 1]) == 10 * DecimalValue(s[i..j]) + DigitValue(s[j])
  {
    var more := s[i..j + 1];
    assert more == s[i..j] + [s[j]];
    assert more[..|more| - 1] == s[i..j];
  }

  /** The decimal literal starting at `i` and the index after it; nothing on `u32` overflow. */
  method LexNumber(s: string, i: nat) returns (r: Option<(U32, nat)>)
    requires i < |s| && IsDigit(s[i])
    ensures var n := DigitRun(s[i..]);
            && 0 < n <= |s| - i
            && r == if DecimalValue(s[i..][..n]) <= U32_MAX
                    then Some((DecimalValue(s[i..][..n]), i + n))
                    else None
  {
    var j := i;
    var value := 0;
    while j < |s| && IsDigit(s[j])
      invariant i <= j <= |s|
      invariant AllDigits(s[i..j]) && value == DecimalValue(s[i..j])
    {
      DigitNext(s, i, j);
      value := 10 * value + DigitValue(s[j]);
      j := j + 1;
    }
    assert s[i..][..j - i] == s[i..j];
    assert forall k :: 0 <= k < j - i ==> s[i..][k] == s[i..j][k];
    DigitRunUnique(s[i..], j - i);
    r := if value <= U32_MAX then Some((value, j)) else None;
  }

  method Tokenize(s: string) returns (r: Option<seq<Tok>>)
    ensures r == Lex(s)
  {
    var toks: seq<Tok> := [];
    var i := 0;
    assert s[0..] == s && forall ts: seq<Tok> :: [] + ts == ts;
    while i < |s|
      invariant 0 <= i <= |s|
      invariant Lex(s) == Prepend(toks, Lex(s[i..]))
    {
      var c := s[i];
      ghost var rest := s[i..];
      if IsDigit(c) {
        var number := LexNumber(s, i);
        if number.None? {
          return None;
        }
        var (value, next) := number.value;
        assert rest[next - i..] == s[next..];
        PrependTwice(toks, [Num(value)], Lex(s[next..]));
        toks := toks + [Num(value)];
        i := next;
        continue;
      }
      assert rest[1..] == s[i + 1..];
      if IsSpace(c) {
        i := i + 1;
        continue;
      }
      var tok := Symbol(c);
      if tok.None? {
        return None;
      }
      PrependTwice(toks, [tok.value], Lex(s[i + 1..]));
      toks := toks + [tok.value];
      i := i + 1;
    }
    assert s[i..] == "" && toks + [] == toks;
    r := Some(toks);
  }

  lemma PrependTwice(a: seq<Tok>, b: seq<Tok>, rest: Option<seq<Tok>>)
    ensures Prepend(a, Prepend(b, rest)) == Prepend(a + b, rest)
  {
    if rest.Some? {
      assert a + (b + rest.value) == a + b + rest.value;
    }
  }

  // ---------------------------------------------------------------------------
  // What the tokens are
  // ---------------------------------------------------------------------------

  predicate Legal(c: char) {
    IsDigit(c) || c in {'+', '-', '*', '/', '(', ')', ' ', '\t', '\n', '\r'}
  }

  /** `s[i..j]` is a maximal run of digits. */
  predicate MaximalRun(s: string, i: int, j: int) {
    && 0 <= i < j <= |s|
    && DigitsBetween(s, i, j)
    && (i > 0 ==> !IsDigit(s[i - 1]))
    && (j < |s| ==> !IsDigit(s[j]))
  }

  predicate OversizedAt(s: string, i: int, j: int) {
    MaximalRun(s, i, j) && DecimalValue(s[i..j]) > U32_MAX
  }

  ghost predicate OversizedLiteral(s: string) {
    exists i, j :: OversizedAt(s, i, j)
  }

  predicate IllegalAt(s: string, i: int) {
    0 <= i < |s| && !Legal(s[i])
  }

  ghost predicate IllegalCharacter(s: string) {
    exists i :: IllegalAt(s, i)
  }

  /** The tokenizer rejects a text exactly for an illegal character or an oversized literal. */
  lemma {:induction false} LexFailsExactly(s: string)
    ensures Lex(s).None? <==> IllegalCharacter(s) || OversizedLiteral(s)
    decreases |s|
  {
    if s != "" {
      var n := if IsDigit(s[0]) then DigitRun(s) else 1;
      LexFailsExactly(s[n..]);
      IllegalCharacterSplit(s, n);
      OversizedLiteralSplit(s, n);
    }
  }

  /** `n` characters make up the first lexeme of `s`. */
  predicate FirstLexeme(s: string, n: nat) {
    && 0 < n <= |s|
    && n == if IsDigit(s[0]) then DigitRun(s) else 1
  }

  lemma IllegalCharacterSplit(s: string, n: nat)
    requires FirstLexeme(s, n)
    ensures IllegalCharacter(s) <==> IllegalAt(s, 0) || IllegalCharacter(s[n..])
  {
    if i :| IllegalAt(s, i) && i >= n {
      assert IllegalAt(s[n..], i - n);
    }
    if i :| IllegalAt(s[n..], i) {
      assert IllegalAt(s, n + i);
    }
  }

  lemma OversizedLiteralSplit(s: string, n: nat)
    requires FirstLexeme(s, n)
    ensures OversizedLiteral(s) <==> OversizedAt(s, 0, n) || OversizedLiteral(s[n..])
  {
    if i, j :| OversizedAt(s, i, j) {
      assert IsDigit(s[i]);
      if i == 0 {
        DigitRunUnique(s, j);
      } else {
        assert i >= n;
        ShiftRun(s, n, i - n, j - n);
      }
    }
    if i, j :| OversizedAt(s[n..], i, j) {
      ShiftRun(s, n, i, j);
    }
  }

  /** Behind the first lexeme, maximal runs are those of the remaining text. */
  lemma ShiftRun(s: string, n: nat, i: int, j: int)
    requires FirstLexeme(s, n)
    ensures OversizedAt(s[n..], i, j) <==> i >= 0 && OversizedAt(s, n + i, n + j)
  {
    var t := s[n..];
    if 0 <= i < j <= |t| {
      assert t[i..j] == s[n + i..n + j];
      assert forall k {:trigger t[k]} {:trigger s[n + k]} :: 0 <= k < |t| ==> t[k] == s[n + k];
      forall k | n + i <= k < n + j
        ensures s[k] == t[k - n]
      {
      }
      assert DigitsBetween(t, i, j) <==> DigitsBetween(s, n + i, n + j);
    }
  }

  /** Blanks have no tokens. */
  lemma BlanksAreNothing(c: char)
    requires c in {' ', '\t', '\n', '\r'}
    ensures Lex([c]) == Some([])
  {
    assert [c][1..] == "";
    assert Lex("") == Some([]);
  }

  lemma CutBefore(a: string, b: string, n: nat)
    requires n <= |a|
    ensures (a + b)[..n] == a[..n] && (a + b)[n..] == a[n..] + b
  {
  }

  /** Texts can be tokenized piecewise wherever no literal straddles the seam. */
  lemma {:induction false} LexConcat(a: string, b: string)
    requires a == "" || b == "" || !IsDigit(a[|a| - 1]) || !IsDigit(b[0])
    ensures Lex(a + b) == if Lex(a).None? then None else Prepend(Lex(a).value, Lex(b))
    decreases |a|
  {
    if a == "" {
      assert a + b == b;
      if Lex(b).Some? {
        assert [] + Lex(b).value == Lex(b).value;
      }
    } else if IsDigit(a[0]) {
      var n := DigitRun(a);
      CutBefore(a, b, n);
      assert a[..n][n - 1] == a[n - 1];
      DigitRunUnique(a + b, n);
      LexConcat(a[n..], b);
      if DecimalValue(a[..n]) <= U32_MAX && Lex(a[n..]).Some? {
        PrependTwice([Num(DecimalValue(a[..n]))], Lex(a[n..]).value, Lex(b));
      }
    } else {
      CutBefore(a, b, 1);
      LexConcat(a[1..], b);
      if Symbol(a[0]).Some? && Lex(a[1..]).Some? {
        PrependTwice([Symbol(a[0]).value], Lex(a[1..]).value, Lex(b));
      }
    }
  }

  // ---------------------------------------------------------------------------
  // Rendering
  // ---------------------------------------------------------------------------

  function ShowTok(t: Tok): (s: string)
    ensures s != ""
  {
    match t
    case Num(n) => ShowNat(n)
    case Plus => "+"
    case Minus => "-"
    case Star => "*"
    case Slash => "/"
    case LParen => "("
    case RParen => ")"
  }

  function Show(ts: seq<Tok>): string {
    if ts == [] then "" else ShowTok(ts[0]) + Show(ts[1..])
  }

  lemma LexShowTok(t: Tok)
    ensures Lex(ShowTok(t)) == Some([t])
  {
    var s := ShowTok(t);
    assert Lex("") == Some([]);
    assert forall k :: 0 <= k < |s| ==> s[..|s|][k] == s[k];
    if t.Num? {
      assert s[..|s|] == s && s[|s|..] == "";
      DigitRunUnique(s, |s|);
    } else {
      assert s[1..] == "";
    }
    assert [t] + [] == [t];
  }

  predicate NoAdjacentLiterals(ts: seq<Tok>) {
    forall i :: 0 <= i < |ts| - 1 ==> !(ts[i].Num? && ts[i + 1].Num?)
  }

  /** Tokens written without any separator read back as themselves. */
  lemma {:induction false} LexShow(ts: seq<Tok>)
    requires NoAdjacentLiterals(ts)
    ensures Lex(Show(ts)) == Some(ts)
  {
    if ts != [] {
      var rest := ts[1..];
      assert NoAdjacentLiterals(rest) by {
        assert forall i :: 0 <= i < |rest| ==> rest[i] == ts[i + 1];
      }
      LexShow(rest);
      LexShowTok(ts[0]);
      if rest != [] {
        assert Show(rest)[0] == ShowTok(rest[0])[0];
      }
      LexConcat(ShowTok(ts[0]), Show(rest));
      assert [ts[0]] + rest == ts;
    }
  }
}
