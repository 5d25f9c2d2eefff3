/**
 The recursive-descent evaluator of Countdown expressions
 (`crates/ferrl/src/countdown.rs`, `Parser` and `eval_expression`).

 `Expr`, `Term` and `Factor` are the derivation trees of the documented grammar, left recursion
 included. `Parser` is the source's cursor, which evaluates while it walks and gives up at the first
 failure. The theorems say that it computes the value and the leaves of *the* tree of its input.
 */
module CountdownParser {
  import opened Common
  import opened Ratios
  import opened CountdownLexer

  // ---------------------------------------------------------------------------
  // Derivation trees
  // ---------------------------------------------------------------------------

  datatype Expr = One(t: Term) | Plus2(l: Expr, r: Term) | Minus2(l: Expr, r: Term)
  datatype Term = Lone(f: Factor) | Times(tl: Term, tr: Factor) | Over(tl: Term, tr: Factor)
  datatype Factor = Literal(n: U32) | Paren(e: Expr)

  /** The tokens a tree derives. */
  function ExprTokens(e: Expr): (ts: seq<Tok>)
    ensures ts != []
  {
    match e
    case One(t) => TermTokens(t)
    case Plus2(l, r) => ExprTokens(l) + [Plus] + TermTokens(r)
    case Minus2(l, r) => ExprTokens(l) + [Minus] + TermTokens(r)
  }

  function TermTokens(t: Term): (ts: seq<Tok>)
    ensures ts != []
  {
    match t
    case Lone(f) => FactorTokens(f)
    case Times(l, r) => TermTokens(l) + [Star] + FactorTokens(r)
    case Over(l, r) => TermTokens(l) + [Slash] + FactorTokens(r)
  }

  function FactorTokens(f: Factor): (ts: seq<Tok>)
    ensures ts != []
  {
    match f
    case Literal(n) => [Num(n)]
    case Paren(e) => [LParen] + ExprTokens(e) + [RParen]
  }

  /** The literals of a tree, left to right. */
  function ExprLeaves(e: Expr): seq<U32> {
    match e
    case One(t) => TermLeaves(t)
    case Plus2(l, r) => ExprLeaves(l) + TermLeaves(r)
    case Minus2(l, r) => ExprLeaves(l) + TermLeaves(r)
  }

  function TermLeaves(t: Term): seq<U32> {
    match t
    case Lone(f) => FactorLeaves(f)
    case Times(l, r) => TermLeaves(l) + FactorLeaves(r)
    case Over(l, r) => TermLeaves(l) + FactorLeaves(r)
  }

  function FactorLeaves(f: Factor): seq<U32> {
    match f
    case Literal(n) => [n]
    case Paren(e) => ExprLeaves(e)
  }

  /** The four operators, shared by the evaluator and the problem generator. */
  datatype Op = OpAdd | OpSub | OpMul | OpDiv

  /** A checked operation on two results, either of which may already have failed. */
  function Apply(op: Op, a: Option<Ratio>, b: Option<Ratio>): Option<Ratio> {
    if a.None? || b.None? then None
    else match op
      case OpAdd => Add(a.value, b.value)
      case OpSub => Sub(a.value, b.value)
      case OpMul => Mul(a.value, b.value)
      case OpDiv => Div(a.value, b.value)
  }

  /** The checked `i128` value of a tree. */
  function EvalExpr(e: Expr): Option<Ratio> {
    match e
    case One(t) => EvalTerm(t)
    case Plus2(l, r) => Apply(OpAdd, EvalExpr(l), EvalTerm(r))
    case Minus2(l, r) => Apply(OpSub, EvalExpr(l), EvalTerm(r))
  }

  function EvalTerm(t: Term): Option<Ratio> {
    match t
    case Lone(f) => EvalFactor(f)
    case Times(l, r) => Apply(OpMul, EvalTerm(l), EvalFactor(r))
    case Over(l, r) => Apply(OpDiv, EvalTerm(l), EvalFactor(r))
  }

  function EvalFactor(f: Factor): Option<Ratio> {
    match f
    case Literal(n) => Some(FromInt(n))
    case Paren(e) => EvalExpr(e)
  }

  // ---------------------------------------------------------------------------
  // The mathematical value of a tree
  // ---------------------------------------------------------------------------

  /** The operation on rational numbers; nothing for division by zero. */
  ghost function Denote(op: Op, x: Option<real>, y: Option<real>): Option<real> {
    if x.None? || y.None? then None
    else match op
      case OpAdd => Some(x.value + y.value)
      case OpSub => Some(x.value - y.value)
      case OpMul => Some(RealProduct(x.value, y.value))
      case OpDiv => if y.value == 0.0 then None else Some(RealQuotient(x.value, y.value))
  }

  /** The rational number a tree denotes; nothing when some divisor denotes zero. */
  ghost function DenoteExpr(e: Expr): Option<real> {
    match e
    case One(t) => DenoteTerm(t)
    case Plus2(l, r) => Denote(OpAdd, DenoteExpr(l), DenoteTerm(r))
    case Minus2(l, r) => Denote(OpSub, DenoteExpr(l), DenoteTerm(r))
  }

  ghost function DenoteTerm(t: Term): Option<real> {
    match t
    case Lone(f) => DenoteFactor(f)
    case Times(l, r) => Denote(OpMul, DenoteTerm(l), DenoteFactor(r))
    case Over(l, r) => Denote(OpDiv, DenoteTerm(l), DenoteFactor(r))
  }

  ghost function DenoteFactor(f: Factor): Option<real> {
    match f
    case Literal(n) => Some(n as real)
    case Paren(e) => DenoteExpr(e)
  }

  /** Both operands have values but an intermediate of the operation leaves `i128`. */
  ghost predicate Overflows(op: Op, a: Option<Ratio>, b: Option<Ratio>) {
    && a.Some? && b.Some?
    && match op
       case OpAdd => !SumFits(a.value, b.value, 1)
       case OpSub => !SumFits(a.value, b.value, -1)
       case OpMul => !ProductFits(a.value, b.value)
       case OpDiv => !QuotientFits(a.value, b.value)
  }

  /** Some operation of the tree overflows. */
  ghost predicate ExprOverflows(e: Expr) {
    match e
    case One(t) => TermOverflows(t)
    case Plus2(l, r) => ExprOverflows(l) || TermOverflows(r) || Overflows(OpAdd, EvalExpr(l), EvalTerm(r))
    case Minus2(l, r) => ExprOverflows(l) || TermOverflows(r) || Overflows(OpSub, EvalExpr(l), EvalTerm(r))
  }

  ghost predicate TermOverflows(t: Term) {
    match t
    case Lone(f) => FactorOverflows(f)
    case Times(l, r) => TermOverflows(l) || FactorOverflows(r) || Overflows(OpMul, EvalTerm(l), EvalFactor(r))
    case Over(l, r) => TermOverflows(l) || FactorOverflows(r) || Overflows(OpDiv, EvalTerm(l), EvalFactor(r))
  }

  ghost predicate FactorOverflows(f: Factor) {
    match f
    case Literal(n) => false
    case Paren(e) => ExprOverflows(e)
  }

  /** `v` is the canonical form of `d`, and is missing only for a zero divisor or an overflow. */
  ghost predicate Represents(v: Option<Ratio>, d: Option<real>, overflows: bool) {
    && (v.Some? <==> d.Some? && !overflows)
    && (v.Some? ==> Canonical(v.value) && d == Some(Value(v.value)))
  }

  lemma ApplyIsExact(op: Op, a: Option<Ratio>, x: Option<real>, ao: bool, b: Option<Ratio>, y: Option<real>, bo: bool)
    requires Represents(a, x, ao) && Represents(b, y, bo)
    ensures Represents(Apply(op, a, b), Denote(op, x, y), ao || bo || Overflows(op, a, b))
  {
    if a.Some? && b.Some? {
      match op
      case OpAdd => AddIsExact(a.value, b.value);
      case OpSub => SubIsExact(a.value, b.value);
      case OpMul => ProductIsExact(a.value, b.value);
      case OpDiv => QuotientIsExact(a.value, b.value);
    }
  }

  lemma ProductIsExact(a: Ratio, b: Ratio)
    requires Canonical(a) && Canonical(b)
    ensures Represents(Mul(a, b), Some(RealProduct(Value(a), Value(b))), !ProductFits(a, b))
  {
    MulIsExact(a, b);
  }

  lemma QuotientIsExact(a: Ratio, b: Ratio)
    requires Canonical(a) && Canonical(b)
    ensures Represents(Div(a, b), Denote(OpDiv, Some(Value(a)), Some(Value(b))), !QuotientFits(a, b))
  {
    DivIsExact(a, b);
    ZeroValue(b);
  }

  lemma ZeroValue(r: Ratio)
    requires Canonical(r)
    ensures Value(r) == 0.0 <==> r.num == 0
  {
    assert Value(r) * r.den as real == r.num as real;
  }

  /**
   Evaluation is exact: a tree has a value exactly when no divisor is zero and no intermediate
   leaves `i128`, and the value is then the denoted rational in lowest terms.
   */
  lemma {:induction false} ExprEvaluatesExactly(e: Expr)
    ensures Represents(EvalExpr(e), DenoteExpr(e), ExprOverflows(e))
    decreases e
  {
    match e
    case One(t) =>
      TermEvaluatesExactly(t);
    case Plus2(l, r) =>
      ExprEvaluatesExactly(l);
      TermEvaluatesExactly(r);
      ApplyIsExact(OpAdd, EvalExpr(l), DenoteExpr(l), ExprOverflows(l), EvalTerm(r), DenoteTerm(r), TermOverflows(r));
    case Minus2(l, r) =>
      ExprEvaluatesExactly(l);
      TermEvaluatesExactly(r);
      ApplyIsExact(OpSub, EvalExpr(l), DenoteExpr(l), ExprOverflows(l), EvalTerm(r), DenoteTerm(r), TermOverflows(r));
  }

  lemma {:induction false} TermEvaluatesExactly(t: Term)
    ensures Represents(EvalTerm(t), DenoteTerm(t), TermOverflows(t))
    decreases t
  {
    match t
    case Lone(f) =>
      FactorEvaluatesExactly(f);
    case Times(l, r) =>
      TermEvaluatesExactly(l);
      FactorEvaluatesExactly(r);
      ApplyIsExact(OpMul, EvalTerm(l), DenoteTerm(l), TermOverflows(l), EvalFactor(r), DenoteFactor(r),
                   FactorOverflows(r));
    case Over(l, r) =>
      TermEvaluatesExactly(l);
      FactorEvaluatesExactly(r);
      ApplyIsExact(OpDiv, EvalTerm(l), DenoteTerm(l), TermOverflows(l), EvalFactor(r), DenoteFactor(r),
                   FactorOverflows(r));
  }

  lemma {:induction false} FactorEvaluatesExactly(f: Factor)
    ensures Represents(EvalFactor(f), DenoteFactor(f), FactorOverflows(f))
    decreases f
  {
    match f
    case Literal(n) =>
      GcdWithOne(n);
      assert Value(FromInt(n)) == n as real;
    case Paren(e) =>
      ExprEvaluatesExactly(e);
  }

  // ---------------------------------------------------------------------------
  // Deriving trees from tokens
  // ---------------------------------------------------------------------------

  /** The tree of the longest expression starting at `pos`, and where it ends. */
  function DeriveExpr(toks: seq<Tok>, pos: nat): (d: Option<(Expr, nat)>)
    requires pos <= |toks|
    ensures d.Some? ==> pos < d.value.1 <= |toks|
    decreases |toks| - pos, 4
  {
    var d := DeriveTerm(toks, pos);
    if d.None? then None else DeriveExprTail(toks, d.value.1, One(d.value.0))
  }

  function DeriveExprTail(toks: seq<Tok>, pos: nat, acc: Expr): (d: Option<(Expr, nat)>)
    requires pos <= |toks|
    ensures d.Some? ==> pos <= d.value.1 <= |toks|
    decreases |toks| - pos, 3
  {
    if pos == |toks| || !(toks[pos].Plus? || toks[pos].Minus?) then Some((acc, pos))
    else
      var d := DeriveTerm(toks, pos + 1);
      if d.None? then None
      else
        var (t, p) := d.value;
        DeriveExprTail(toks, p, if toks[pos].Plus? then Plus2(acc, t) else Minus2(acc, t))
  }

  function DeriveTerm(toks: seq<Tok>, pos: nat): (d: Option<(Term, nat)>)
    requires pos <= |toks|
    ensures d.Some? ==> pos < d.value.1 <= |toks|
    decreases |toks| - pos, 2
  {
    var d := DeriveFactor(toks, pos);
    if d.None? then None else DeriveTermTail(toks, d.value.1, Lone(d.value.0))
  }

  function DeriveTermTail(toks: seq<Tok>, pos: nat, acc: Term): (d: Option<(Term, nat)>)
    requires pos <= |toks|
    ensures d.Some? ==> pos <= d.value.1 <= |toks|
    decreases |toks| - pos, 1
  {
    if pos == |toks| || !(toks[pos].Star? || toks[pos].Slash?) then Some((acc, pos))
    else
      var d := DeriveFactor(toks, pos + 1);
      if d.None? then None
      else
        var (f, p) := d.value;
        DeriveTermTail(toks, p, if toks[pos].Star? then Times(acc, f) else Over(acc, f))
  }

  function DeriveFactor(toks: seq<Tok>, pos: nat): (d: Option<(Factor, nat)>)
    requires pos <= |toks|
    ensures d.Some? ==> pos < d.value.1 <= |toks|
    decreases |toks| - pos, 0
  {
    if pos == |toks| then None
    else match toks[pos]
      case Num(n) => Some((Literal(n), pos + 1))
      case LParen =>
        var d := DeriveExpr(toks, pos + 1);
        if d.None? || d.value.1 == |toks| || !toks[d.value.1].RParen? then None
        else Some((Paren(d.value.0), d.value.1 + 1))
      case _ => None
  }

  /** The tree of a whole token list. */
  function Derive(toks: seq<Tok>): Option<Expr> {
    var d := DeriveExpr(toks, 0);
    if d.Some? && d.value.1 == |toks| then Some(d.value.0) else None
  }

  // Soundness: a derived tree derives the tokens it was read from.

  lemma Join(toks: seq<Tok>, start: nat, pos: nat, end: nat, a: seq<Tok>, b: seq<Tok>)
    requires start <= pos < end <= |toks|
    requires a == toks[start..pos] && b == toks[pos + 1..end]
    ensures a + [toks[pos]] + b == toks[start..end]
  {
  }

  lemma {:induction false} ExprTailSound(toks: seq<Tok>, start: nat, pos: nat, acc: Expr)
    requires start <= pos <= |toks| && ExprTokens(acc) == toks[start..pos]
    ensures var d := DeriveExprTail(toks, pos, acc);
            d.Some? ==> ExprTokens(d.value.0) == toks[start..d.value.1]
    decreases |toks| - pos, 3
  {
    if pos < |toks| && (toks[pos].Plus? || toks[pos].Minus?) {
      var d := DeriveTerm(toks, pos + 1);
      TermSound(toks, pos + 1);
      if d.Some? {
        var (t, p) := d.value;
        Join(toks, start, pos, p, ExprTokens(acc), TermTokens(t));
        var next := if toks[pos].Plus? then Plus2(acc, t) else Minus2(acc, t);
        assert ExprTokens(next) == toks[start..p];
        ExprTailSound(toks, start, p, next);
      }
    }
  }

  lemma {:induction false} ExprSound(toks: seq<Tok>, pos: nat)
    requires pos <= |toks|
    ensures var d := DeriveExpr(toks, pos);
            d.Some? ==> ExprTokens(d.value.0) == toks[pos..d.value.1]
    decreases |toks| - pos, 4
  {
    TermSound(toks, pos);
    var d := DeriveTerm(toks, pos);
    if d.Some? {
      ExprTailSound(toks, pos, d.value.1, One(d.value.0));
    }
  }

  lemma {:induction false} TermTailSound(toks: seq<Tok>, start: nat, pos: nat, acc: Term)
    requires start <= pos <= |toks| && TermTokens(acc) == toks[start..pos]
    ensures var d := DeriveTermTail(toks, pos, acc);
            d.Some? ==> TermTokens(d.value.0) == toks[start..d.value.1]
    decreases |toks| - pos, 1
  {
    if pos < |toks| && (toks[pos].Star? || toks[pos].Slash?) {
      var d := DeriveFactor(toks, pos + 1);
      FactorSound(toks, pos + 1);
      if d.Some? {
        var (f, p) := d.value;
        Join(toks, start, pos, p, TermTokens(acc), FactorTokens(f));
        var next := if toks[pos].Star? then Times(acc, f) else Over(acc, f);
        assert TermTokens(next) == toks[start..p];
        TermTailSound(toks, start, p, next);
      }
    }
  }

  lemma {:induction false} TermSound(toks: seq<Tok>, pos: nat)
    requires pos <= |toks|
    ensures var d := DeriveTerm(toks, pos);
            d.Some? ==> TermTokens(d.value.0) == toks[pos..d.value.1]
    decreases |toks| - pos, 2
  {
    FactorSound(toks, pos);
    var d := DeriveFactor(toks, pos);
    if d.Some? {
      TermTailSound(toks, pos, d.value.1, Lone(d.value.0));
    }
  }

  lemma {:induction false} FactorSound(toks: seq<Tok>, pos: nat)
    requires pos <= |toks|
    ensures var d := DeriveFactor(toks, pos);
            d.Some? ==> FactorTokens(d.value.0) == toks[pos..d.value.1]
    decreases |toks| - pos, 0
  {
    if pos < |toks| && toks[pos].LParen? {
      ExprSound(toks, pos + 1);
      var d := DeriveExpr(toks, pos + 1);
      if d.Some? && d.value.1 < |toks| {
        var p := d.value.1;
        assert toks[pos..p + 1] == [toks[pos]] + toks[pos + 1..p] + [toks[p]];
      }
    }
  }

  // Completeness: any tree is found from its own tokens, whatever follows them.

  /** `ts` stands at `toks[pos..end]`. */
  predicate At(toks: seq<Tok>, pos: nat, end: nat, ts: seq<Tok>) {
    pos <= end <= |toks| && toks[pos..end] == ts
  }

  lemma AtSplit(toks: seq<Tok>, pos: nat, end: nat, a: seq<Tok>, op: Tok, b: seq<Tok>) returns (mid: nat)
    requires At(toks, pos, end, a + [op] + b)
    ensures pos <= mid < end && toks[mid] == op
    ensures At(toks, pos, mid, a) && At(toks, mid + 1, end, b)
  {
    var here := toks[pos..end];
    mid := pos + |a|;
    assert toks[pos..mid] == here[..|a|] == a;
    assert toks[mid] == here[|a|] == op;
    assert toks[mid + 1..end] == here[|a| + 1..] == b;
  }

  predicate ScalesAt(toks: seq<Tok>, pos: nat) {
    pos < |toks| && (toks[pos].Star? || toks[pos].Slash?)
  }

  predicate SumsAt(toks: seq<Tok>, pos: nat) {
    pos < |toks| && (toks[pos].Plus? || toks[pos].Minus?)
  }

  lemma SumFound(toks: seq<Tok>, pos: nat, mid: nat, end: nat, l: Expr, r: Term)
    requires pos <= mid < end <= |toks| && SumsAt(toks, mid) && !ScalesAt(toks, end)
    requires DeriveExpr(toks, pos) == DeriveExprTail(toks, mid, l)
    requires DeriveTerm(toks, mid + 1) == DeriveTermTail(toks, end, r)
    ensures DeriveExpr(toks, pos)
            == DeriveExprTail(toks, end, if toks[mid].Plus? then Plus2(l, r) else Minus2(l, r))
  {
    assert DeriveTermTail(toks, end, r) == Some((r, end));
  }

  lemma ScaleFound(toks: seq<Tok>, pos: nat, mid: nat, end: nat, l: Term, r: Factor)
    requires pos <= mid < end <= |toks| && ScalesAt(toks, mid)
    requires DeriveTerm(toks, pos) == DeriveTermTail(toks, mid, l)
    requires DeriveFactor(toks, mid + 1) == Some((r, end))
    ensures DeriveTerm(toks, pos)
            == DeriveTermTail(toks, end, if toks[mid].Star? then Times(l, r) else Over(l, r))
  {
  }

  /** Reading an expression reads any tree standing there and then carries on behind it. */
  lemma {:induction false} ExprFound(toks: seq<Tok>, pos: nat, end: nat, e: Expr)
    requires At(toks, pos, end, ExprTokens(e)) && !ScalesAt(toks, end)
    ensures DeriveExpr(toks, pos) == DeriveExprTail(toks, end, e)
    decreases e
  {
    match e
    case One(t) =>
      TermFound(toks, pos, end, t);
      assert DeriveTermTail(toks, end, t) == Some((t, end));
    case Plus2(l, r) =>
      var mid := AtSplit(toks, pos, end, ExprTokens(l), Plus, TermTokens(r));
      ExprFound(toks, pos, mid, l);
      TermFound(toks, mid + 1, end, r);
      SumFound(toks, pos, mid, end, l, r);
    case Minus2(l, r) =>
      var mid := AtSplit(toks, pos, end, ExprTokens(l), Minus, TermTokens(r));
      ExprFound(toks, pos, mid, l);
      TermFound(toks, mid + 1, end, r);
      SumFound(toks, pos, mid, end, l, r);
  }

  lemma {:induction false} TermFound(toks: seq<Tok>, pos: nat, end: nat, t: Term)
    requires At(toks, pos, end, TermTokens(t))
    ensures DeriveTerm(toks, pos) == DeriveTermTail(toks, end, t)
    decreases t
  {
    match t
    case Lone(f) =>
      FactorFound(toks, pos, end, f);
    case Times(l, r) =>
      var mid := AtSplit(toks, pos, end, TermTokens(l), Star, FactorTokens(r));
      TermFound(toks, pos, mid, l);
      FactorFound(toks, mid + 1, end, r);
      ScaleFound(toks, pos, mid, end, l, r);
    case Over(l, r) =>
      var mid := AtSplit(toks, pos, end, TermTokens(l), Slash, FactorTokens(r));
      TermFound(toks, pos, mid, l);
      FactorFound(toks, mid + 1, end, r);
      ScaleFound(toks, pos, mid, end, l, r);
  }

  lemma {:induction false} FactorFound(toks: seq<Tok>, pos: nat, end: nat, f: Factor)
    requires At(toks, pos, end, FactorTokens(f))
    ensures DeriveFactor(toks, pos) == Some((f, end))
    decreases f
  {
    match f
    case Literal(n) =>
      assert toks[pos] == toks[pos..end][0];
    case Paren(e) =>
      var inner := ExprTokens(e);
      assert FactorTokens(f) == [] + [LParen] + (inner + [RParen]);
      var open := AtSplit(toks, pos, end, [], LParen, inner + [RParen]);
      assert inner + [RParen] == inner + [RParen] + [];
      var close := AtSplit(toks, pos + 1, end, inner, RParen, []);
      ExprFound(toks, pos + 1, close, e);
  }

  /** A token list has at most one derivation tree, and `Derive` finds it. */
  lemma DeriveIsTheTree(toks: seq<Tok>, e: Expr)
    ensures Derive(toks) == Some(e) <==> ExprTokens(e) == toks
  {
    if Derive(toks) == Some(e) {
      ExprSound(toks, 0);
      assert toks[0..|toks|] == toks;
    }
    if ExprTokens(e) == toks {
      assert toks[0..|toks|] == toks;
      ExprFound(toks, 0, |toks|, e);
    }
  }

  // ---------------------------------------------------------------------------
  // The source's cursor
  // ---------------------------------------------------------------------------

  // A failure is final: nothing appended to a failed operand brings a value back.

  lemma ExprTailKeepsFailure(toks: seq<Tok>, pos: nat, acc: Expr)
    requires pos <= |toks| && EvalExpr(acc).None?
    ensures var d := DeriveExprTail(toks, pos, acc); d.Some? ==> EvalExpr(d.value.0).None?
    decreases |toks| - pos
  {
    if SumsAt(toks, pos) && DeriveTerm(toks, pos + 1).Some? {
      var (t, p) := DeriveTerm(toks, pos + 1).value;
      ExprTailKeepsFailure(toks, p, if toks[pos].Plus? then Plus2(acc, t) else Minus2(acc, t));
    }
  }

  lemma TermTailKeepsFailure(toks: seq<Tok>, pos: nat, acc: Term)
    requires pos <= |toks| && EvalTerm(acc).None?
    ensures var d := DeriveTermTail(toks, pos, acc); d.Some? ==> EvalTerm(d.value.0).None?
    decreases |toks| - pos
  {
    if ScalesAt(toks, pos) && DeriveFactor(toks, pos + 1).Some? {
      var (f, p) := DeriveFactor(toks, pos + 1).value;
      TermTailKeepsFailure(toks, p, if toks[pos].Star? then Times(acc, f) else Over(acc, f));
    }
  }

  class Parser {
    const toks: seq<Tok>
    var pos: nat
    var leaves: seq<U32>

    constructor (toks: seq<Tok>)
      ensures this.toks == toks && pos == 0 && leaves == []
    {
      this.toks := toks;
      pos := 0;
      leaves := [];
    }

    function Peek(): Option<Tok>
      reads this
    {
      if pos < |toks| then Some(toks[pos]) else None
    }

    method Bump() returns (t: Option<Tok>)
      modifies this`pos
      ensures t == old(Peek())
      ensures pos == if t.Some? then old(pos) + 1 else old(pos)
    {
      t := Peek();
      if t.Some? {
        pos := pos + 1;
      }
    }

    /** `expr := term (('+' | '-') term)*` */
    method Expr() returns (r: Option<Ratio>)
      requires pos <= |toks|
      modifies this
      ensures pos <= |toks|
      ensures var d := DeriveExpr(toks, old(pos));
              && r == (if d.None? then None else EvalExpr(d.value.0))
              && (r.Some? ==> pos == d.value.1 && leaves == old(leaves) + ExprLeaves(d.value.0))
      decreases |toks| - pos, 2
    {
      r := Term();
      if r.None? {
        var d := DeriveTerm(toks, old(pos));
        if d.Some? {
          ExprTailKeepsFailure(toks, d.value.1, One(d.value.0));
        }
        return;
      }
      ghost var tree := One(DeriveTerm(toks, old(pos)).value.0);
      while Peek().Some?
        invariant old(pos) < pos <= |toks|
        invariant r.Some? && EvalExpr(tree) == r
        invariant leaves == old(leaves) + ExprLeaves(tree)
        invariant DeriveExpr(toks, old(pos)) == DeriveExprTail(toks, pos, tree)
        decreases |toks| - pos
      {
        var op := Peek().value;
        if op != Plus && op != Minus {
          break;
        }
        ghost var before := pos;
        pos := pos + 1;
        var rhs := Term();
        ghost var d := DeriveTerm(toks, before + 1);
        ghost var next := if d.None? then tree
                          else if op == Plus then Plus2(tree, d.value.0) else Minus2(tree, d.value.0);
        r := Apply(if op == Plus then OpAdd else OpSub, r, rhs);
        if r.None? {
          if d.Some? {
            ExprTailKeepsFailure(toks, d.value.1, next);
          }
          return;
        }
        tree := next;
      }
    }

    /** `term := factor (('*' | '/') factor)*` */
    method Term() returns (r: Option<Ratio>)
      requires pos <= |toks|
      modifies this
      ensures pos <= |toks|
      ensures var d := DeriveTerm(toks, old(pos));
              && r == (if d.None? then None else EvalTerm(d.value.0))
              && (r.Some? ==> pos == d.value.1 && leaves == old(leaves) + TermLeaves(d.value.0))
      decreases |toks| - pos, 1
    {
      r := Factor();
      if r.None? {
        var d := DeriveFactor(toks, old(pos));
        if d.Some? {
          TermTailKeepsFailure(toks, d.value.1, Lone(d.value.0));
        }
        return;
      }
      ghost var tree := Lone(DeriveFactor(toks, old(pos)).value.0);
      while Peek().Some?
        invariant old(pos) < pos <= |toks|
        invariant r.Some? && EvalTerm(tree) == r
        invariant leaves == old(leaves) + TermLeaves(tree)
        invariant DeriveTerm(toks, old(pos)) == DeriveTermTail(toks, pos, tree)
        decreases |toks| - pos
      {
        var op := Peek().value;
        if op != Star && op != Slash {
          break;
        }
        ghost var before := pos;
        pos := pos + 1;
        var rhs := Factor();
        ghost var d := DeriveFactor(toks, before + 1);
        ghost var next := if d.None? then tree
                          else if op == Star then Times(tree, d.value.0) else Over(tree, d.value.0);
        r := Apply(if op == Star then OpMul else OpDiv, r, rhs);
        if r.None? {
          if d.Some? {
            TermTailKeepsFailure(toks, d.value.1, next);
          }
          return;
        }
        tree := next;
      }
    }

    /** `factor := number | '(' expr ')'` */
    method Factor() returns (r: Option<Ratio>)
      requires pos <= |toks|
      modifies this
      ensures pos <= |toks|
      ensures var d := DeriveFactor(toks, old(pos));
              && r == (if d.None? then None else EvalFactor(d.value.0))
              && (r.Some? ==> pos == d.value.1 && leaves == old(leaves) + FactorLeaves(d.value.0))
      decreases |toks| - pos, 0
    {
      var t := Bump();
      if t.None? {
        return None;
      }
      match t.value {
        case Num(n) =>
          leaves := leaves + [n];
          return Some(FromInt(n));
        case LParen =>
          var v := Expr();
          if v.None? {
            return None;
          }
          var close := Bump();
          if close != Some(RParen) {
            return None;
          }
          return v;
        case _ =>
          return None;
      }
    }
  }

  /** The value and the literals of a text, if it is a complete expression that evaluates. */
  function EvalText(s: string): Option<(Ratio, seq<U32>)> {
    var toks := Lex(s);
    if toks.None? || Derive(toks.value).None? then None
    else
      var e := Derive(toks.value).value;
      var v := EvalExpr(e);
      if v.None? then None else Some((v.value, ExprLeaves(e)))
  }

  /** The source's `eval_expression`. */
  method EvalExpression(s: string) returns (r: Option<(Ratio, seq<U32>)>)
    ensures r == EvalText(s)
  {
    var toks := Tokenize(s);
    if toks.None? {
      return None;
    }
    if toks.value == [] {
      return None;
    }
    var parser := new Parser(toks.value);
    var value := parser.Expr();
    if value.None? {
      return None;
    }
    if parser.pos != |toks.value| {
      return None;
    }
    ghost var tree := Derive(toks.value).value;
    assert [] + ExprLeaves(tree) == ExprLeaves(tree);
    return Some((value.value, parser.leaves));
  }

  // ---------------------------------------------------------------------------
  // The evaluator's contract
  // ---------------------------------------------------------------------------

  /**
   A text evaluates to a value and leaves exactly when it spells a tree of the grammar with that
   value and those leaves; the value is the exact rational the tree denotes.
   */
  lemma EvalTextIsTheTreesValue(s: string, v: Ratio, leaves: seq<U32>)
    ensures EvalText(s) == Some((v, leaves))
            <==> exists e :: Lex(s) == Some(ExprTokens(e)) && EvalExpr(e) == Some(v) && ExprLeaves(e) == leaves
    ensures EvalText(s) == Some((v, leaves)) ==>
              && Canonical(v)
              && exists e :: && Lex(s) == Some(ExprTokens(e))
                             && DenoteExpr(e) == Some(Value(v)) && ExprLeaves(e) == leaves
  {
    if EvalText(s) == Some((v, leaves)) {
      var e := Derive(Lex(s).value).value;
      DeriveIsTheTree(Lex(s).value, e);
      ExprEvaluatesExactly(e);
    }
    if e :| Lex(s) == Some(ExprTokens(e)) && EvalExpr(e) == Some(v) && ExprLeaves(e) == leaves {
      DeriveIsTheTree(Lex(s).value, e);
    }
  }

  ghost predicate SpellsEvaluableTree(s: string, e: Expr) {
    Lex(s) == Some(ExprTokens(e)) && DenoteExpr(e).Some? && !ExprOverflows(e)
  }

  /** Rejection is exact too: no complete tree, a zero divisor, or an intermediate beyond `i128`. */
  lemma EvalTextFailsExactly(s: string)
    ensures EvalText(s).None? <==> !exists e :: SpellsEvaluableTree(s, e)
  {
    if EvalText(s).Some? {
      var e := Derive(Lex(s).value).value;
      DeriveIsTheTree(Lex(s).value, e);
      ExprEvaluatesExactly(e);
      assert SpellsEvaluableTree(s, e);
    }
    if e :| SpellsEvaluableTree(s, e) {
      DeriveIsTheTree(Lex(s).value, e);
      ExprEvaluatesExactly(e);
    }
  }

  // Trees never put two literals side by side, so they can be written without separators.

  predicate StartsOperand(t: Tok) { t.Num? || t.LParen? }
  predicate EndsOperand(t: Tok) { t.Num? || t.RParen? }

  predicate OperandLike(ts: seq<Tok>) {
    && ts != [] && NoAdjacentLiterals(ts)
    && StartsOperand(ts[0]) && EndsOperand(ts[|ts| - 1])
  }

  lemma JoinOperands(a: seq<Tok>, op: Tok, b: seq<Tok>)
    requires OperandLike(a) && OperandLike(b) && !op.Num?
    ensures OperandLike(a + [op] + b)
  {
    var w := a + [op] + b;
    forall i | 0 <= i < |w| - 1
      ensures !(w[i].Num? && w[i + 1].Num?)
    {
      if i > |a| {
        assert w[i] == b[i - |a| - 1] && w[i + 1] == b[i - |a|];
      }
    }
  }

  lemma {:induction false} ExprIsOperandLike(e: Expr)
    ensures OperandLike(ExprTokens(e))
  {
    match e
    case One(t) => TermIsOperandLike(t);
    case Plus2(l, r) =>
      ExprIsOperandLike(l);
      TermIsOperandLike(r);
      JoinOperands(ExprTokens(l), Plus, TermTokens(r));
    case Minus2(l, r) =>
      ExprIsOperandLike(l);
      TermIsOperandLike(r);
      JoinOperands(ExprTokens(l), Minus, TermTokens(r));
  }

  lemma {:induction false} TermIsOperandLike(t: Term)
    ensures OperandLike(TermTokens(t))
  {
    match t
    case Lone(f) => FactorIsOperandLike(f);
    case Times(l, r) =>
      TermIsOperandLike(l);
      FactorIsOperandLike(r);
      JoinOperands(TermTokens(l), Star, FactorTokens(r));
    case Over(l, r) =>
      TermIsOperandLike(l);
      FactorIsOperandLike(r);
      JoinOperands(TermTokens(l), Slash, FactorTokens(r));
  }

  lemma {:induction false} FactorIsOperandLike(f: Factor)
    ensures OperandLike(FactorTokens(f))
  {
    match f
    case Literal(n) =>
    case Paren(e) =>
      ExprIsOperandLike(e);
      var ts := ExprTokens(e);
      var w := [LParen] + ts + [RParen];
      forall i | 0 <= i < |w| - 1
        ensures !(w[i].Num? && w[i + 1].Num?)
      {
        if 0 < i < |ts| {
          assert w[i] == ts[i - 1] && w[i + 1] == ts[i];
        }
      }
  }

  /** Printing a tree and evaluating the text gives back the tree's own value and leaves. */
  lemma PrintedTreesEvaluate(e: Expr)
    ensures EvalText(Show(ExprTokens(e)))
            == if EvalExpr(e).None? then None else Some((EvalExpr(e).value, ExprLeaves(e)))
  {
    ExprIsOperandLike(e);
    LexShow(ExprTokens(e));
    DeriveIsTheTree(ExprTokens(e), e);
  }
}
