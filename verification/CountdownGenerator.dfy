/**
 Countdown problems, their checker and their generator (`crates/ferrl/src/countdown.rs`).

 The generator draws numbers, shuffles them and folds them under randomly chosen operators. The
 specification functions thread the generator state by hand; the methods are the source's loops over
 a mutable `SplitMix64`. `GeneratedProblemsAreSolvable` joins everything: for every generator state
 and configuration, the printed left fold is a text the checker accepts.
 */
module CountdownGenerator {
  import opened Common
  import opened Ratios
  import opened CountdownLexer
  import opened CountdownParser
  import opened Shuffles

  // ---------------------------------------------------------------------------
  // Problems and their checker
  // ---------------------------------------------------------------------------

  /** What the generator accumulates: a non-negative `i64`. */
  type Acc = x: int | 0 <= x <= I64_MAX

  datatype Problem = Problem(numbers: seq<U32>, target: Acc)

  function Insert(x: int, s: seq<int>): seq<int> {
    if s == [] || x <= s[0] then [x] + s else [s[0]] + Insert(x, s[1..])
  }

  /** `sort_unstable` on integers. */
  function Sort(s: seq<int>): seq<int> {
    if s == [] then [] else Insert(s[0], Sort(s[1..]))
  }

  predicate IsLegal(leaves: seq<int>, numbers: seq<int>) {
    |leaves| == |numbers| && Sort(leaves) == Sort(numbers)
  }

  predicate Check(p: Problem, text: string) {
    var r := EvalText(text);
    r.Some? && IsLegal(r.value.1, p.numbers) && EqualsInt(r.value.0, p.target)
  }

  predicate Sorted(s: seq<int>) {
    forall i, j :: 0 <= i < j < |s| ==> s[i] <= s[j]
  }

  lemma InsertKeeps(x: int, s: seq<int>)
    ensures multiset(Insert(x, s)) == multiset(s) + multiset{x}
  {
    if s != [] && x > s[0] {
      assert s == [s[0]] + s[1..];
      InsertKeeps(x, s[1..]);
    }
  }

  predicate AtLeast(lo: int, s: seq<int>) {
    forall i :: 0 <= i < |s| ==> lo <= s[i]
  }

  lemma InsertAtLeast(lo: int, x: int, s: seq<int>)
    requires lo <= x && AtLeast(lo, s)
    ensures AtLeast(lo, Insert(x, s))
  {
    if s != [] && x > s[0] {
      InsertAtLeast(lo, x, s[1..]);
    }
  }

  lemma InsertSorts(x: int, s: seq<int>)
    requires Sorted(s)
    ensures Sorted(Insert(x, s))
  {
    if s != [] && x > s[0] {
      InsertSorts(x, s[1..]);
      InsertAtLeast(s[0], x, s[1..]);
    }
  }

  lemma SortSorts(s: seq<int>)
    ensures Sorted(Sort(s)) && multiset(Sort(s)) == multiset(s)
  {
    if s != [] {
      SortSorts(s[1..]);
      InsertSorts(s[0], Sort(s[1..]));
      InsertKeeps(s[0], Sort(s[1..]));
      assert s == [s[0]] + s[1..];
    }
  }

  lemma HeadIsLeast(a: seq<int>, x: int)
    requires Sorted(a) && x in multiset(a)
    ensures a != [] && a[0] <= x
  {
    assert x in a;
  }

  lemma TailContents(a: seq<int>)
    requires a != []
    ensures multiset(a[1..]) == multiset(a) - multiset{a[0]}
  {
    assert a == [a[0]] + a[1..];
  }

  lemma SameHead(a: seq<int>, b: seq<int>)
    requires Sorted(a) && Sorted(b) && multiset(a) == multiset(b) && a != []
    ensures b != [] && a[0] == b[0]
  {
    assert a[0] in multiset(a);
    HeadIsLeast(b, a[0]);
    assert b[0] in multiset(b);
    HeadIsLeast(a, b[0]);
  }

  lemma {:induction false} SortedIsDetermined(a: seq<int>, b: seq<int>)
    requires Sorted(a) && Sorted(b) && multiset(a) == multiset(b)
    ensures a == b
  {
    if a != [] {
      SameHead(a, b);
      TailContents(a);
      TailContents(b);
      SortedIsDetermined(a[1..], b[1..]);
      assert a == [a[0]] + a[1..] && b == [b[0]] + b[1..];
    } else if b != [] {
      SameHead(b, a);
    }
  }

  /** Comparing sorted copies compares multisets. */
  lemma LegalIsMultisetEquality(leaves: seq<int>, numbers: seq<int>)
    ensures IsLegal(leaves, numbers) <==> multiset(leaves) == multiset(numbers)
  {
    SortSorts(leaves);
    SortSorts(numbers);
    if multiset(leaves) == multiset(numbers) {
      SortedIsDetermined(Sort(leaves), Sort(numbers));
      assert |leaves| == |multiset(leaves)| && |numbers| == |multiset(numbers)|;
    }
  }

  ghost predicate Solves(e: Expr, text: string, p: Problem) {
    && Lex(text) == Some(ExprTokens(e)) && !ExprOverflows(e)
    && DenoteExpr(e) == Some(p.target as real)
    && multiset(ExprLeaves(e)) == multiset(p.numbers)
  }

  /**
   The checker accepts exactly the texts of expressions that use each number exactly once and whose
   exact rational value is the target, as long as no intermediate leaves `i128`.
   */
  lemma CheckIsExact(p: Problem, text: string)
    ensures Check(p, text) <==> exists e :: Solves(e, text, p)
  {
    if Check(p, text) {
      var (v, leaves) := EvalText(text).value;
      var e := Derive(Lex(text).value).value;
      DeriveIsTheTree(Lex(text).value, e);
      ExprEvaluatesExactly(e);
      LegalIsMultisetEquality(leaves, p.numbers);
      EqualsIntIsExact(v, p.target);
      assert Solves(e, text, p);
    }
    if e :| Solves(e, text, p) {
      DeriveIsTheTree(Lex(text).value, e);
      ExprEvaluatesExactly(e);
      LegalIsMultisetEquality(ExprLeaves(e), p.numbers);
      EqualsIntIsExact(EvalExpr(e).value, p.target);
    }
  }

  /** The split key: problems that differ only by a permutation share it, and no others do. */
  function SplitKey(p: Problem): (seq<int>, int) {
    (Sort(p.numbers), p.target)
  }

  lemma SplitKeyIdentifiesPermutations(p: Problem, q: Problem)
    ensures SplitKey(p) == SplitKey(q) <==> multiset(p.numbers) == multiset(q.numbers) && p.target == q.target
  {
    SortSorts(p.numbers);
    SortSorts(q.numbers);
    if multiset(p.numbers) == multiset(q.numbers) {
      SortedIsDetermined(Sort(p.numbers), Sort(q.numbers));
    }
  }

  // ---------------------------------------------------------------------------
  // SplitMix64
  // ---------------------------------------------------------------------------

  const TWO_64: int := 0x1_0000_0000_0000_0000
  const GAMMA: int := 0x9E37_79B9_7F4A_7C15

  /** Bitwise exclusive or. */
  function Xor(a: nat, b: nat): nat {
    if a == 0 && b == 0 then 0
    else 2 * Xor(a / 2, b / 2) + (if a % 2 == b % 2 then 0 else 1)
  }

  function Pow2(n: nat): nat {
    if n == 0 then 1 else 2 * Pow2(n - 1)
  }

  lemma {:induction false} XorBound(a: nat, b: nat, n: nat)
    requires a < Pow2(n) && b < Pow2(n)
    ensures Xor(a, b) < Pow2(n)
    decreases n
  {
    if n > 0 {
      XorBound(a / 2, b / 2, n - 1);
    }
  }

  lemma Pow2Of64()
    ensures Pow2(64) == TWO_64
  {
    assert Pow2(8) == 256;
    assert Pow2(16) == 0x1_0000;
    assert Pow2(24) == 0x100_0000;
    assert Pow2(32) == 0x1_0000_0000;
    assert Pow2(40) == 0x100_0000_0000;
    assert Pow2(48) == 0x1_0000_0000_0000;
    assert Pow2(56) == 0x100_0000_0000_0000;
  }

  function Xor64(a: U64, b: U64): (r: U64) {
    Pow2Of64();
    XorBound(a, b, 64);
    Xor(a, b)
  }

  /** The output function: wrapping multiplications and shifted exclusive ors. */
  function Mix(state: U64): U64 {
    var a := Xor64(state, state / 0x4000_0000) * 0xBF58_476D_1CE4_E5B9 % TWO_64;
    var b := Xor64(a, a / 0x800_0000) * 0x94D0_49BB_1331_11EB % TWO_64;
    Xor64(b, b / 0x8000_0000)
  }

  /** The state after `n` draws from `seed`. */
  function StateAt(seed: U64, n: nat): U64 {
    if n == 0 then seed else (StateAt(seed, n - 1) + GAMMA) % TWO_64
  }

  /** The numbers a generator yields, by position. */
  function StreamOf(seed: U64): Stream {
    (n: nat) => Mix(StateAt(seed, n + 1))
  }

  function Min(a: int, b: int): int { if a <= b then a else b }
  function Max(a: int, b: int): int { if a <= b then b else a }

  /** A draw scaled between `a` and `b`, in whichever order they are given. */
  function Scale(z: U64, a: U32, b: U32): (n: U32)
    ensures Min(a, b) <= n <= Max(a, b)
  {
    var lo := Min(a, b);
    var hi := Max(a, b);
    var span := hi - lo + 1;
    lo + z % span
  }

  class SplitMix64 {
    var state: U64
    ghost const seed: U64
    ghost var drawn: nat

    ghost predicate Valid()
      reads this
    {
      state == StateAt(seed, drawn)
    }

    ghost function Draws(): Stream {
      StreamOf(seed)
    }

    constructor (seed: U64)
      ensures Valid() && this.seed == seed && drawn == 0
    {
      state := seed;
      this.seed := seed;
      drawn := 0;
    }

    method NextU64() returns (z: U64)
      requires Valid()
      modifies this
      ensures Valid() && drawn == old(drawn) + 1 && z == Draws()(old(drawn))
    {
      state := (state + 0x9E37_79B9_7F4A_7C15) % TWO_64;
      drawn := drawn + 1;
      z := state;
      z := Xor64(z, z / 0x4000_0000) * 0xBF58_476D_1CE4_E5B9 % TWO_64;
      z := Xor64(z, z / 0x800_0000) * 0x94D0_49BB_1331_11EB % TWO_64;
      z := Xor64(z, z / 0x8000_0000);
      assert z == Mix(state);
    }

    method Range(a: U32, b: U32) returns (n: U32)
      requires Valid()
      modifies this
      ensures Valid() && drawn == old(drawn) + 1 && n == Scale(Draws()(old(drawn)), a, b)
    {
      var z := NextU64();
      n := Scale(z, a, b);
    }
  }

  // ---------------------------------------------------------------------------
  // Shuffling
  // ---------------------------------------------------------------------------

  method Shuffled<T>(rng: SplitMix64, items: seq<T>) returns (v: seq<T>)
    requires rng.Valid()
    modifies rng
    ensures rng.Valid()
    ensures (v, rng.drawn) == ShuffleFrom(rng.Draws(), old(rng.drawn), items, |items|)
    ensures multiset(v) == multiset(items)
  {
    ShufflePermutes(rng.Draws(), rng.drawn, items, |items|);
    var a := new T[|items|](i requires 0 <= i < |items| => items[i]);
    assert a[..] == items;
    var k := |items|;
    while k > 1
      invariant rng.Valid()
      invariant 0 <= k <= a.Length == |items|
      invariant ShuffleFrom(rng.Draws(), rng.drawn, a[..], k) ==
                  ShuffleFrom(rng.Draws(), old(rng.drawn), items, |items|)
    {
      ghost var before := a[..];
      var i := k - 1;
      ghost var s := rng.drawn;
      var z := rng.NextU64();
      var j := (z as int) % k;
      a[i], a[j] := a[j], a[i];
      assert a[..] == Swap(before, i, j);
      k := i;
    }
    v := a[..];
  }

  // ---------------------------------------------------------------------------
  // The fold
  // ---------------------------------------------------------------------------

  /** Apply an operator if the result is exact, in range and, for subtraction, positive. */
  function TryOp(op: Op, acc: Acc, x: U32): Option<Acc> {
    match op
    case OpAdd => if acc + x <= I64_MAX then Some(acc + x) else None
    case OpMul => if 0 <= acc * x <= I64_MAX then Some(acc * x) else None
    case OpSub => if acc - x > 0 then Some(acc - x) else None
    case OpDiv => if x != 0 && acc % x == 0 then QuotientAtMost(acc, x); Some(acc / x) else None
  }

  /** The first operator of `ops` that applies, with its result. */
  function FirstValid(ops: seq<Op>, acc: Acc, x: U32): (r: Option<(Op, Acc)>)
    ensures r.Some? ==> TryOp(r.value.0, acc, x) == Some(r.value.1)
  {
    if ops == [] then None
    else if TryOp(ops[0], acc, x).Some? then Some((ops[0], TryOp(ops[0], acc, x).value))
    else FirstValid(ops[1..], acc, x)
  }

  lemma FirstValidExists(ops: seq<Op>, acc: Acc, x: U32, op: Op)
    requires op in ops && TryOp(op, acc, x).Some?
    ensures FirstValid(ops, acc, x).Some?
  {
  }

  const ALL_OPS: seq<Op> := [OpAdd, OpSub, OpMul, OpDiv]

  /** Whatever the accumulator, addition or subtraction applies. */
  lemma AddOrSubApplies(ops: seq<Op>, acc: Acc, x: U32)
    requires OpAdd in ops && OpSub in ops
    ensures FirstValid(ops, acc, x).Some?
  {
    if acc + x <= I64_MAX {
      FirstValidExists(ops, acc, x, OpAdd);
    } else {
      FirstValidExists(ops, acc, x, OpSub);
    }
  }

  lemma ShuffledOpsAreComplete(d: Stream, s: nat, op: Op)
    ensures op in ShuffleFrom(d, s, ALL_OPS, 4).0
  {
    ShufflePermutes(d, s, ALL_OPS, 4);
    assert op in ALL_OPS;
    assert op in multiset(ShuffleFrom(d, s, ALL_OPS, 4).0);
  }

  /** The saturating fallback of the fold is dead for every configuration. */
  lemma SomeOperatorApplies(d: Stream, s: nat, acc: Acc, x: U32)
    ensures FirstValid(ShuffleFrom(d, s, ALL_OPS, 4).0, acc, x).Some?
  {
    ShuffledOpsAreComplete(d, s, OpAdd);
    ShuffledOpsAreComplete(d, s, OpSub);
    AddOrSubApplies(ShuffleFrom(d, s, ALL_OPS, 4).0, acc, x);
  }

  /** One fold step: the operator chosen, the new accumulator and the generator state. */
  function FoldStep(d: Stream, s: nat, acc: Acc, x: U32): (Op, Acc, nat) {
    var (ops, s') := ShuffleFrom(d, s, ALL_OPS, 4);
    SomeOperatorApplies(d, s, acc, x);
    var choice := FirstValid(ops, acc, x).value;
    (choice.0, choice.1, s')
  }

  lemma FoldStepApplies(d: Stream, s: nat, acc: Acc, x: U32)
    ensures var r := FoldStep(d, s, acc, x); TryOp(r.0, acc, x) == Some(r.1)
  {
    SomeOperatorApplies(d, s, acc, x);
  }

  method FirstApplicable(ops: seq<Op>, acc: Acc, x: U32) returns (v: Acc)
    requires FirstValid(ops, acc, x).Some?
    ensures v == FirstValid(ops, acc, x).value.1
  {
    var i := 0;
    while i < |ops|
      invariant 0 <= i <= |ops|
      invariant FirstValid(ops[i..], acc, x) == FirstValid(ops, acc, x)
    {
      var r := TryOp(ops[i], acc, x);
      assert ops[i..][1..] == ops[i + 1..];
      if r.Some? {
        return r.value;
      }
      i := i + 1;
    }
    assert false;
  }

  method FoldOp(rng: SplitMix64, acc: Acc, x: U32) returns (v: Acc)
    requires rng.Valid()
    modifies rng
    ensures rng.Valid()
    ensures var r := FoldStep(rng.Draws(), old(rng.drawn), acc, x); v == r.1 && rng.drawn == r.2
  {
    var ops := Shuffled(rng, [OpAdd, OpSub, OpMul, OpDiv]);
    SomeOperatorApplies(rng.Draws(), old(rng.drawn), acc, x);
    v := FirstApplicable(ops, acc, x);
  }

  /** Fold `xs` into `acc` one by one. */
  function Fold(d: Stream, s: nat, acc: Acc, xs: seq<U32>): (Acc, nat)
    decreases |xs|
  {
    if xs == [] then (acc, s)
    else
      var (op, v, s') := FoldStep(d, s, acc, xs[0]);
      Fold(d, s', v, xs[1..])
  }

  datatype Config = Config(numCount: nat, minNumber: U32, maxNumber: U32, maxTarget: U32)

  function DrawNumbers(d: Stream, s: nat, count: nat, a: U32, b: U32): (r: (seq<U32>, nat))
    ensures |r.0| == count && forall i :: 0 <= i < count ==> Min(a, b) <= r.0[i] <= Max(a, b)
  {
    if count == 0 then ([], s)
    else
      var (numbers, s') := DrawNumbers(d, s, count - 1, a, b);
      (numbers + [Scale(d(s'), a, b)], s' + 1)
  }

  function Count(cfg: Config): nat {
    if cfg.numCount < 1 then 1 else cfg.numCount
  }

  /** The problem built from generator state `s`, and the state afterwards. */
  function Build(d: Stream, s: nat, cfg: Config): (Problem, nat) {
    var (numbers, s1) := DrawNumbers(d, s, Count(cfg), cfg.minNumber, cfg.maxNumber);
    var (order, s2) := ShuffleFrom(d, s1, numbers, |numbers|);
    var (target, s3) := Fold(d, s2, order[0], order[1..]);
    (Problem(numbers, target), s3)
  }

  method FoldAll(rng: SplitMix64, order: seq<U32>) returns (acc: Acc)
    requires rng.Valid() && order != []
    modifies rng
    ensures rng.Valid()
    ensures (acc, rng.drawn) == Fold(rng.Draws(), old(rng.drawn), order[0], order[1..])
  {
    acc := order[0];
    var i := 1;
    while i < |order|
      invariant rng.Valid()
      invariant 1 <= i <= |order|
      invariant Fold(rng.Draws(), rng.drawn, acc, order[i..]) == Fold(rng.Draws(), old(rng.drawn), order[0], order[1..])
    {
      assert order[i..][0] == order[i] && order[i..][1..] == order[i + 1..];
      acc := FoldOp(rng, acc, order[i]);
      i := i + 1;
    }
  }

  method DrawAll(rng: SplitMix64, count: nat, a: U32, b: U32) returns (numbers: seq<U32>)
    requires rng.Valid()
    modifies rng
    ensures rng.Valid()
    ensures (numbers, rng.drawn) == DrawNumbers(rng.Draws(), old(rng.drawn), count, a, b)
  {
    numbers := [];
    while |numbers| < count
      invariant rng.Valid()
      invariant |numbers| <= count
      invariant (numbers, rng.drawn) == DrawNumbers(rng.Draws(), old(rng.drawn), |numbers|, a, b)
    {
      DrawStep(rng.Draws(), old(rng.drawn), numbers, rng.drawn, a, b);
      var n := rng.Range(a, b);
      numbers := numbers + [n];
    }
  }

  lemma DrawStep(d: Stream, start: nat, numbers: seq<U32>, s: nat, a: U32, b: U32)
    requires (numbers, s) == DrawNumbers(d, start, |numbers|, a, b)
    ensures (numbers + [Scale(d(s), a, b)], s + 1) == DrawNumbers(d, start, |numbers| + 1, a, b)
  {
  }

  method BuildOne(rng: SplitMix64, cfg: Config) returns (p: Problem)
    requires rng.Valid()
    modifies rng
    ensures rng.Valid()
    ensures (p, rng.drawn) == Build(rng.Draws(), old(rng.drawn), cfg)
  {
    var numbers := DrawAll(rng, Count(cfg), cfg.minNumber, cfg.maxNumber);
    var order := Shuffled(rng, numbers);
    var target := FoldAll(rng, order);
    p := Problem(numbers, target);
  }

  const MAX_GEN_ATTEMPTS: nat := 64

  predicate Preferred(p: Problem, cfg: Config) {
    1 <= p.target <= cfg.maxTarget
  }

  /** Up to `attempts` problems, the first preferred one, or one more taken as it comes. */
  function Generate(d: Stream, s: nat, cfg: Config, attempts: nat): (Problem, nat)
    decreases attempts
  {
    var (p, s') := Build(d, s, cfg);
    if attempts == 0 || Preferred(p, cfg) then (p, s') else Generate(d, s', cfg, attempts - 1)
  }

  method GenerateProblem(rng: SplitMix64, cfg: Config) returns (p: Problem)
    requires rng.Valid()
    modifies rng
    ensures rng.Valid()
    ensures (p, rng.drawn) == Generate(rng.Draws(), old(rng.drawn), cfg, MAX_GEN_ATTEMPTS)
  {
    for attempt := 0 to MAX_GEN_ATTEMPTS
      invariant rng.Valid()
      invariant Generate(rng.Draws(), rng.drawn, cfg, MAX_GEN_ATTEMPTS - attempt)
                == Generate(rng.Draws(), old(rng.drawn), cfg, MAX_GEN_ATTEMPTS)
    {
      var problem := BuildOne(rng, cfg);
      if 1 <= problem.target <= cfg.maxTarget {
        return problem;
      }
    }
    p := BuildOne(rng, cfg);
  }

  /** `count` problems drawn one after another. */
  function Dataset(d: Stream, count: nat, cfg: Config, attempts: nat): (r: (seq<Problem>, nat))
    ensures |r.0| == count
    decreases count
  {
    if count == 0 then ([], 0)
    else
      var (ps, s) := Dataset(d, count - 1, cfg, attempts);
      var (p, s') := Generate(d, s, cfg, attempts);
      (ps + [p], s')
  }

  method GenerateDataset(seed: U64, count: nat, cfg: Config) returns (ps: seq<Problem>)
    ensures ps == Dataset(StreamOf(seed), count, cfg, MAX_GEN_ATTEMPTS).0
  {
    var rng := new SplitMix64(seed);
    ps := [];
    while |ps| < count
      invariant rng.Valid() && rng.seed == seed
      invariant |ps| <= count
      invariant (ps, rng.drawn) == Dataset(StreamOf(seed), |ps|, cfg, MAX_GEN_ATTEMPTS)
    {
      ghost var before, start := ps, rng.drawn;
      var p := GenerateProblem(rng, cfg);
      ps := ps + [p];
      DatasetStep(StreamOf(seed), |before|, cfg, MAX_GEN_ATTEMPTS, before, start, p, rng.drawn);
    }
  }

  lemma DatasetStep(d: Stream, n: nat, cfg: Config, attempts: nat, ps: seq<Problem>, s: nat, p: Problem, s': nat)
    requires (ps, s) == Dataset(d, n, cfg, attempts) && (p, s') == Generate(d, s, cfg, attempts)
    ensures (ps + [p], s') == Dataset(d, n + 1, cfg, attempts)
  {
  }

  // ---------------------------------------------------------------------------
  // Solvable by construction
  // ---------------------------------------------------------------------------

  /** `f op x` in the grammar, parenthesised so that it can be an operand again. */
  function Combine(op: Op, f: Factor, x: U32): Factor {
    Paren(match op
          case OpAdd => Plus2(One(Lone(f)), Lone(Literal(x)))
          case OpSub => Minus2(One(Lone(f)), Lone(Literal(x)))
          case OpMul => One(Times(Lone(f), Literal(x)))
          case OpDiv => One(Over(Lone(f), Literal(x))))
  }

  /** The expression the fold computes, starting from the expression `f` of the accumulator. */
  function FoldExpression(d: Stream, s: nat, f: Factor, acc: Acc, xs: seq<U32>): Factor
    decreases |xs|
  {
    if xs == [] then f
    else
      var (op, v, s') := FoldStep(d, s, acc, xs[0]);
      FoldExpression(d, s', Combine(op, f, xs[0]), v, xs[1..])
  }

  lemma IntegersAreCanonical(n: U32, acc: Acc)
    ensures Canonical(FromInt(n)) && Value(FromInt(n)) == n as real
    ensures Canonical(FromInt(acc)) && Value(FromInt(acc)) == acc as real
  {
    GcdWithOne(n);
    GcdWithOne(acc);
  }

  /** A canonical ratio with an integer value is that integer. */
  lemma IntegerValue(r: Option<Ratio>, v: Acc)
    requires r.Some? && Canonical(r.value) && Value(r.value) == v as real
    ensures r == Some(FromInt(v))
  {
    GcdWithOne(v);
    CanonicalFormsAreUnique(r.value, FromInt(v));
  }

  /** An operator that applies in the fold computes the same integer as exact rational arithmetic. */
  lemma TryOpIsExact(op: Op, acc: Acc, x: U32, v: Acc)
    requires TryOp(op, acc, x) == Some(v)
    ensures Apply(op, Some(FromInt(acc)), Some(FromInt(x))) == Some(FromInt(v))
  {
    match op
    case OpAdd => AddStep(acc, x);
    case OpSub => SubStep(acc, x);
    case OpMul => MulStep(acc, x);
    case OpDiv => DivStep(acc, x);
  }

  lemma AddStep(acc: Acc, x: U32)
    requires acc + x <= I64_MAX
    ensures Add(FromInt(acc), FromInt(x)) == Some(FromInt(acc + x))
  {
    IntegersAreCanonical(x, acc);
    AddIsExact(FromInt(acc), FromInt(x));
    IntegerValue(Add(FromInt(acc), FromInt(x)), acc + x);
  }

  lemma SubStep(acc: Acc, x: U32)
    requires acc - x > 0
    ensures Sub(FromInt(acc), FromInt(x)) == Some(FromInt(acc - x))
  {
    IntegersAreCanonical(x, acc);
    SubIsExact(FromInt(acc), FromInt(x));
    IntegerValue(Sub(FromInt(acc), FromInt(x)), acc - x);
  }

  lemma MulStep(acc: Acc, x: U32)
    requires 0 <= acc * x <= I64_MAX
    ensures Mul(FromInt(acc), FromInt(x)) == Some(FromInt(acc * x))
  {
    IntegersAreCanonical(x, acc);
    MulIsExact(FromInt(acc), FromInt(x));
    assert RealProduct(acc as real, x as real) == (acc * x) as real;
    IntegerValue(Mul(FromInt(acc), FromInt(x)), acc * x);
  }

  lemma DivStep(acc: Acc, x: U32)
    requires x != 0 && acc % x == 0
    ensures 0 <= acc / x <= acc
    ensures Div(FromInt(acc), FromInt(x)) == Some(FromInt(acc / x))
  {
    QuotientAtMost(acc, x);
    IntegersAreCanonical(x, acc);
    DivIsExact(FromInt(acc), FromInt(x));
    var q := acc / x;
    assert acc == x * q;
    ExactQuotient(acc, x, q);
    IntegerValue(Div(FromInt(acc), FromInt(x)), q);
  }

  lemma ExactQuotient(a: int, b: int, q: int)
    requires b != 0 && a == b * q
    ensures RealQuotient(a as real, b as real) == q as real
  {
    assert a as real == b as real * q as real;
  }

  lemma CombineEvaluates(op: Op, f: Factor, acc: Acc, x: U32, v: Acc)
    requires EvalFactor(f) == Some(FromInt(acc)) && TryOp(op, acc, x) == Some(v)
    ensures EvalFactor(Combine(op, f, x)) == Some(FromInt(v))
    ensures FactorLeaves(Combine(op, f, x)) == FactorLeaves(f) + [x]
  {
    TryOpIsExact(op, acc, x, v);
    var literal := Lone(Literal(x));
    assert EvalFactor(Literal(x)) == Some(FromInt(x)) && EvalTerm(literal) == Some(FromInt(x));
    assert FactorLeaves(Literal(x)) == [x] && TermLeaves(literal) == [x];
    assert EvalTerm(Lone(f)) == EvalFactor(f) && EvalExpr(One(Lone(f))) == EvalFactor(f);
    assert TermLeaves(Lone(f)) == FactorLeaves(f) && ExprLeaves(One(Lone(f))) == FactorLeaves(f);
    match op
    case OpAdd => assert EvalExpr(Plus2(One(Lone(f)), literal)) == Some(FromInt(v));
    case OpSub => assert EvalExpr(Minus2(One(Lone(f)), literal)) == Some(FromInt(v));
    case OpMul =>
      var t := Times(Lone(f), Literal(x));
      assert EvalTerm(t) == Some(FromInt(v)) && TermLeaves(t) == FactorLeaves(f) + [x];
      assert ExprLeaves(One(t)) == TermLeaves(t);
    case OpDiv =>
      var t := Over(Lone(f), Literal(x));
      assert EvalTerm(t) == Some(FromInt(v)) && TermLeaves(t) == FactorLeaves(f) + [x];
      assert ExprLeaves(One(t)) == TermLeaves(t);
  }

  lemma {:induction false} FoldExpressionEvaluates(d: Stream, s: nat, f: Factor, acc: Acc, xs: seq<U32>)
    requires EvalFactor(f) == Some(FromInt(acc))
    ensures var g := FoldExpression(d, s, f, acc, xs);
            && EvalFactor(g) == Some(FromInt(Fold(d, s, acc, xs).0))
            && FactorLeaves(g) == FactorLeaves(f) + xs
    decreases |xs|
  {
    if xs != [] {
      var (op, v, s') := FoldStep(d, s, acc, xs[0]);
      var f' := Combine(op, f, xs[0]);
      FoldStepApplies(d, s, acc, xs[0]);
      CombineEvaluates(op, f, acc, xs[0], v);
      FoldExpressionEvaluates(d, s', f', v, xs[1..]);
      assert xs == [xs[0]] + xs[1..];
    }
  }

  /** The text the generator has in mind for the problem built from `s`. */
  function Solution(d: Stream, s: nat, cfg: Config): Expr {
    var (numbers, s1) := DrawNumbers(d, s, Count(cfg), cfg.minNumber, cfg.maxNumber);
    var (order, s2) := ShuffleFrom(d, s1, numbers, |numbers|);
    One(Lone(FoldExpression(d, s2, Literal(order[0]), order[0], order[1..])))
  }

  lemma SolutionSolves(d: Stream, s: nat, cfg: Config)
    ensures Check(Build(d, s, cfg).0, Show(ExprTokens(Solution(d, s, cfg))))
  {
    var (numbers, s1) := DrawNumbers(d, s, Count(cfg), cfg.minNumber, cfg.maxNumber);
    var (order, s2) := ShuffleFrom(d, s1, numbers, |numbers|);
    ShufflePermutes(d, s1, numbers, |numbers|);
    FoldExpressionEvaluates(d, s2, Literal(order[0]), order[0], order[1..]);
    assert order == [order[0]] + order[1..];
    LegalIsMultisetEquality(order, numbers);
    PrintedTreesEvaluate(Solution(d, s, cfg));
  }

  /** The state from which `Generate` builds the problem it returns. */
  function Accepted(d: Stream, s: nat, cfg: Config, attempts: nat): (t: nat)
    ensures Build(d, t, cfg) == Generate(d, s, cfg, attempts)
    decreases attempts
  {
    var (p, s') := Build(d, s, cfg);
    if attempts == 0 || Preferred(p, cfg) then s else Accepted(d, s', cfg, attempts - 1)
  }

  /** Each entry of a data set is generated from some state of the stream. */
  lemma {:induction false} EntryIsGenerated(d: Stream, count: nat, cfg: Config, attempts: nat, i: nat)
    returns (s: nat)
    requires i < count
    ensures Dataset(d, count, cfg, attempts).0[i] == Generate(d, s, cfg, attempts).0
    decreases count
  {
    if i == count - 1 {
      s := Dataset(d, count - 1, cfg, attempts).1;
    } else {
      s := EntryIsGenerated(d, count - 1, cfg, attempts, i);
      assert Dataset(d, count, cfg, attempts).0[i] == Dataset(d, count - 1, cfg, attempts).0[i];
    }
  }

  /** Every problem of every data set, whatever the random stream, has a text the checker accepts. */
  lemma GeneratedProblemsAreSolvable(d: Stream, count: nat, cfg: Config, attempts: nat, i: nat)
    requires i < count
    ensures exists text :: Check(Dataset(d, count, cfg, attempts).0[i], text)
  {
    var s := EntryIsGenerated(d, count, cfg, attempts, i);
    SolutionSolves(d, Accepted(d, s, cfg, attempts), cfg);
  }

  /** Each problem has the configured number of numbers, all in the configured range. */
  lemma ProblemShape(d: Stream, s: nat, cfg: Config)
    ensures var p := Build(d, s, cfg).0;
            && |p.numbers| == Max(1, cfg.numCount)
            && forall i :: 0 <= i < |p.numbers| ==>
                 Min(cfg.minNumber, cfg.maxNumber) <= p.numbers[i] <= Max(cfg.minNumber, cfg.maxNumber)
  {
    var (numbers, s1) := DrawNumbers(d, s, Count(cfg), cfg.minNumber, cfg.maxNumber);
    assert Build(d, s, cfg).0.numbers == numbers;
  }

  /** The result is within the preferred bound exactly unless every build up to the last missed it. */
  lemma {:induction false} PreferredUnlessAllMissed(d: Stream, s: nat, cfg: Config, attempts: nat)
    ensures 1 <= Generate(d, s, cfg, attempts).0.target <= cfg.maxTarget <==> !AllMiss(d, s, cfg, attempts + 1)
    decreases attempts
  {
    var (p, s') := Build(d, s, cfg);
    if attempts == 0 {
      assert AllMiss(d, s', cfg, 0);
    } else if !Preferred(p, cfg) {
      PreferredUnlessAllMissed(d, s', cfg, attempts - 1);
    }
  }

  predicate AllMiss(d: Stream, s: nat, cfg: Config, attempts: nat)
    decreases attempts
  {
    attempts == 0 || (var (p, s') := Build(d, s, cfg); !Preferred(p, cfg) && AllMiss(d, s', cfg, attempts - 1))
  }

  // Positivity of targets: documented without condition, true exactly when neither bound is zero.

  lemma TryOpKeepsPositive(op: Op, acc: Acc, x: U32)
    requires acc > 0 && x > 0 && TryOp(op, acc, x).Some?
    ensures TryOp(op, acc, x).value > 0
  {
    MulPositive(acc, x);
    if op == OpDiv {
      assert acc == x * (acc / x);
      MulPositive(x, acc / x);
    }
  }

  lemma TryOpOnZeros(op: Op)
    requires TryOp(op, 0, 0).Some?
    ensures TryOp(op, 0, 0) == Some(0)
  {
  }

  lemma {:induction false} FoldStaysPositive(d: Stream, s: nat, acc: Acc, xs: seq<U32>)
    requires acc > 0 && forall i :: 0 <= i < |xs| ==> xs[i] > 0
    ensures Fold(d, s, acc, xs).0 > 0
    decreases |xs|
  {
    if xs != [] {
      var (op, v, s') := FoldStep(d, s, acc, xs[0]);
      FoldStepApplies(d, s, acc, xs[0]);
      TryOpKeepsPositive(op, acc, xs[0]);
      FoldStaysPositive(d, s', v, xs[1..]);
    }
  }

  lemma TargetsArePositiveWithoutZero(d: Stream, s: nat, cfg: Config)
    requires cfg.minNumber > 0 && cfg.maxNumber > 0
    ensures Build(d, s, cfg).0.target > 0
  {
    var (numbers, s1) := DrawNumbers(d, s, Count(cfg), cfg.minNumber, cfg.maxNumber);
    var (order, s2) := ShuffleFrom(d, s1, numbers, |numbers|);
    ShufflePermutes(d, s1, numbers, |numbers|);
    forall i | 0 <= i < |order|
      ensures order[i] > 0
    {
      assert order[i] in multiset(order);
      assert order[i] in numbers;
    }
    FoldStaysPositive(d, s2, order[0], order[1..]);
  }

  lemma FoldOfZeros(d: Stream, s: nat, xs: seq<U32>)
    requires forall i :: 0 <= i < |xs| ==> xs[i] == 0
    ensures Fold(d, s, 0, xs).0 == 0
    decreases |xs|
  {
    if xs != [] {
      var (op, v, s') := FoldStep(d, s, 0, xs[0]);
      FoldStepApplies(d, s, 0, xs[0]);
      TryOpOnZeros(op);
      FoldOfZeros(d, s', xs[1..]);
    }
  }

  /** A problem whose numbers are all zero has target zero. */
  lemma ZerosBuildZero(d: Stream, s: nat, cfg: Config)
    requires forall x :: x in DrawNumbers(d, s, Count(cfg), cfg.minNumber, cfg.maxNumber).0 ==> x == 0
    ensures Build(d, s, cfg).0.target == 0
  {
    var (numbers, s1) := DrawNumbers(d, s, Count(cfg), cfg.minNumber, cfg.maxNumber);
    var (order, s2) := ShuffleFrom(d, s1, numbers, |numbers|);
    ShufflePermutes(d, s1, numbers, |numbers|);
    forall i | 0 <= i < |order|
      ensures order[i] == 0
    {
      assert order[i] in multiset(order);
      assert order[i] in numbers;
    }
    FoldOfZeros(d, s2, order[1..]);
  }

  /** With only zeros to draw, the target is zero for every stream. */
  lemma TargetsCanBeZero(d: Stream, s: nat, cfg: Config)
    requires cfg.minNumber == 0 && cfg.maxNumber == 0
    ensures Build(d, s, cfg).0.target == 0
  {
    ZerosBuildZero(d, s, cfg);
  }

  /** The stream whose every draw is zero: it scales to the smaller bound each time. */
  function Zeros(): Stream {
    (n: nat) => 0
  }

  lemma ScaleOfZero(a: U32, b: U32)
    ensures Scale(0, a, b) == Min(a, b)
  {
    SmallModulo(0, Max(a, b) - Min(a, b) + 1);
  }

  lemma SmallModulo(x: nat, n: nat)
    requires x < n
    ensures x % n == x
  {
  }

  lemma {:induction false} ZerosDrawTheLeast(d: Stream, s: nat, count: nat, a: U32, b: U32)
    requires forall n :: d(n) == 0
    ensures forall x :: x in DrawNumbers(d, s, count, a, b).0 ==> x == Min(a, b)
    decreases count
  {
    if count > 0 {
      ZerosDrawTheLeast(d, s, count - 1, a, b);
      var (numbers, s') := DrawNumbers(d, s, count - 1, a, b);
      ScaleOfZero(a, b);
      assert DrawNumbers(d, s, count, a, b).0 == numbers + [Min(a, b)];
    }
  }

  lemma {:induction false} ZerosGenerateZero(s: nat, cfg: Config, attempts: nat)
    requires cfg.minNumber == 0 || cfg.maxNumber == 0
    ensures Generate(Zeros(), s, cfg, attempts).0.target == 0
    decreases attempts
  {
    ZerosDrawTheLeast(Zeros(), s, Count(cfg), cfg.minNumber, cfg.maxNumber);
    ZerosBuildZero(Zeros(), s, cfg);
    var (p, s') := Build(Zeros(), s, cfg);
    if attempts > 0 && !Preferred(p, cfg) {
      ZerosGenerateZero(s', cfg, attempts - 1);
    }
  }

  /** The problem returned has a positive target on every stream exactly if neither bound is zero. */
  lemma PositiveTargetsExactly(s: nat, cfg: Config, attempts: nat)
    ensures (forall d: Stream :: Generate(d, s, cfg, attempts).0.target > 0)
            <==> cfg.minNumber > 0 && cfg.maxNumber > 0
  {
    if cfg.minNumber > 0 && cfg.maxNumber > 0 {
      forall d: Stream
        ensures Generate(d, s, cfg, attempts).0.target > 0
      {
        TargetsArePositiveWithoutZero(d, Accepted(d, s, cfg, attempts), cfg);
      }
    } else {
      ZerosGenerateZero(s, cfg, attempts);
    }
  }

  ghost predicate AlwaysPositive(count: nat, cfg: Config, attempts: nat) {
    forall d: Stream, i :: 0 <= i < count ==> Dataset(d, count, cfg, attempts).0[i].target > 0
  }

  /** So it is for whole data sets: positive throughout exactly if neither bound is zero. */
  lemma PositiveDatasetsExactly(count: nat, cfg: Config, attempts: nat)
    requires count > 0
    ensures AlwaysPositive(count, cfg, attempts) <==> cfg.minNumber > 0 && cfg.maxNumber > 0
  {
    if cfg.minNumber > 0 && cfg.maxNumber > 0 {
      forall d: Stream, i | 0 <= i < count
        ensures Dataset(d, count, cfg, attempts).0[i].target > 0
      {
        var s := EntryIsGenerated(d, count, cfg, attempts, i);
        TargetsArePositiveWithoutZero(d, Accepted(d, s, cfg, attempts), cfg);
      }
    } else {
      var s := EntryIsGenerated(Zeros(), count, cfg, attempts, 0);
      ZerosGenerateZero(s, cfg, attempts);
      assert Dataset(Zeros(), count, cfg, attempts).0[0].target == 0;
    }
  }

  // Positivity over real seeds, where the stream can be followed: one number a problem, none preferred.

  lemma MixOfZero()
    ensures Mix(0) == 0
  {
  }

  /** A problem of one number is one draw. */
  lemma OneDraw(d: Stream, s: nat, cfg: Config, n: U32)
    requires cfg.numCount <= 1 && n == Scale(d(s), cfg.minNumber, cfg.maxNumber)
    ensures Build(d, s, cfg) == (Problem([n], n), s + 1)
  {
    DrawStep(d, s, [], s, cfg.minNumber, cfg.maxNumber);
    assert [] + [n] == [n] && [n][1..] == [];
    assert DrawNumbers(d, s, Count(cfg), cfg.minNumber, cfg.maxNumber) == ([n], s + 1);
  }

  /** Without a preferred target every attempt but the last is lost. */
  lemma {:induction false} LastDrawDecides(d: Stream, s: nat, cfg: Config, attempts: nat)
    requires cfg.numCount <= 1 && cfg.maxTarget == 0
    ensures Generate(d, s, cfg, attempts).0.target == Scale(d(s + attempts), cfg.minNumber, cfg.maxNumber)
    decreases attempts
  {
    OneDraw(d, s, cfg, Scale(d(s), cfg.minNumber, cfg.maxNumber));
    if attempts > 0 {
      LastDrawDecides(d, s + 1, cfg, attempts - 1);
    }
  }

  /** The seed whose state is zero after `n` draws. */
  function SeedBack(n: nat): U64
    decreases n
  {
    if n == 0 then 0 else (SeedBack(n - 1) - GAMMA) % TWO_64
  }

  lemma Backwards(x: U64)
    ensures ((x - GAMMA) % TWO_64 + GAMMA) % TWO_64 == x
  {
    assert GAMMA < TWO_64;
    assert (x - GAMMA) % TWO_64 == if x >= GAMMA then x - GAMMA else x - GAMMA + TWO_64;
  }

  /** One draw from a seed leads to where the draws from the next state begin. */
  lemma {:induction false} StateShifts(seed: U64, n: nat)
    ensures StateAt(seed, n + 1) == StateAt((seed + GAMMA) % TWO_64, n)
    decreases n
  {
    if n > 0 {
      StateShifts(seed, n - 1);
    }
  }

  lemma {:induction false} SeedBackReachesZero(n: nat)
    ensures StateAt(SeedBack(n), n) == 0
    decreases n
  {
    if n > 0 {
      SeedBackReachesZero(n - 1);
      StateShifts(SeedBack(n), n - 1);
      Backwards(SeedBack(n - 1));
    }
  }

  lemma ZeroDraw(n: nat)
    ensures StreamOf(SeedBack(n + 1))(n) == 0
  {
    SeedBackReachesZero(n + 1);
    MixOfZero();
  }

  lemma PositiveOnStream(d: Stream, s: nat, cfg: Config, attempts: nat)
    requires cfg.minNumber > 0 && cfg.maxNumber > 0
    ensures Generate(d, s, cfg, attempts).0.target > 0
  {
    TargetsArePositiveWithoutZero(d, Accepted(d, s, cfg, attempts), cfg);
  }

  lemma ZeroOnStream(d: Stream, s: nat, cfg: Config, attempts: nat)
    requires cfg.numCount <= 1 && cfg.maxTarget == 0 && (cfg.minNumber == 0 || cfg.maxNumber == 0)
    requires d(s + attempts) == 0
    ensures Generate(d, s, cfg, attempts).0.target == 0
  {
    LastDrawDecides(d, s, cfg, attempts);
    ScaleOfZero(cfg.minNumber, cfg.maxNumber);
  }

  /** The problem generated after `s` draws has a positive target. */
  ghost predicate Positive(d: Stream, s: nat, cfg: Config, attempts: nat) {
    Generate(d, s, cfg, attempts).0.target > 0
  }

  lemma SomeSeedGivesZero(s: nat, cfg: Config, attempts: nat) returns (seed: U64)
    requires cfg.numCount <= 1 && cfg.maxTarget == 0 && (cfg.minNumber == 0 || cfg.maxNumber == 0)
    ensures !Positive(StreamOf(seed), s, cfg, attempts)
  {
    seed := SeedBack(s + attempts + 1);
    ZeroDraw(s + attempts);
    ZeroOnStream(StreamOf(seed), s, cfg, attempts);
  }

  /** For these configurations positivity over all seeds fails exactly as over all streams. */
  lemma PositiveSeedsExactly(s: nat, cfg: Config, attempts: nat)
    requires cfg.numCount <= 1 && cfg.maxTarget == 0
    ensures (forall seed: U64 :: Positive(StreamOf(seed), s, cfg, attempts))
            <==> cfg.minNumber > 0 && cfg.maxNumber > 0
  {
    if cfg.minNumber > 0 && cfg.maxNumber > 0 {
      forall seed: U64
        ensures Positive(StreamOf(seed), s, cfg, attempts)
      {
        PositiveOnStream(StreamOf(seed), s, cfg, attempts);
      }
    } else {
      var seed := SomeSeedGivesZero(s, cfg, attempts);
    }
  }
}
