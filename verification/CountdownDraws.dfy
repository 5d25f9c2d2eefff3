/**
 How the Countdown generator (`crates/ferrl/src/countdown.rs`) turns draws into problems, stated without its
 own functions: the output function bit by bit, the scaling of a draw, which operator is taken, what is folded
 in which order, and which of the attempted problems is returned.
 */
module CountdownDraws {
  import opened Common
  import opened Ratios
  import opened CountdownParser
  import opened Shuffles
  import opened CountdownGenerator

  // ---------------------------------------------------------------------------
  // The generator of numbers
  // ---------------------------------------------------------------------------

  predicate Bit(n: nat, i: nat) {
    if i == 0 then n % 2 == 1 else Bit(n / 2, i - 1)
  }

  lemma XorHalves(a: nat, b: nat)
    ensures Xor(a, b) / 2 == Xor(a / 2, b / 2)
    ensures Xor(a, b) % 2 == 1 <==> (a % 2 == 1) != (b % 2 == 1)
  {
  }

  /** Exclusive or, bit by bit. */
  lemma {:induction false} XorIsBitwise(a: nat, b: nat, i: nat)
    ensures Bit(Xor(a, b), i) <==> Bit(a, i) != Bit(b, i)
    decreases i
  {
    XorHalves(a, b);
    if i > 0 {
      XorIsBitwise(a / 2, b / 2, i - 1);
    }
  }

  lemma DivMod(z: nat, n: nat) returns (q: nat)
    requires n > 0
    ensures z == q * n + z % n
  {
    q := z / n;
  }

  /** A draw is scaled by taking whole ranges away. */
  lemma ScaleTakesTheRemainder(z: U64, a: U32, b: U32) returns (q: nat)
    ensures Min(a, b) <= Scale(z, a, b) <= Max(a, b)
    ensures z == q * (Max(a, b) - Min(a, b) + 1) + (Scale(z, a, b) - Min(a, b))
  {
    q := DivMod(z, Max(a, b) - Min(a, b) + 1);
  }

  // ---------------------------------------------------------------------------
  // Operators
  // ---------------------------------------------------------------------------

  /** `v` is the exact result, and one the generator may use. */
  predicate Gives(op: Op, acc: Acc, x: U32, v: Acc) {
    match op
    case OpAdd => v == acc + x
    case OpSub => v + x == acc && v > 0
    case OpMul => v == acc * x
    case OpDiv => x > 0 && v * x == acc
  }

  lemma ExactQuotient(acc: nat, x: nat, v: nat)
    requires x > 0
    ensures v * x == acc <==> acc % x == 0 && v == acc / x
  {
    assert acc == x * (acc / x) + acc % x;
    if v * x == acc {
      DivExact(acc, x, v);
    }
  }

  /** An operator applies exactly if its exact result is one the accumulator holds. */
  lemma TryOpExactly(op: Op, acc: Acc, x: U32, v: Acc)
    ensures TryOp(op, acc, x) == Some(v) <==> Gives(op, acc, x, v)
  {
    if op == OpDiv && x > 0 {
      ExactQuotient(acc, x, v);
    }
  }

  /** What the fold takes is the first operator that applies. */
  lemma {:induction false} FirstValidIsFirst(ops: seq<Op>, acc: Acc, x: U32) returns (i: nat)
    ensures i <= |ops| && forall j :: 0 <= j < i ==> TryOp(ops[j], acc, x).None?
    ensures FirstValid(ops, acc, x).Some? ==>
              i < |ops| && FirstValid(ops, acc, x).value.0 == ops[i] && TryOp(ops[i], acc, x).Some?
    ensures FirstValid(ops, acc, x).None? ==> i == |ops|
    decreases |ops|
  {
    i := 0;
    if ops != [] && TryOp(ops[0], acc, x).None? {
      var k := FirstValidIsFirst(ops[1..], acc, x);
      i := k + 1;
      forall j | 0 <= j < i
        ensures TryOp(ops[j], acc, x).None?
      {
        assert j > 0 ==> ops[j] == ops[1..][j - 1];
      }
    }
  }

  /** Of the operators in the order three draws give them, the step takes the first with a usable result. */
  lemma StepTakesTheFirst(d: Stream, s: nat, acc: Acc, x: U32, ops: seq<Op>) returns (i: nat)
    requires Arranged(ALL_OPS, 4, Drawn(d, s, 4), ops)
    ensures i < |ops| && FoldStep(d, s, acc, x).0 == ops[i] && Gives(ops[i], acc, x, FoldStep(d, s, acc, x).1)
    ensures forall j, v :: 0 <= j < i ==> !Gives(ops[j], acc, x, v)
    ensures FoldStep(d, s, acc, x).2 == s + 3
  {
    ShuffleArranges(d, s, ALL_OPS, 4);
    ArrangedAlike(ALL_OPS, 4, Drawn(d, s, 4), ops, ShuffleFrom(d, s, ALL_OPS, 4).0);
    SomeOperatorApplies(d, s, acc, x);
    i := FirstValidIsFirst(ops, acc, x);
    TryOpExactly(ops[i], acc, x, FoldStep(d, s, acc, x).1);
    forall j, v | 0 <= j < i
      ensures !Gives(ops[j], acc, x, v)
    {
      TryOpExactly(ops[j], acc, x, v);
    }
  }

  // ---------------------------------------------------------------------------
  // Problems
  // ---------------------------------------------------------------------------

  /** The fold works through the numbers from the left, three draws a number. */
  lemma {:induction false} FoldAppends(d: Stream, s: nat, acc: Acc, xs: seq<U32>, x: U32)
    ensures Fold(d, s, acc, xs).1 == s + 3 * |xs|
    ensures var r := FoldStep(d, s + 3 * |xs|, Fold(d, s, acc, xs).0, x);
            Fold(d, s, acc, xs + [x]) == (r.1, r.2)
    decreases |xs|
  {
    if xs == [] {
      assert [] + [x] == [x] && [x][1..] == [];
      assert Fold(d, s, acc, [x]) == Fold(d, FoldStep(d, s, acc, x).2, FoldStep(d, s, acc, x).1, []);
    } else {
      var (op, v, s') := FoldStep(d, s, acc, xs[0]);
      StepDraws(d, s, acc, xs[0]);
      FoldAppends(d, s', v, xs[1..], x);
      assert (xs + [x])[1..] == xs[1..] + [x];
    }
  }

  lemma StepDraws(d: Stream, s: nat, acc: Acc, x: U32)
    ensures FoldStep(d, s, acc, x).2 == s + 3
  {
    ShuffleArranges(d, s, ALL_OPS, 4);
  }

  /** The numbers are successive draws, in the order drawn. */
  lemma {:induction false} NumbersAreDraws(d: Stream, s: nat, count: nat, a: U32, b: U32)
    ensures DrawNumbers(d, s, count, a, b).1 == s + count
    ensures forall i :: 0 <= i < count ==> DrawNumbers(d, s, count, a, b).0[i] == Scale(d(s + i), a, b)
    decreases count
  {
    if count > 0 {
      NumbersAreDraws(d, s, count - 1, a, b);
    }
  }

  /** The parts of a build, one after the other. */
  lemma BuildInParts(d: Stream, s: nat, cfg: Config, n: nat, numbers: seq<U32>, s1: nat, order: seq<U32>, s2: nat)
    requires n == Count(cfg) == |numbers|
    requires (numbers, s1) == DrawNumbers(d, s, n, cfg.minNumber, cfg.maxNumber)
    requires (order, s2) == ShuffleFrom(d, s1, numbers, n)
    ensures |order| == n
    ensures Build(d, s, cfg).0.target == Fold(d, s2, order[0], order[1..]).0
    ensures Build(d, s, cfg).1 == Fold(d, s2, order[0], order[1..]).1
  {
  }

  lemma FoldDraws(d: Stream, s: nat, acc: Acc, xs: seq<U32>)
    ensures Fold(d, s, acc, xs).1 == s + 3 * |xs|
  {
    FoldAppends(d, s, acc, xs, 0);
  }

  lemma NumbersOfBuild(d: Stream, s: nat, cfg: Config, n: nat)
    requires n == Max(1, cfg.numCount)
    ensures n == Count(cfg) == |Build(d, s, cfg).0.numbers|
    ensures (Build(d, s, cfg).0.numbers, s + n) == DrawNumbers(d, s, n, cfg.minNumber, cfg.maxNumber)
  {
    NumbersAreDraws(d, s, n, cfg.minNumber, cfg.maxNumber);
  }

  lemma ShuffleIsArranged(d: Stream, s: nat, v: seq<U32>, n: nat, w: seq<U32>)
    requires 0 < n == |v| && Arranged(v, n, Drawn(d, s, n), w)
    ensures ShuffleFrom(d, s, v, n) == (w, s + n - 1)
  {
    ShuffleArranges(d, s, v, n);
    ArrangedAlike(v, n, Drawn(d, s, n), w, ShuffleFrom(d, s, v, n).0);
  }

  /** A problem holds the numbers in the order drawn. */
  lemma ProblemHoldsItsDraws(d: Stream, s: nat, cfg: Config)
    ensures var numbers := Build(d, s, cfg).0.numbers;
            && |numbers| == Max(1, cfg.numCount)
            && forall i :: 0 <= i < |numbers| ==> numbers[i] == Scale(d(s + i), cfg.minNumber, cfg.maxNumber)
  {
    NumbersAreDraws(d, s, Count(cfg), cfg.minNumber, cfg.maxNumber);
  }

  /**
   The target of a problem of `n` numbers is the fold of the order that the draws after the numbers arrange them
   in; five draws a number are used, but for the four the first number does without.
   */
  lemma TargetFromDraws(d: Stream, s: nat, cfg: Config, n: nat, s1: nat, order: seq<U32>, s2: nat)
    requires n == Max(1, cfg.numCount) && s1 == s + n && s2 == s1 + n - 1
    requires Arranged(Build(d, s, cfg).0.numbers, n, Drawn(d, s1, n), order)
    ensures |order| == n && Build(d, s, cfg).0.target == Fold(d, s2, order[0], order[1..]).0
    ensures Build(d, s, cfg).1 == s + 5 * n - 4
  {
    NumbersOfBuild(d, s, cfg, n);
    FoldsTheArrangement(d, s, cfg, n, Build(d, s, cfg).0.numbers, s1, order, s2);
  }

  lemma FoldsTheArrangement(d: Stream, s: nat, cfg: Config, n: nat, numbers: seq<U32>, s1: nat, order: seq<U32>,
                            s2: nat)
    requires n == Count(cfg) == |numbers| && s1 == s + n && s2 == s1 + n - 1
    requires (numbers, s1) == DrawNumbers(d, s, n, cfg.minNumber, cfg.maxNumber)
    requires Arranged(numbers, n, Drawn(d, s1, n), order)
    ensures |order| == n && Build(d, s, cfg).0.target == Fold(d, s2, order[0], order[1..]).0
    ensures Build(d, s, cfg).1 == s + 5 * n - 4
  {
    ShuffleIsArranged(d, s1, numbers, n, order);
    BuildInParts(d, s, cfg, n, numbers, s1, order, s2);
    FoldDraws(d, s2, order[0], order[1..]);
  }

  /** Where the build after `k` missed ones begins. */
  function AfterBuilds(d: Stream, s: nat, cfg: Config, k: nat): nat {
    s + k * (5 * Count(cfg) - 4)
  }

  lemma BuildDraws(d: Stream, s: nat, cfg: Config)
    ensures Build(d, s, cfg).1 == s + 5 * Count(cfg) - 4
  {
    var n, numbers := Count(cfg), Build(d, s, cfg).0.numbers;
    NumbersOfBuild(d, s, cfg, n);
    ShuffleArranges(d, s + n, numbers, n);
    FoldsTheArrangement(d, s, cfg, n, numbers, s + n, ShuffleFrom(d, s + n, numbers, n).0, s + 2 * n - 1);
  }

  /** The first of the attempted problems with a target from 1 to the preferred bound is returned, or else the last. */
  lemma {:induction false} FirstPreferredIsReturned(d: Stream, s: nat, cfg: Config, attempts: nat, k: nat)
    requires k <= attempts
    requires forall j :: 0 <= j < k ==> !(1 <= Build(d, AfterBuilds(d, s, cfg, j), cfg).0.target <= cfg.maxTarget)
    requires k == attempts || 1 <= Build(d, AfterBuilds(d, s, cfg, k), cfg).0.target <= cfg.maxTarget
    ensures Generate(d, s, cfg, attempts) == Build(d, AfterBuilds(d, s, cfg, k), cfg)
    decreases k
  {
    assert AfterBuilds(d, s, cfg, 0) == s;
    if k > 0 {
      BuildDraws(d, s, cfg);
      var s' := Build(d, s, cfg).1;
      forall j: nat
        ensures AfterBuilds(d, s', cfg, j) == AfterBuilds(d, s, cfg, j + 1)
      {
      }
      FirstPreferredIsReturned(d, s', cfg, attempts - 1, k - 1);
    }
  }
}
