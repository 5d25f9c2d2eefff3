/**
 Softmax attention over real numbers with an additive mask (`crates/ferrl/src/dense.rs`, the score and
 context steps; `crates/ferrl/src/blocks.rs`, `causal_mask_at`). A masked-out key gets weight zero, so
 attending under a causal mask row is attending to the visible prefix alone.
 */
module Attention {
  import opened Common

  /** One attention head's vector at one position. */
  type Head(==, !new)

  /** A score or mask entry: a number or minus infinity. */
  datatype Score = NegInf | Finite(v: real)

  /** The numeric operations attention is built from; none of them is interpreted. */
  datatype Numerics = Numerics(score: (Head, Head) -> real, exp: real -> real,
                               lane: (Head, nat) -> real, gather: seq<real> -> Head, lanes: nat)

  function Plus(a: Score, b: Score): Score {
    if a.Finite? && b.Finite? then Finite(a.v + b.v) else NegInf
  }

  function Max(a: Score, b: Score): Score {
    if a.NegInf? || (b.Finite? && a.v < b.v) then b else a
  }

  function Sum(s: seq<real>): real {
    if s == [] then 0.0 else Sum(s[..|s| - 1]) + s[|s| - 1]
  }

  function RowMax(s: seq<Score>): Score {
    if s == [] then NegInf else Max(RowMax(s[..|s| - 1]), s[|s| - 1])
  }

  /** The scaled scores of one query against all keys, plus its mask row if there is one. */
  function Scores(num: Numerics, q: Head, keys: seq<Head>, row: Option<seq<Score>>): seq<Score>
    requires row.Some? ==> |row.value| == |keys|
  {
    seq(|keys|, j requires 0 <= j < |keys| =>
      if row.None? then Finite(num.score(q, keys[j])) else Plus(Finite(num.score(q, keys[j])), row.value[j]))
  }

  /** The exponential of a score relative to the row's maximum; zero for minus infinity. */
  function Weight(num: Numerics, s: Score, max: Score): real {
    if s.NegInf? || max.NegInf? then 0.0 else num.exp(s.v - max.v)
  }

  function Weights(num: Numerics, s: seq<Score>): seq<real> {
    seq(|s|, j requires 0 <= j < |s| => Weight(num, s[j], RowMax(s)))
  }

  function Divide(a: real, b: real): real {
    if b == 0.0 then 0.0 else a / b
  }

  function Softmax(num: Numerics, s: seq<Score>): seq<real> {
    seq(|s|, j requires 0 <= j < |s| => Divide(Weights(num, s)[j], Sum(Weights(num, s))))
  }

  function Times(a: real, b: real): real {
    a * b
  }

  /** Component `t` of the weighted sum of the values. */
  function Blend(num: Numerics, probs: seq<real>, values: seq<Head>, t: nat): real
    requires |probs| == |values|
  {
    Sum(seq(|values|, j requires 0 <= j < |values| => Times(probs[j], num.lane(values[j], t))))
  }

  function Attend(num: Numerics, q: Head, keys: seq<Head>, values: seq<Head>, row: Option<seq<Score>>): Head
    requires |keys| == |values| && (row.Some? ==> |row.value| == |keys|)
  {
    var probs := Softmax(num, Scores(num, q, keys, row));
    num.gather(seq(num.lanes, t requires 0 <= t => Blend(num, probs, values, t)))
  }

  lemma {:induction false} SumTail(s: seq<real>, n: nat)
    requires n <= |s| && forall j :: n <= j < |s| ==> s[j] == 0.0
    ensures Sum(s) == Sum(s[..n])
    decreases |s|
  {
    if n < |s| {
      SumTail(s[..|s| - 1], n);
      assert s[..|s| - 1][..n] == s[..n];
    } else {
      assert s[..n] == s;
    }
  }

  lemma {:induction false} MaxTail(s: seq<Score>, n: nat)
    requires n <= |s| && forall j :: n <= j < |s| ==> s[j].NegInf?
    ensures RowMax(s) == RowMax(s[..n])
    decreases |s|
  {
    if n < |s| {
      MaxTail(s[..|s| - 1], n);
      assert s[..|s| - 1][..n] == s[..n];
    } else {
      assert s[..n] == s;
    }
  }

  /** Minus infinity at the end of a row changes nothing before it and has no weight itself. */
  lemma SoftmaxTail(num: Numerics, s: seq<Score>, n: nat)
    requires n <= |s| && forall j :: n <= j < |s| ==> s[j].NegInf?
    ensures Softmax(num, s)[..n] == Softmax(num, s[..n])
    ensures forall j :: n <= j < |s| ==> Softmax(num, s)[j] == 0.0
  {
    MaxTail(s, n);
    var w := Weights(num, s);
    assert w[..n] == Weights(num, s[..n]);
    SumTail(w, n);
  }

  /** A mask row that shows exactly the first `n` keys. */
  predicate ShowsPrefix(row: seq<Score>, n: nat) {
    n <= |row| && forall j :: 0 <= j < |row| ==> row[j] == if j < n then Finite(0.0) else NegInf
  }

  /** Attending under such a row is attending, without a mask, to the first `n` keys. */
  lemma MaskedIsPrefix(num: Numerics, q: Head, keys: seq<Head>, values: seq<Head>, row: seq<Score>, n: nat)
    requires |keys| == |values| == |row| && ShowsPrefix(row, n)
    ensures Attend(num, q, keys, values, Some(row)) == Attend(num, q, keys[..n], values[..n], None)
  {
    var s := Scores(num, q, keys, Some(row));
    var visible := Scores(num, q, keys[..n], None);
    forall j | 0 <= j < |s|
      ensures s[j] == if j < n then visible[j] else NegInf
    {
      var x := num.score(q, keys[j]);
      assert s[j] == Plus(Finite(x), row[j]);
      if j < n {
        assert row[j] == Finite(0.0);
        assert x + 0.0 == x;
        assert visible[j] == Finite(num.score(q, keys[..n][j]));
      } else {
        assert row[j] == NegInf;
      }
    }
    assert s[..n] == visible;
    SoftmaxTail(num, s, n);
    var p, shown := Softmax(num, s), Softmax(num, visible);
    forall t: nat
      ensures Blend(num, p, values, t) == Blend(num, shown, values[..n], t)
    {
      BlendTail(num, p, values, n, t);
    }
    assert seq(num.lanes, t requires 0 <= t => Blend(num, p, values, t))
        == seq(num.lanes, t requires 0 <= t => Blend(num, shown, values[..n], t));
  }

  lemma NothingTimes(x: real)
    ensures Times(0.0, x) == 0.0
  {
  }

  lemma BlendTail(num: Numerics, p: seq<real>, values: seq<Head>, n: nat, t: nat)
    requires |p| == |values| && n <= |p| && forall j :: n <= j < |p| ==> p[j] == 0.0
    ensures Blend(num, p, values, t) == Blend(num, p[..n], values[..n], t)
  {
    var terms := seq(|values|, j requires 0 <= j < |values| => Times(p[j], num.lane(values[j], t)));
    forall j | n <= j < |p|
      ensures terms[j] == 0.0
    {
      assert terms[j] == Times(p[j], num.lane(values[j], t));
      NothingTimes(num.lane(values[j], t));
    }
    SumTail(terms, n);
    assert terms[..n] == seq(n, j requires 0 <= j < n => Times(p[..n][j], num.lane(values[..n][j], t)));
  }

  // ---------------------------------------------------------------------------
  // What softmax means
  // ---------------------------------------------------------------------------

  lemma {:induction false} SumPositive(s: seq<real>, j: nat)
    requires j < |s| && s[j] > 0.0 && forall i :: 0 <= i < |s| ==> s[i] >= 0.0
    ensures Sum(s) > 0.0
    decreases |s|
  {
    SumNonNegative(s[..|s| - 1]);
    if j < |s| - 1 {
      SumPositive(s[..|s| - 1], j);
    }
  }

  lemma {:induction false} SumNonNegative(s: seq<real>)
    requires forall i :: 0 <= i < |s| ==> s[i] >= 0.0
    ensures Sum(s) >= 0.0
    decreases |s|
  {
    if s != [] {
      SumNonNegative(s[..|s| - 1]);
    }
  }

  lemma DivideAdd(a: real, b: real, d: real)
    requires d != 0.0
    ensures Divide(a, d) + Divide(b, d) == Divide(a + b, d)
  {
  }

  lemma {:induction false} SumDivided(s: seq<real>, t: seq<real>, d: real)
    requires d != 0.0 && |s| == |t| && forall i :: 0 <= i < |s| ==> t[i] == Divide(s[i], d)
    ensures Sum(t) == Divide(Sum(s), d)
    decreases |s|
  {
    if s != [] {
      var n := |s| - 1;
      SumDivided(s[..n], t[..n], d);
      DivideAdd(Sum(s[..n]), s[n], d);
    }
  }

  lemma {:induction false} MaxIsFinite(s: seq<Score>, j: nat)
    requires j < |s| && s[j].Finite?
    ensures RowMax(s).Finite?
    decreases |s|
  {
    if j < |s| - 1 {
      MaxIsFinite(s[..|s| - 1], j);
    }
  }

  ghost predicate PositiveExp(num: Numerics) {
    forall x :: num.exp(x) > 0.0
  }

  lemma WeightsPositive(num: Numerics, s: seq<Score>, j: nat)
    requires PositiveExp(num) && j < |s| && s[j].Finite?
    ensures Sum(Weights(num, s)) > 0.0
  {
    MaxIsFinite(s, j);
    SumPositive(Weights(num, s), j);
  }

  lemma DivideSelf(d: real)
    requires d != 0.0
    ensures Divide(d, d) == 1.0
  {
  }

  /** The weights of a row that shows something add up to one. */
  lemma SoftmaxSumsToOne(num: Numerics, s: seq<Score>, j: nat)
    requires PositiveExp(num) && j < |s| && s[j].Finite?
    ensures Sum(Softmax(num, s)) == 1.0
  {
    var w := Weights(num, s);
    WeightsPositive(num, s, j);
    SumDivided(w, Softmax(num, s), Sum(w));
    DivideSelf(Sum(w));
  }

  /** The exponential turns sums into products. */
  ghost predicate Exponential(num: Numerics) {
    PositiveExp(num) && forall a, b :: num.exp(a + b) == Times(num.exp(a), num.exp(b))
  }

  lemma CrossScaled(x: real, y: real, a: real, b: real, d: real)
    requires d != 0.0 && Times(x, b) == Times(y, a)
    ensures Times(Divide(x, d), b) == Times(Divide(y, d), a)
  {
    assert x * b / d == y * a / d;
  }

  lemma TimesSwap(a: real, b: real, c: real)
    ensures Times(Times(a, c), b) == Times(Times(b, c), a)
  {
  }

  /** And they are in proportion to the exponentials of the scores, whatever maximum was taken off. */
  lemma SoftmaxIsExponential(num: Numerics, s: seq<Score>, i: nat, j: nat)
    requires Exponential(num) && i < |s| && j < |s| && s[i].Finite? && s[j].Finite?
    ensures Times(Softmax(num, s)[i], num.exp(s[j].v)) == Times(Softmax(num, s)[j], num.exp(s[i].v))
  {
    MaxIsFinite(s, j);
    var w, max := Weights(num, s), RowMax(s).v;
    WeightsPositive(num, s, j);
    var scale := num.exp(-max);
    assert s[i].v - max == s[i].v + (-max) && s[j].v - max == s[j].v + (-max);
    assert w[i] == Times(num.exp(s[i].v), scale) && w[j] == Times(num.exp(s[j].v), scale);
    TimesSwap(num.exp(s[i].v), num.exp(s[j].v), scale);
    CrossScaled(w[i], w[j], num.exp(s[i].v), num.exp(s[j].v), Sum(w));
  }

  // Attention as it is usually written down.

  /** The exponential of each score. */
  function Exps(num: Numerics, q: Head, keys: seq<Head>): seq<real> {
    seq(|keys|, j requires 0 <= j < |keys| => num.exp(num.score(q, keys[j])))
  }

  /** Component `t` of the values, each weighted with the exponential of its score. */
  function Weighted(num: Numerics, q: Head, keys: seq<Head>, values: seq<Head>, t: nat): seq<real>
    requires |keys| == |values|
  {
    seq(|keys|, j requires 0 <= j < |keys| => Times(num.exp(num.score(q, keys[j])), num.lane(values[j], t)))
  }

  lemma TimesAdd(a: real, b: real, c: real)
    ensures Times(a, c) + Times(b, c) == Times(a + b, c)
  {
  }

  lemma {:induction false} SumScaled(s: seq<real>, t: seq<real>, c: real)
    requires |s| == |t| && forall i :: 0 <= i < |s| ==> t[i] == Times(s[i], c)
    ensures Sum(t) == Times(Sum(s), c)
    decreases |s|
  {
    if s == [] {
      NothingTimes(c);
    } else {
      var n := |s| - 1;
      SumScaled(s[..n], t[..n], c);
      TimesAdd(Sum(s[..n]), s[n], c);
    }
  }

  lemma TimesRegroup(a: real, b: real, c: real)
    ensures Times(Times(a, b), c) == Times(a, Times(b, c)) == Times(Times(a, c), b)
  {
  }

  lemma NonZeroTimes(a: real, b: real)
    requires a != 0.0 && b != 0.0
    ensures Times(a, b) != 0.0
  {
  }

  lemma DivideOut(x: real, y: real, r: real)
    requires y != 0.0 && x == Times(r, y)
    ensures Divide(x, y) == r
  {
  }

  lemma ScaleCancels(a: real, b: real, c: real, x: real)
    requires b != 0.0 && c != 0.0
    ensures Times(Divide(Times(a, c), Times(b, c)), x) == Divide(Times(a, x), b)
  {
    var r := a / b;
    assert a == Times(r, b);
    NonZeroTimes(b, c);
    TimesRegroup(r, b, c);
    DivideOut(Times(a, c), Times(b, c), r);
    TimesRegroup(r, x, b);
    DivideOut(Times(a, x), b, Times(r, x));
  }

  /**
   Attention without a mask is the values' average, weighted with the exponentials of the scores. The maximum
   that is taken off every score for the sake of overflow cancels.
   */
  lemma AttendIsWeightedAverage(num: Numerics, q: Head, keys: seq<Head>, values: seq<Head>)
    requires Exponential(num) && |keys| == |values| > 0
    ensures Attend(num, q, keys, values, None) ==
              num.gather(seq(num.lanes, t requires 0 <= t =>
                Divide(Sum(Weighted(num, q, keys, values, t)), Sum(Exps(num, q, keys)))))
  {
    var probs := Softmax(num, Scores(num, q, keys, None));
    forall t: nat
      ensures Blend(num, probs, values, t) == Divide(Sum(Weighted(num, q, keys, values, t)), Sum(Exps(num, q, keys)))
    {
      BlendIsWeightedAverage(num, q, keys, values, t);
    }
    assert seq(num.lanes, t requires 0 <= t => Blend(num, probs, values, t))
        == seq(num.lanes, t requires 0 <= t =>
             Divide(Sum(Weighted(num, q, keys, values, t)), Sum(Exps(num, q, keys))));
  }

  lemma WeightOfFinite(num: Numerics, s: Score, max: real)
    requires Exponential(num) && s.Finite?
    ensures Weight(num, s, Finite(max)) == Times(num.exp(s.v), num.exp(-max))
  {
    assert s.v - max == s.v + (-max);
  }

  /** The weights are the exponentials up to one common positive factor. */
  lemma WeightsAreScaledExps(num: Numerics, q: Head, keys: seq<Head>) returns (scale: real)
    requires Exponential(num) && keys != []
    ensures scale > 0.0 && Sum(Exps(num, q, keys)) > 0.0
    ensures var w := Weights(num, Scores(num, q, keys, None));
            && |w| == |keys| && Sum(w) == Times(Sum(Exps(num, q, keys)), scale)
            && forall j :: 0 <= j < |w| ==> w[j] == Times(Exps(num, q, keys)[j], scale)
  {
    var s, e := Scores(num, q, keys, None), Exps(num, q, keys);
    assert s[0].Finite?;
    MaxIsFinite(s, 0);
    var max := RowMax(s).v;
    scale := num.exp(-max);
    forall j | 0 <= j < |s|
      ensures Weights(num, s)[j] == Times(e[j], scale)
    {
      WeightOfFinite(num, s[j], max);
    }
    SumScaled(e, Weights(num, s), scale);
    SumPositive(e, 0);
  }

  lemma BlendIsWeightedAverage(num: Numerics, q: Head, keys: seq<Head>, values: seq<Head>, t: nat)
    requires Exponential(num) && |keys| == |values| > 0
    ensures Blend(num, Softmax(num, Scores(num, q, keys, None)), values, t)
         == Divide(Sum(Weighted(num, q, keys, values, t)), Sum(Exps(num, q, keys)))
  {
    var p, e := Softmax(num, Scores(num, q, keys, None)), Exps(num, q, keys);
    var scale := WeightsAreScaledExps(num, q, keys);
    var terms := seq(|values|, j requires 0 <= j < |values| => Times(p[j], num.lane(values[j], t)));
    forall j | 0 <= j < |terms|
      ensures terms[j] == Divide(Weighted(num, q, keys, values, t)[j], Sum(e))
    {
      ScaleCancels(e[j], Sum(e), scale, num.lane(values[j], t));
    }
    SumDivided(Weighted(num, q, keys, values, t), terms, Sum(e));
  }

  // ---------------------------------------------------------------------------
  // The causal mask
  // ---------------------------------------------------------------------------

  function Cell(offset: nat, i: nat, j: nat): Score {
    if j <= i + offset then Finite(0.0) else NegInf
  }

  /** The mask of `chunk` queries at absolute positions from `offset` on against all keys so far. */
  function CausalMask(offset: nat, chunk: nat): seq<seq<Score>> {
    seq(chunk, i requires 0 <= i => seq(offset + chunk, j requires 0 <= j => Cell(offset, i, j)))
  }

  /** Query `i` of a chunk sees exactly the keys up to its own absolute position. */
  lemma RowShowsPrefix(offset: nat, chunk: nat, i: nat)
    requires i < chunk
    ensures ShowsPrefix(CausalMask(offset, chunk)[i], offset + i + 1)
  {
  }

  /** The row-major data of the mask, row by row. */
  function Flat(rows: seq<seq<Score>>): seq<Score> {
    if rows == [] then [] else Flat(rows[..|rows| - 1]) + rows[|rows| - 1]
  }

  /** Fill the mask cell by cell. */
  method FillMask(offset: nat, chunk: nat) returns (data: seq<Score>)
    ensures data == Flat(CausalMask(offset, chunk))
  {
    var total := offset + chunk;
    ghost var rows := CausalMask(offset, chunk);
    data := [];
    assert rows[..0] == [];
    for i := 0 to chunk
      invariant data == Flat(rows[..i])
    {
      ghost var before := data;
      for j := 0 to total
        invariant data == before + rows[i][..j]
      {
        data := data + [if j <= i + offset then Finite(0.0) else NegInf];
      }
      assert rows[i][..total] == rows[i];
      assert rows[..i + 1][..i] == rows[..i];
    }
    assert rows[..chunk] == rows;
  }

  /** Reading the flat data back with its shape gives the rows. */
  lemma {:induction false} FlatRow(rows: seq<seq<Score>>, width: nat, i: nat)
    requires i < |rows| && forall r :: 0 <= r < |rows| ==> |rows[r]| == width
    ensures 0 <= i * width <= i * width + width <= |Flat(rows)| == |rows| * width
    ensures Flat(rows)[i * width..i * width + width] == rows[i]
    decreases |rows|
  {
    var n := |rows| - 1;
    var init := rows[..n];
    assert Flat(rows) == Flat(init) + rows[n];
    FlatLength(init, width);
    assert (n + 1) * width == n * width + width;
    if i < n {
      FlatRow(init, width, i);
    }
  }

  lemma {:induction false} FlatLength(rows: seq<seq<Score>>, width: nat)
    requires forall r :: 0 <= r < |rows| ==> |rows[r]| == width
    ensures |Flat(rows)| == |rows| * width
    decreases |rows|
  {
    if rows != [] {
      FlatLength(rows[..|rows| - 1], width);
      assert |rows| * width == (|rows| - 1) * width + width;
    }
  }

  /** The mask tensor: the filled data read with the shape of `chunk` rows. */
  method CausalMaskAt(offset: nat, chunk: nat) returns (rows: seq<seq<Score>>)
    ensures rows == CausalMask(offset, chunk)
  {
    var data := FillMask(offset, chunk);
    var total := offset + chunk;
    rows := [];
    for i := 0 to chunk
      invariant rows == CausalMask(offset, chunk)[..i]
    {
      FlatRow(CausalMask(offset, chunk), total, i);
      rows := rows + [data[i * total..i * total + total]];
    }
  }
}
