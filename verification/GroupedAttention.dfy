/**
 What the dense decoder computes, written out once more from its definition: grouped-query attention over
 un-repeated key-value heads, rotary positions, residual connections and layers
 (`crates/ferrl/src/dense.rs`, `crates/ferrl/src/blocks.rs`, `repeat_kv`). Nothing here uses the masks,
 caches, repeated heads or per-layer functions of `CachedDecoding`; the lemmas join the two.
 */
module GroupedAttention {
  import opened Common
  import opened Attention
  import opened CachedDecoding

  // ---------------------------------------------------------------------------
  // Sharing key-value heads
  // ---------------------------------------------------------------------------

  lemma BlockIndex(j: nat, t: nat, groups: nat, n: nat)
    requires j < n && t < groups
    ensures j * groups + t < n * groups && (j * groups + t) / groups == j
  {
    assert (n - j) * groups >= groups by {
      AtLeastOnce(n - j, groups);
    }
    assert n * groups == j * groups + (n - j) * groups;
    DivideBlock(j, t, groups);
  }

  lemma AtLeastOnce(k: nat, g: nat)
    requires k >= 1
    ensures k * g >= g
  {
  }

  lemma DivideBlock(j: nat, t: nat, g: nat)
    requires t < g
    ensures (j * g + t) / g == j
  {
    var q, r := (j * g + t) / g, (j * g + t) % g;
    assert q * g + r == j * g + t;
    assert (q - j) * g == t - r && (j - q) * g == r - t;
    if q < j {
      AtLeastOnce(j - q, g);
      assert false;
    } else if q > j {
      AtLeastOnce(q - j, g);
      assert false;
    }
  }

  /** Each key-value head serves one block of consecutive query heads. */
  lemma RepeatedInBlocks(heads: seq<Head>, groups: nat, j: nat, t: nat)
    requires j < |heads| && t < groups
    ensures |RepeatKv(heads, groups)| == |heads| * groups
    ensures j * groups + t < |heads| * groups && RepeatKv(heads, groups)[j * groups + t] == heads[j]
  {
    BlockIndex(j, t, groups, |heads|);
  }

  // ---------------------------------------------------------------------------
  // The reference
  // ---------------------------------------------------------------------------

  /** The key of key-value head `j` at position `p`, normed and rotated by its own position. */
  function KeyAt(m: Model, layer: Layer, x: Vec, p: nat, j: nat): Head {
    m.rotate(p, layer.kNorm(layer.k(layer.ln1(x), j)))
  }

  /** What query head `h` of position `i` gets from key-value head `j` of itself and the earlier positions. */
  function HeadOutput(m: Model, layer: Layer, xs: seq<Vec>, i: nat, h: nat, j: nat): Head
    requires i < |xs|
  {
    Attend(m.num, m.rotate(i, layer.qNorm(layer.q(layer.ln1(xs[i]), h))),
           seq(i + 1, p requires 0 <= p < i + 1 => KeyAt(m, layer, xs[p], p, j)),
           seq(i + 1, p requires 0 <= p < i + 1 => layer.v(layer.ln1(xs[p]), j)), None)
  }

  /** All query heads of position `i`; each group of consecutive ones shares a key-value head. */
  function AllHeads(m: Model, layer: Layer, xs: seq<Vec>, i: nat): seq<Head>
    requires i < |xs|
  {
    seq(m.kvHeads * m.groups, h requires 0 <= h < m.kvHeads * m.groups =>
      HeadOutput(m, layer, xs, i, h, Shared(h, m.groups, m.kvHeads)))
  }

  /** Position `i` after the layer: attention and MLP, each added to what went in. */
  function LayerAt(m: Model, layer: Layer, xs: seq<Vec>, i: nat): Vec
    requires i < |xs|
  {
    var y := m.add(xs[i], layer.out(AllHeads(m, layer, xs, i)));
    m.add(y, layer.mlp(layer.ln2(y)))
  }

  /** The hidden states of the first `n` layers. */
  function States(m: Model, ids: seq<Token>, n: nat): (h: seq<Vec>)
    requires n <= |m.layers|
    ensures |h| == |ids|
  {
    if n == 0 then seq(|ids|, i requires 0 <= i < |ids| => m.embed(ids[i]))
    else
      var xs := States(m, ids, n - 1);
      seq(|ids|, i requires 0 <= i < |ids| => LayerAt(m, m.layers[n - 1], xs, i))
  }

  /** The logits of every position. */
  function LogitsOf(m: Model, ids: seq<Token>): seq<Logits> {
    seq(|ids|, i requires 0 <= i < |ids| => m.head(m.norm(States(m, ids, |m.layers|)[i])))
  }

  // ---------------------------------------------------------------------------
  // The model computes the reference
  // ---------------------------------------------------------------------------

  /** Query head `j * groups + t` attends to the keys and values of head `j`. */
  lemma QueryHeadUsesItsGroup(m: Model, layer: Layer, xs: seq<Vec>, i: nat, j: nat, t: nat)
    requires i < |xs| && j < m.kvHeads && t < m.groups
    ensures j * m.groups + t < Heads(m)
    ensures var entries, h := Entries(m, layer, xs[..i + 1], 0), j * m.groups + t;
            && KeysOf(m, entries, h) == seq(i + 1, p requires 0 <= p < i + 1 => KeyAt(m, layer, xs[p], p, j))
            && ValsOf(m, entries, h) == seq(i + 1, p requires 0 <= p < i + 1 => layer.v(layer.ln1(xs[p]), j))
  {
    var entries, h := Entries(m, layer, xs[..i + 1], 0), j * m.groups + t;
    BlockIndex(j, t, m.groups, m.kvHeads);
    forall p | 0 <= p < i + 1
      ensures KeysOf(m, entries, h)[p] == KeyAt(m, layer, xs[p], p, j)
      ensures ValsOf(m, entries, h)[p] == layer.v(layer.ln1(xs[p]), j)
    {
      RepeatedInBlocks(entries[p].k, m.groups, j, t);
      RepeatedInBlocks(entries[p].v, m.groups, j, t);
    }
  }

  /** In the reference, the `t`-th query head of group `j` attends with key-value head `j`. */
  lemma ReferenceByGroup(m: Model, layer: Layer, xs: seq<Vec>, i: nat, j: nat, t: nat)
    requires i < |xs| && j < m.kvHeads && t < m.groups
    ensures j * m.groups + t < m.kvHeads * m.groups
    ensures AllHeads(m, layer, xs, i)[j * m.groups + t] == HeadOutput(m, layer, xs, i, j * m.groups + t, j)
  {
    BlockIndex(j, t, m.groups, m.kvHeads);
  }

  /** Every query head is one of a group. */
  lemma HeadOfGroup(h: nat, groups: nat, n: nat) returns (j: nat, t: nat)
    requires h < n * groups
    ensures h == j * groups + t && j < n && t < groups && Shared(h, groups, n) == j
  {
    j, t := h / groups, h % groups;
  }

  lemma HeadIsReference(m: Model, layer: Layer, xs: seq<Vec>, i: nat, h: nat)
    requires i < |xs| && h < Heads(m) && Heads(m) == m.kvHeads * m.groups
    ensures var entries := Entries(m, layer, xs[..i + 1], 0);
            Attend(m.num, Query(m, layer, xs[i], i, h), KeysOf(m, entries, h), ValsOf(m, entries, h), None)
              == HeadOutput(m, layer, xs, i, h, Shared(h, m.groups, m.kvHeads))
  {
    var j, t := HeadOfGroup(h, m.groups, m.kvHeads);
    QueryHeadUsesItsGroup(m, layer, xs, i, j, t);
  }

  lemma LayerIsReference(m: Model, layer: Layer, xs: seq<Vec>, i: nat)
    requires i < |xs|
    ensures CausalAt(m, layer, xs, i) == LayerAt(m, layer, xs, i)
  {
    assert m.kvHeads * m.groups == Heads(m);
    var entries := Entries(m, layer, xs[..i + 1], 0);
    var listed := seq(Heads(m), h requires 0 <= h < Heads(m) =>
      Attend(m.num, Query(m, layer, xs[i], i, h), KeysOf(m, entries, h), ValsOf(m, entries, h), None));
    forall h | 0 <= h < Heads(m)
      ensures listed[h] == AllHeads(m, layer, xs, i)[h]
    {
      HeadIsReference(m, layer, xs, i, h);
    }
    assert listed == AllHeads(m, layer, xs, i);
  }

  lemma {:induction false} IdealIsReference(m: Model, ids: seq<Token>, n: nat)
    requires n <= |m.layers|
    ensures Ideal(m, ids, n) == States(m, ids, n)
  {
    if n > 0 {
      IdealIsReference(m, ids, n - 1);
      forall i | 0 <= i < |ids|
        ensures Ideal(m, ids, n)[i] == States(m, ids, n)[i]
      {
        LayerIsReference(m, m.layers[n - 1], States(m, ids, n - 1), i);
      }
    }
  }

  /** The uncached forward, with its masks and repeated heads, computes the reference logits. */
  lemma UncachedIsReference(m: Model, ids: seq<Token>)
    ensures Uncached(m, ids, None).Ok? <==> KnownTokens(m, ids) && (|m.layers| == 0 || |ids| <= m.positions)
    ensures Uncached(m, ids, None).Ok? ==> Uncached(m, ids, None).value == LogitsOf(m, ids)
  {
    HiddenIsIdeal(m, ids, |m.layers|);
    IdealIsReference(m, ids, |m.layers|);
  }

  /** So does the cached decoder, chunk by chunk. */
  method ForwardIsReference(d: DenseCachedDecoder, ids: seq<Token>) returns (r: Result<seq<Logits>>)
    requires d.Valid()
    modifies d
    ensures d.Valid()
    ensures r.Ok? ==> r.value == LogitsOf(d.m, old(d.history) + ids)[|old(d.history)|..]
  {
    ghost var all := d.history + ids;
    var offset := d.Cached();
    r := d.Forward(ids, offset);
    UncachedIsReference(d.m, all);
  }
}
