/**
 The dense decoder, uncached and with a key-value cache per layer (`crates/ferrl/src/dense.rs`). Norms,
 projections, rotary embedding and the MLP are uninterpreted per-position functions; what is modelled
 is how positions, offsets, masks, caches and layers fit together. One batch row is one sequence.
 */
module CachedDecoding {
  import opened Common
  import opened Attention

  type Token = nat
  type Vec(==, !new)
  type Logits(==, !new)

  datatype Layer = Layer(
    ln1: Vec -> Vec,
    q: (Vec, nat) -> Head, k: (Vec, nat) -> Head, v: (Vec, nat) -> Head,
    qNorm: Head -> Head, kNorm: Head -> Head,
    out: seq<Head> -> Vec,
    ln2: Vec -> Vec, mlp: Vec -> Vec)

  datatype Model = Model(
    vocab: nat, embed: Token -> Vec,
    layers: seq<Layer>, kvHeads: nat, groups: nat,
    rotate: (nat, Head) -> Head, positions: nat,
    add: (Vec, Vec) -> Vec, norm: Vec -> Vec, head: Vec -> Logits,
    num: Numerics)

  datatype Failure =
    | BadToken
    | PastTable                             // the rotary tables end before the last position
    | WindowOutside
    | OffsetMismatch(offset: nat, cached: nat)

  datatype Result<+T> = Ok(value: T) | Err(error: Failure)

  /** Keys and values of one position, one per key-value head. */
  datatype Entry = Entry(k: seq<Head>, v: seq<Head>)

  // ---------------------------------------------------------------------------
  // One layer
  // ---------------------------------------------------------------------------

  /** Share each key-value head among its group of query heads. */
  function RepeatKv(heads: seq<Head>, groups: nat): seq<Head> {
    if groups == 1 then heads
    else seq(|heads| * groups, h requires 0 <= h < |heads| * groups => heads[Shared(h, groups, |heads|)])
  }

  function Shared(h: nat, groups: nat, n: nat): (r: nat)
    requires h < n * groups
    ensures r < n
  {
    h / groups
  }

  function Keys(m: Model, layer: Layer, x: Vec, pos: nat): seq<Head> {
    seq(m.kvHeads, h requires 0 <= h => m.rotate(pos, layer.kNorm(layer.k(layer.ln1(x), h))))
  }

  function Vals(m: Model, layer: Layer, x: Vec): seq<Head> {
    seq(m.kvHeads, h requires 0 <= h => layer.v(layer.ln1(x), h))
  }

  function Query(m: Model, layer: Layer, x: Vec, pos: nat, h: nat): Head {
    m.rotate(pos, layer.qNorm(layer.q(layer.ln1(x), h)))
  }

  /** The cache entries of consecutive positions. */
  function Entries(m: Model, layer: Layer, xs: seq<Vec>, offset: nat): seq<Entry> {
    seq(|xs|, i requires 0 <= i < |xs| => Entry(Keys(m, layer, xs[i], offset + i), Vals(m, layer, xs[i])))
  }

  function Heads(m: Model): nat {
    if m.groups == 1 then m.kvHeads else m.kvHeads * m.groups
  }

  predicate Fits(e: Entry, m: Model) {
    |e.k| == m.kvHeads && |e.v| == m.kvHeads
  }

  predicate AllFit(entries: seq<Entry>, m: Model) {
    forall j :: 0 <= j < |entries| ==> Fits(entries[j], m)
  }

  function KeysOf(m: Model, entries: seq<Entry>, h: nat): seq<Head>
    requires AllFit(entries, m) && h < Heads(m)
  {
    seq(|entries|, j requires 0 <= j < |entries| => RepeatKv(entries[j].k, m.groups)[h])
  }

  function ValsOf(m: Model, entries: seq<Entry>, h: nat): seq<Head>
    requires AllFit(entries, m) && h < Heads(m)
  {
    seq(|entries|, j requires 0 <= j < |entries| => RepeatKv(entries[j].v, m.groups)[h])
  }

  /** The attention output of the query at `pos` over all given entries. */
  function AttendAt(m: Model, layer: Layer, x: Vec, pos: nat, entries: seq<Entry>, row: Option<seq<Score>>): Vec
    requires AllFit(entries, m) && (row.Some? ==> |row.value| == |entries|)
  {
    layer.out(seq(Heads(m), h requires 0 <= h < Heads(m) =>
      Attend(m.num, Query(m, layer, x, pos, h), KeysOf(m, entries, h), ValsOf(m, entries, h), row)))
  }

  /** Residual connections around attention and MLP. */
  function Finish(m: Model, layer: Layer, x: Vec, attended: Vec): Vec {
    var y := m.add(x, attended);
    m.add(y, layer.mlp(layer.ln2(y)))
  }

  /** What position `i` of a layer should compute: attend, unmasked, to positions up to itself. */
  function CausalAt(m: Model, layer: Layer, xs: seq<Vec>, i: nat): Vec
    requires i < |xs|
  {
    Finish(m, layer, xs[i], AttendAt(m, layer, xs[i], i, Entries(m, layer, xs[..i + 1], 0), None))
  }

  function Causal(m: Model, layer: Layer, xs: seq<Vec>): seq<Vec> {
    seq(|xs|, i requires 0 <= i < |xs| => CausalAt(m, layer, xs, i))
  }

  /** No mask for a single position, a causal mask otherwise. */
  function MaskFor(offset: nat, l: nat): Option<seq<seq<Score>>> {
    if l == 1 then None else Some(CausalMask(offset, l))
  }

  predicate MaskFits(mask: Option<seq<seq<Score>>>, l: nat, total: nat) {
    mask.Some? ==> |mask.value| == l && forall i :: 0 <= i < l ==> |mask.value[i]| == total
  }

  function RowOf(mask: Option<seq<seq<Score>>>, i: nat): Option<seq<Score>>
    requires mask.Some? ==> i < |mask.value|
  {
    if mask.Some? then Some(mask.value[i]) else None
  }

  /** The uncached layer over a whole sequence. */
  function UncachedLayer(m: Model, layer: Layer, xs: seq<Vec>, mask: Option<seq<seq<Score>>>): seq<Vec>
    requires MaskFits(mask, |xs|, |xs|)
  {
    var entries := Entries(m, layer, xs, 0);
    seq(|xs|, i requires 0 <= i < |xs| => Finish(m, layer, xs[i],
                                                 AttendAt(m, layer, xs[i], i, entries, RowOf(mask, i))))
  }

  /** The cached layer over a chunk, attending to the cache with the chunk appended. */
  function CachedLayer(m: Model, layer: Layer, xs: seq<Vec>, offset: nat, cache: seq<Entry>,
                       mask: Option<seq<seq<Score>>>): seq<Vec>
    requires AllFit(cache, m) && MaskFits(mask, |xs|, |cache| + |xs|)
  {
    var entries := cache + Entries(m, layer, xs, offset);
    seq(|xs|, i requires 0 <= i < |xs| => Finish(m, layer, xs[i],
                                                 AttendAt(m, layer, xs[i], offset + i, entries, RowOf(mask, i))))
  }

  /** Under a row showing `n` keys the attention output only depends on the first `n` entries. */
  lemma AttendPrefix(m: Model, layer: Layer, x: Vec, pos: nat, entries: seq<Entry>, row: seq<Score>, n: nat)
    requires AllFit(entries, m) && |row| == |entries| && ShowsPrefix(row, n)
    ensures AttendAt(m, layer, x, pos, entries, Some(row)) == AttendAt(m, layer, x, pos, entries[..n], None)
  {
    forall h | 0 <= h < Heads(m)
      ensures Attend(m.num, Query(m, layer, x, pos, h), KeysOf(m, entries, h), ValsOf(m, entries, h), Some(row))
           == Attend(m.num, Query(m, layer, x, pos, h), KeysOf(m, entries[..n], h), ValsOf(m, entries[..n], h), None)
    {
      MaskedIsPrefix(m.num, Query(m, layer, x, pos, h), KeysOf(m, entries, h), ValsOf(m, entries, h), row, n);
      assert KeysOf(m, entries, h)[..n] == KeysOf(m, entries[..n], h);
      assert ValsOf(m, entries, h)[..n] == ValsOf(m, entries[..n], h);
    }
    assert seq(Heads(m), h requires 0 <= h < Heads(m) =>
             Attend(m.num, Query(m, layer, x, pos, h), KeysOf(m, entries, h), ValsOf(m, entries, h), Some(row)))
        == seq(Heads(m), h requires 0 <= h < Heads(m) =>
             Attend(m.num, Query(m, layer, x, pos, h), KeysOf(m, entries[..n], h), ValsOf(m, entries[..n], h), None));
  }

  /** A chunk row, masked or the maskless single position, sees exactly the positions up to its own. */
  lemma RowIsCausal(m: Model, layer: Layer, x: Vec, offset: nat, l: nat, i: nat, entries: seq<Entry>)
    requires i < l && |entries| == offset + l && AllFit(entries, m)
    ensures MaskFits(MaskFor(offset, l), l, offset + l)
    ensures AttendAt(m, layer, x, offset + i, entries, RowOf(MaskFor(offset, l), i))
         == AttendAt(m, layer, x, offset + i, entries[..offset + i + 1], None)
  {
    if l == 1 {
      assert entries[..offset + i + 1] == entries;
    } else {
      RowShowsPrefix(offset, l, i);
      AttendPrefix(m, layer, x, offset + i, entries, CausalMask(offset, l)[i], offset + i + 1);
    }
  }

  lemma EntriesPrefix(m: Model, layer: Layer, xs: seq<Vec>, n: nat)
    requires n <= |xs|
    ensures Entries(m, layer, xs, 0)[..n] == Entries(m, layer, xs[..n], 0)
    ensures Entries(m, layer, xs[..n], 0) + Entries(m, layer, xs[n..], n) == Entries(m, layer, xs, 0)
  {
  }

  lemma UncachedLayerIsCausal(m: Model, layer: Layer, xs: seq<Vec>)
    ensures MaskFits(MaskFor(0, |xs|), |xs|, |xs|)
    ensures UncachedLayer(m, layer, xs, MaskFor(0, |xs|)) == Causal(m, layer, xs)
  {
    forall i | 0 <= i < |xs|
      ensures UncachedLayer(m, layer, xs, MaskFor(0, |xs|))[i] == CausalAt(m, layer, xs, i)
    {
      RowIsCausal(m, layer, xs[i], 0, |xs|, i, Entries(m, layer, xs, 0));
      EntriesPrefix(m, layer, xs, i + 1);
    }
  }

  lemma CachedRowIsCausal(m: Model, layer: Layer, xs: seq<Vec>, offset: nat, i: nat)
    requires offset + i < |xs|
    ensures MaskFits(MaskFor(offset, |xs| - offset), |xs| - offset, |xs|)
    ensures AttendAt(m, layer, xs[offset + i], offset + i, Entries(m, layer, xs, 0),
                     RowOf(MaskFor(offset, |xs| - offset), i))
         == AttendAt(m, layer, xs[offset + i], offset + i, Entries(m, layer, xs[..offset + i + 1], 0), None)
  {
    RowIsCausal(m, layer, xs[offset + i], offset, |xs| - offset, i, Entries(m, layer, xs, 0));
    EntriesPrefix(m, layer, xs, offset + i + 1);
  }

  /** With the entries of the first `offset` positions cached, a chunk computes the later positions. */
  lemma CachedLayerIsCausal(m: Model, layer: Layer, xs: seq<Vec>, offset: nat)
    requires offset <= |xs|
    ensures MaskFits(MaskFor(offset, |xs| - offset), |xs| - offset, |xs|)
    ensures CachedLayer(m, layer, xs[offset..], offset, Entries(m, layer, xs[..offset], 0),
                        MaskFor(offset, |xs| - offset))
         == Causal(m, layer, xs)[offset..]
  {
    var l := |xs| - offset;
    var cache := Entries(m, layer, xs[..offset], 0);
    EntriesPrefix(m, layer, xs, offset);
    forall i | 0 <= i < l
      ensures CachedLayer(m, layer, xs[offset..], offset, cache, MaskFor(offset, l))[i] ==
                CausalAt(m, layer, xs, offset + i)
    {
      CachedRowIsCausal(m, layer, xs, offset, i);
    }
  }

  lemma CausalPrefix(m: Model, layer: Layer, xs: seq<Vec>, n: nat)
    requires n <= |xs|
    ensures Causal(m, layer, xs)[..n] == Causal(m, layer, xs[..n])
  {
    forall i | 0 <= i < n
      ensures CausalAt(m, layer, xs, i) == CausalAt(m, layer, xs[..n], i)
    {
      assert xs[..n][..i + 1] == xs[..i + 1];
    }
  }

  // ---------------------------------------------------------------------------
  // The uncached model
  // ---------------------------------------------------------------------------

  predicate KnownTokens(m: Model, ids: seq<Token>) {
    forall i :: 0 <= i < |ids| ==> ids[i] < m.vocab
  }

  function Embedded(m: Model, ids: seq<Token>): seq<Vec> {
    seq(|ids|, i requires 0 <= i < |ids| => m.embed(ids[i]))
  }

  /** The hidden states after the first `n` layers. */
  function Hidden(m: Model, ids: seq<Token>, n: nat): (h: seq<Vec>)
    requires n <= |m.layers|
    ensures |h| == |ids|
  {
    if n == 0 then Embedded(m, ids)
    else
      var xs := Hidden(m, ids, n - 1);
      UncachedLayerIsCausal(m, m.layers[n - 1], xs);
      UncachedLayer(m, m.layers[n - 1], xs, MaskFor(0, |ids|))
  }

  function Readout(m: Model, h: seq<Vec>): seq<Logits> {
    seq(|h|, i requires 0 <= i < |h| => m.head(m.norm(h[i])))
  }

  /** The uncached forward, narrowed to a window of positions if one is given. */
  function Uncached(m: Model, ids: seq<Token>, window: Option<(nat, nat)>): Result<seq<Logits>> {
    if !KnownTokens(m, ids) then Err(BadToken)
    else if |m.layers| > 0 && |ids| > m.positions then Err(PastTable)
    else
      var h := Hidden(m, ids, |m.layers|);
      match window
      case None => Ok(Readout(m, h))
      case Some((start, len)) =>
        if start + len > |h| then Err(WindowOutside) else Ok(Readout(m, h[start..start + len]))
  }

  /** Narrowing before the head is slicing the full logits. */
  lemma WindowIsSlice(m: Model, ids: seq<Token>, start: nat, len: nat)
    requires Uncached(m, ids, None).Ok?
    ensures Uncached(m, ids, Some((start, len))) ==
              if start + len <= |ids| then Ok(Uncached(m, ids, None).value[start..start + len]) else Err(WindowOutside)
  {
    if start + len <= |ids| {
      var h := Hidden(m, ids, |m.layers|);
      assert Readout(m, h[start..start + len]) == Readout(m, h)[start..start + len];
    }
  }

  /** What the hidden states should be: every layer lets each position see itself and the earlier ones. */
  function Ideal(m: Model, ids: seq<Token>, n: nat): (h: seq<Vec>)
    requires n <= |m.layers|
    ensures |h| == |ids|
  {
    if n == 0 then Embedded(m, ids) else Causal(m, m.layers[n - 1], Ideal(m, ids, n - 1))
  }

  lemma {:induction false} HiddenIsIdeal(m: Model, ids: seq<Token>, n: nat)
    requires n <= |m.layers|
    ensures Hidden(m, ids, n) == Ideal(m, ids, n)
  {
    if n > 0 {
      HiddenIsIdeal(m, ids, n - 1);
      UncachedLayerIsCausal(m, m.layers[n - 1], Ideal(m, ids, n - 1));
    }
  }

  lemma EmbeddedPrefix(m: Model, ids: seq<Token>, k: nat)
    requires k <= |ids|
    ensures Embedded(m, ids)[..k] == Embedded(m, ids[..k])
    ensures Embedded(m, ids)[k..] == Embedded(m, ids[k..])
  {
  }

  lemma {:induction false} IdealPrefix(m: Model, ids: seq<Token>, k: nat, n: nat)
    requires n <= |m.layers| && k <= |ids|
    ensures Ideal(m, ids, n)[..k] == Ideal(m, ids[..k], n)
    decreases n
  {
    if n == 0 {
      EmbeddedPrefix(m, ids, k);
    } else {
      IdealPrefix(m, ids, k, n - 1);
      CausalPrefix(m, m.layers[n - 1], Ideal(m, ids, n - 1), k);
    }
  }

  /** Later tokens never change earlier logits. */
  lemma ForwardPrefix(m: Model, ids: seq<Token>, k: nat)
    requires k <= |ids| && Uncached(m, ids, None).Ok?
    ensures Uncached(m, ids[..k], None).Ok?
    ensures Uncached(m, ids, None).value[..k] == Uncached(m, ids[..k], None).value
  {
    HiddenIsIdeal(m, ids, |m.layers|);
    HiddenIsIdeal(m, ids[..k], |m.layers|);
    IdealPrefix(m, ids, k, |m.layers|);
  }

  // ---------------------------------------------------------------------------
  // The cached decoder
  // ---------------------------------------------------------------------------

  /** What layer `n` has cached once `ids` went through it. */
  function CacheAfter(m: Model, ids: seq<Token>, n: nat): seq<Entry>
    requires n < |m.layers|
  {
    Entries(m, m.layers[n], Ideal(m, ids, n), 0)
  }

  predicate CachesHold(m: Model, caches: seq<seq<Entry>>, ids: seq<Token>) {
    |caches| == |m.layers| && forall n :: 0 <= n < |m.layers| ==> caches[n] == CacheAfter(m, ids, n)
  }

  /** A single new position attends to everything cached and needs no mask. */
  method ChunkMask(offset: nat, l: nat) returns (mask: Option<seq<seq<Score>>>)
    ensures mask == MaskFor(offset, l)
  {
    if l == 1 {
      mask := None;
    } else {
      var rows := CausalMaskAt(offset, l);
      mask := Some(rows);
    }
  }

  /** What the chunk looks like between the layers, if each continues its cache. */
  ghost predicate Traces(m: Model, caches: seq<seq<Entry>>, trace: seq<seq<Vec>>, offset: nat, l: nat)
  {
    && |caches| == |m.layers| && |trace| == |m.layers| + 1
    && forall n :: 0 <= n < |m.layers| ==> Continues(m, m.layers[n], caches[n], trace[n], trace[n + 1], offset, l)
  }

  ghost predicate Continues(m: Model, layer: Layer, cache: seq<Entry>, xs: seq<Vec>, ys: seq<Vec>, offset: nat,
                            l: nat) {
    && |xs| == l && |cache| == offset && AllFit(cache, m) && MaskFits(MaskFor(offset, l), l, offset + l)
    && CachedLayer(m, layer, xs, offset, cache, MaskFor(offset, l)) == ys
  }

  /** The chunk's part of the ideal hidden states, layer by layer, is what the caches continue with. */
  lemma BuildTrace(m: Model, caches: seq<seq<Entry>>, before: seq<Token>, ids: seq<Token>, n: nat)
    returns (trace: seq<seq<Vec>>)
    requires CachesHold(m, caches, before) && n <= |m.layers|
    ensures |trace| == n + 1 && trace[0] == Embedded(m, ids) && trace[n] == Ideal(m, before + ids, n)[|before|..]
    ensures forall k :: 0 <= k < n ==> Continues(m, m.layers[k], caches[k], trace[k], trace[k + 1], |before|, |ids|)
    ensures forall k :: 0 <= k < n ==>
              caches[k] + Entries(m, m.layers[k], trace[k], |before|) == CacheAfter(m, before + ids, k)
  {
    if n == 0 {
      EmbeddedPrefix(m, before + ids, |before|);
      assert (before + ids)[|before|..] == ids;
      trace := [Embedded(m, ids)];
    } else {
      var init := BuildTrace(m, caches, before, ids, n - 1);
      LayerContinues(m, before, ids, n - 1);
      trace := Extended(m, caches, before, ids, n - 1, init, Ideal(m, before + ids, n)[|before|..]);
    }
  }

  lemma Extended(m: Model, caches: seq<seq<Entry>>, before: seq<Token>, ids: seq<Token>, n: nat,
                 init: seq<seq<Vec>>, next: seq<Vec>) returns (trace: seq<seq<Vec>>)
    requires n < |m.layers| == |caches| && |init| == n + 1
    requires forall k :: 0 <= k < n ==> Continues(m, m.layers[k], caches[k], init[k], init[k + 1], |before|, |ids|)
    requires forall k :: 0 <= k < n ==>
               caches[k] + Entries(m, m.layers[k], init[k], |before|) == CacheAfter(m, before + ids, k)
    requires Continues(m, m.layers[n], caches[n], init[n], next, |before|, |ids|)
    requires caches[n] + Entries(m, m.layers[n], init[n], |before|) == CacheAfter(m, before + ids, n)
    ensures trace == init + [next]
    ensures forall k :: 0 <= k <= n ==> Continues(m, m.layers[k], caches[k], trace[k], trace[k + 1], |before|, |ids|)
    ensures forall k :: 0 <= k <= n ==>
              caches[k] + Entries(m, m.layers[k], trace[k], |before|) == CacheAfter(m, before + ids, k)
  {
    trace := init + [next];
    assert forall k :: 0 <= k <= n ==> trace[k] == init[k];
    forall k | 0 <= k <= n
      ensures Continues(m, m.layers[k], caches[k], trace[k], trace[k + 1], |before|, |ids|)
    {
      if k < n {
        assert Continues(m, m.layers[k], caches[k], init[k], init[k + 1], |before|, |ids|);
      }
    }
  }

  class DenseCachedDecoder {
    const m: Model
    var caches: seq<seq<Entry>>
    /** The tokens decoded since the last reset. */
    ghost var history: seq<Token>

    ghost predicate Valid()
      reads this
    {
      && CachesHold(m, caches, history) && KnownTokens(m, history)
      && (|m.layers| == 0 ==> history == [])
      && (|m.layers| > 0 ==> |history| <= m.positions)
    }

    constructor (model: Model)
      ensures Valid() && m == model && history == []
    {
      m := model;
      caches := seq(|model.layers|, n => []);
      history := [];
    }

    /** All layer caches have the same length; with no layers nothing is ever cached. */
    function Cached(): (n: nat)
      requires Valid()
      reads this
      ensures n == |history| && forall i :: 0 <= i < |caches| ==> |caches[i]| == n
    {
      if |caches| == 0 then 0 else |caches[0]|
    }

    /** Layer `n` over a chunk: append to its cache, then attend to all of it. */
    method LayerForward(n: nat, xs: seq<Vec>, offset: nat, mask: Option<seq<seq<Score>>>) returns (r: Result<seq<Vec>>)
      requires n < |m.layers| == |caches| && AllFit(caches[n], m) && MaskFits(mask, |xs|, |caches[n]| + |xs|)
      modifies this`caches
      ensures r.Ok? <==> offset + |xs| <= m.positions
      ensures r.Err? ==> r.error == PastTable && caches == old(caches)
      ensures r.Ok? ==> r.value == CachedLayer(m, m.layers[n], xs, offset, old(caches[n]), mask)
      ensures r.Ok? ==> caches == old(caches)[n := old(caches[n]) + Entries(m, m.layers[n], xs, offset)]
    {
      if offset + |xs| > m.positions {
        return Err(PastTable);
      }
      var entries := caches[n] + Entries(m, m.layers[n], xs, offset);
      r := Ok(CachedLayer(m, m.layers[n], xs, offset, caches[n], mask));
      caches := caches[n := entries];
    }

    /** Take the embedded chunk through all layers; only the first one can reject it, before anything changed. */
    method WalkLayers(x: seq<Vec>, offset: nat, ghost trace: seq<seq<Vec>>) returns (r: Result<seq<Vec>>)
      requires Traces(m, caches, trace, offset, |x|) && trace[0] == x
      modifies this`caches
      ensures r.Ok? <==> |m.layers| == 0 || offset + |x| <= m.positions
      ensures r.Err? ==> r.error == PastTable && caches == old(caches)
      ensures r.Ok? ==> r.value == trace[|m.layers|] && |caches| == |m.layers|
      ensures r.Ok? ==> forall n :: 0 <= n < |m.layers| ==>
                caches[n] == old(caches)[n] + Entries(m, m.layers[n], trace[n], offset)
    {
      var h := x;
      var mask := ChunkMask(offset, |x|);
      for n := 0 to |m.layers|
        invariant |caches| == |m.layers| && h == trace[n]
        invariant n > 0 ==> offset + |x| <= m.positions
        invariant n == 0 ==> caches == old(caches)
        invariant forall k :: 0 <= k < n ==> caches[k] == old(caches)[k] + Entries(m, m.layers[k], trace[k], offset)
        invariant forall k :: n <= k < |m.layers| ==> caches[k] == old(caches)[k]
      {
        assert Continues(m, m.layers[n], caches[n], trace[n], trace[n + 1], offset, |x|);
        var step := LayerForward(n, h, offset, mask);
        if step.Err? {
          return Err(step.error);
        }
        h := step.value;
      }
      r := Ok(h);
    }

    /** Accepts exactly the chunk that continues what is cached, and computes the uncached logits of its positions. */
    method Forward(ids: seq<Token>, offset: nat) returns (r: Result<seq<Logits>>)
      requires Valid()
      modifies this
      ensures Valid()
      ensures offset != old(Cached()) ==> r == Err(OffsetMismatch(offset, old(Cached())))
      ensures offset == old(Cached()) && !KnownTokens(m, ids) ==> r == Err(BadToken)
      ensures offset == old(Cached()) && KnownTokens(m, ids) ==>
                (r.Ok? <==> |m.layers| == 0 || offset + |ids| <= m.positions) && (r.Err? ==> r.error == PastTable)
      ensures r.Err? ==> caches == old(caches) && history == old(history)
      ensures r.Ok? ==> var all := old(history) + ids;
                        && Uncached(m, all, None).Ok?
                        && |Uncached(m, all, None).value| == |all|
                        && r.value == Uncached(m, all, None).value[offset..]
                        && history == if |m.layers| == 0 then [] else all
    {
      var cached := if |caches| == 0 then 0 else |caches[0]|;
      assert cached == Cached();
      if offset != cached {
        return Err(OffsetMismatch(offset, cached));
      }
      if exists i :: 0 <= i < |ids| && ids[i] >= m.vocab {
        return Err(BadToken);
      }
      ghost var trace := BuildTrace(m, caches, history, ids, |m.layers|);
      var walked := WalkLayers(Embedded(m, ids), offset, trace);
      if walked.Err? {
        return Err(walked.error);
      }
      ghost var all := history + ids;
      HiddenIsIdeal(m, all, |m.layers|);
      ReadoutTail(m, Ideal(m, all, |m.layers|), offset);
      r := Ok(Readout(m, walked.value));
      history := if |m.layers| == 0 then [] else all;
    }

    method ResetCache()
      requires Valid()
      modifies this
      ensures Valid() && history == [] && Cached() == 0
    {
      caches := seq(|caches|, n => []);
      history := [];
    }
  }

  lemma ReadoutTail(m: Model, h: seq<Vec>, n: nat)
    requires n <= |h|
    ensures Readout(m, h)[n..] == Readout(m, h[n..])
  {
  }

  /** One layer of the cached walk continues the ideal one. */
  lemma LayerContinues(m: Model, before: seq<Token>, ids: seq<Token>, n: nat)
    requires n < |m.layers|
    ensures var xs := Ideal(m, before + ids, n)[|before|..];
            && Continues(m, m.layers[n], CacheAfter(m, before, n), xs, Ideal(m, before + ids, n + 1)[|before|..],
                         |before|, |ids|)
            && CacheAfter(m, before, n) + Entries(m, m.layers[n], xs, |before|) == CacheAfter(m, before + ids, n)
  {
    var all, offset, layer := before + ids, |before|, m.layers[n];
    assert all[..offset] == before;
    IdealPrefix(m, all, offset, n);
    CachedLayerIsCausal(m, layer, Ideal(m, all, n), offset);
    EntriesPrefix(m, layer, Ideal(m, all, n), offset);
  }

  function Concat<T>(chunks: seq<seq<T>>): seq<T> {
    if chunks == [] then [] else Concat(chunks[..|chunks| - 1]) + chunks[|chunks| - 1]
  }

  /** What the decoder can take from the start: known tokens, within the rotary tables. */
  predicate Decodable(m: Model, ids: seq<Token>) {
    KnownTokens(m, ids) && |ids| <= m.positions
  }

  /** Chunk `k` is the first that cannot be decoded, for this reason. */
  predicate FailsAt(m: Model, chunks: seq<seq<Token>>, k: nat, e: Failure) {
    && k < |chunks| && Decodable(m, Concat(chunks[..k])) && !Decodable(m, Concat(chunks[..k]) + chunks[k])
    && e == if KnownTokens(m, chunks[k]) then PastTable else BadToken
  }

  /**
   Any chunking of a sequence, each chunk at its running offset: together the outputs are the uncached
   logits of what was decoded, which is the whole sequence, or everything before the first chunk that has
   an unknown token or runs past the rotary tables.
   */
  method DecodeInChunks(d: DenseCachedDecoder, chunks: seq<seq<Token>>)
    returns (outs: seq<Logits>, failed: Option<Failure>)
    requires d.Valid() && d.history == [] && |d.m.layers| > 0
    modifies d
    ensures d.Valid() && Uncached(d.m, d.history, None) == Ok(outs)
    ensures failed.None? ==> d.history == Concat(chunks)
    ensures failed.Some? ==> exists k: nat :: FailsAt(d.m, chunks, k, failed.value) && d.history == Concat(chunks[..k])
    ensures failed.None? <==> Decodable(d.m, Concat(chunks))
  {
    outs, failed := [], None;
    var offset := 0;
    assert chunks[..0] == [];
    NothingForward(d.m);
    for k := 0 to |chunks|
      invariant d.Valid() && d.history == Concat(chunks[..k]) && offset == |d.history|
      invariant Uncached(d.m, d.history, None) == Ok(outs)
    {
      assert chunks[..k + 1][..k] == chunks[..k];
      ghost var before := d.history;
      PrefixOfConcat(chunks, k + 1);
      var step := d.Forward(chunks[k], offset);
      if step.Err? {
        UnknownStays(d.m, before, chunks[k], Concat(chunks));
        UnknownStays(d.m, before, chunks[k], before + chunks[k]);
        assert FailsAt(d.m, chunks, k, step.error);
        return outs, Some(step.error);
      }
      assert d.history[..offset] == before;
      LogitsJoin(d.m, d.history, offset, outs, step.value);
      outs := outs + step.value;
      offset := offset + |chunks[k]|;
    }
    assert chunks[..|chunks|] == chunks;
  }

  lemma {:induction false} PrefixOfConcat<T>(chunks: seq<seq<T>>, k: nat)
    requires k <= |chunks|
    ensures Concat(chunks[..k]) <= Concat(chunks)
    decreases |chunks|
  {
    if k == |chunks| {
      assert chunks[..k] == chunks;
    } else {
      PrefixOfConcat(chunks[..|chunks| - 1], k);
      assert chunks[..|chunks| - 1][..k] == chunks[..k];
    }
  }

  lemma UnknownStays(m: Model, before: seq<Token>, chunk: seq<Token>, all: seq<Token>)
    requires before + chunk <= all
    ensures !KnownTokens(m, chunk) ==> !KnownTokens(m, all)
  {
    if i :| 0 <= i < |chunk| && chunk[i] >= m.vocab {
      assert all[|before| + i] == (before + chunk)[|before| + i] == chunk[i];
    }
  }

  lemma NothingForward(m: Model)
    ensures Uncached(m, [], None) == Ok([])
  {
    var h := Hidden(m, [], |m.layers|);
    assert |h| == 0;
    assert Readout(m, h) == [];
  }

  lemma TakeDrop<T>(s: seq<T>, k: nat)
    requires k <= |s|
    ensures s[..k] + s[k..] == s
  {
  }

  lemma LogitsJoin(m: Model, ids: seq<Token>, k: nat, first: seq<Logits>, rest: seq<Logits>)
    requires k <= |ids| && Uncached(m, ids, None).Ok? && k <= |Uncached(m, ids, None).value|
    requires Uncached(m, ids[..k], None) == Ok(first) && rest == Uncached(m, ids, None).value[k..]
    ensures Uncached(m, ids, None) == Ok(first + rest)
  {
    ForwardPrefix(m, ids, k);
    TakeDrop(Uncached(m, ids, None).value, k);
  }

  /** Without layers nothing is cached, so a second chunk at its running offset is rejected. */
  method NoLayersNoOffset(d: DenseCachedDecoder, ids: seq<Token>, offset: nat) returns (r: Result<seq<Logits>>)
    requires d.Valid() && |d.m.layers| == 0 && offset > 0
    modifies d
    ensures r == Err(OffsetMismatch(offset, 0))
  {
    r := d.Forward(ids, offset);
  }
}
