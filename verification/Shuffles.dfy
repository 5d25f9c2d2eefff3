/**
 The Fisher-Yates shuffle that the Countdown generator (`crates/ferrl/src/countdown.rs`, `shuffled`) and
 the dataset splits (`crates/ferrl/src/data.rs`) share, over an arbitrary stream of draws.
 */
module Shuffles {
  import opened Common

  /** The draws of a generator, in order. */
  type Stream = nat -> U64

  function Swap<T>(v: seq<T>, i: nat, j: nat): (w: seq<T>)
    requires i < |v| && j < |v|
    ensures |w| == |v|
  {
    v[i := v[j]][j := v[i]]
  }

  lemma SwapPermutes<T>(v: seq<T>, i: nat, j: nat)
    requires i < |v| && j < |v|
    ensures multiset(Swap(v, i, j)) == multiset(v)
  {
  }

  /** Fisher-Yates on the first `k` positions: result and generator state. */
  function ShuffleFrom<T>(d: Stream, s: nat, v: seq<T>, k: nat): (r: (seq<T>, nat))
    requires k <= |v|
    ensures |r.0| == |v|
    decreases k
  {
    if k <= 1 then (v, s) else ShuffleFrom(d, s + 1, Swap(v, k - 1, d(s) % k), k - 1)
  }

  lemma {:induction false} ShufflePermutes<T>(d: Stream, s: nat, v: seq<T>, k: nat)
    requires k <= |v|
    ensures multiset(ShuffleFrom(d, s, v, k).0) == multiset(v)
    decreases k
  {
    if k > 1 {
      SwapPermutes(v, k - 1, d(s) % k);
      ShufflePermutes(d, s + 1, Swap(v, k - 1, d(s) % k), k - 1);
    }
  }

  // ---------------------------------------------------------------------------
  // The draws decide the order
  // ---------------------------------------------------------------------------

  /** One choice for each position from `k - 1` down to 1, among the positions up to it. */
  predicate Choices(cs: seq<nat>, k: nat) {
    |cs| == (if k <= 1 then 0 else k - 1) && forall i :: 0 <= i < |cs| ==> cs[i] < k - i
  }

  lemma LaterChoices(cs: seq<nat>, k: nat)
    requires k > 1 && Choices(cs, k)
    ensures cs[0] < k && Choices(cs[1..], k - 1)
  {
    forall i | 0 <= i < |cs[1..]|
      ensures cs[1..][i] < k - 1 - i
    {
      assert cs[1..][i] == cs[i + 1];
    }
  }

  /** The choices a stream makes: each draw counts modulo the number of positions left. */
  function Drawn(d: Stream, s: nat, k: nat): (cs: seq<nat>)
    ensures Choices(cs, k)
  {
    seq(if k <= 1 then 0 else k - 1, i requires 0 <= i < k - 1 => d(s + i) % (k - i))
  }

  lemma DrawnFirst(d: Stream, s: nat, k: nat)
    requires k > 1
    ensures Drawn(d, s, k)[0] == d(s) % k && Drawn(d, s, k)[1..] == Drawn(d, s + 1, k - 1)
  {
    var cs, later := Drawn(d, s, k), Drawn(d, s + 1, k - 1);
    forall i | 0 <= i < |later|
      ensures cs[1..][i] == later[i]
    {
      assert s + (i + 1) == s + 1 + i && k - (i + 1) == k - 1 - i;
    }
  }

  /** `w` is `v` with its first `k` positions in the order chosen: each position in turn takes its choice. */
  ghost predicate Arranged<T(!new)>(v: seq<T>, k: nat, cs: seq<nat>, w: seq<T>)
    decreases k
  {
    && |w| == |v| && k <= |v| && Choices(cs, k)
    && if k <= 1 then w == v
       else
         LaterChoices(cs, k);
         w[k - 1] == v[cs[0]] && Arranged(Swap(v, k - 1, cs[0]), k - 1, cs[1..], w)
  }

  /** The shuffle arranges by its draws, and uses one for each position but the first. */
  lemma {:induction false} ShuffleArranges<T(!new)>(d: Stream, s: nat, v: seq<T>, k: nat)
    requires k <= |v|
    ensures Arranged(v, k, Drawn(d, s, k), ShuffleFrom(d, s, v, k).0)
    ensures ShuffleFrom(d, s, v, k).1 == s + |Drawn(d, s, k)|
    ensures ShuffleFrom(d, s, v, k).0[k..] == v[k..]
    decreases k
  {
    if k > 1 {
      DrawnFirst(d, s, k);
      var next := Swap(v, k - 1, d(s) % k);
      ShuffleArranges(d, s + 1, next, k - 1);
      var w := ShuffleFrom(d, s + 1, next, k - 1).0;
      assert w[k - 1] == w[k - 1..][0] == next[k - 1..][0] == next[k - 1];
      assert w[k..] == w[k - 1..][1..] && next[k..] == next[k - 1..][1..];
    }
  }

  predicate AllDistinct<T(==)>(v: seq<T>) {
    forall i, j :: 0 <= i < j < |v| ==> v[i] != v[j]
  }

  lemma SwapStaysDistinct<T>(v: seq<T>, i: nat, j: nat)
    requires AllDistinct(v) && i < |v| && j < |v|
    ensures AllDistinct(Swap(v, i, j))
  {
  }

  /** Of distinct elements, no order is reached by two different choices. */
  lemma {:induction false} ChoicesAreDetermined<T(!new)>(v: seq<T>, k: nat, cs: seq<nat>, ds: seq<nat>, w: seq<T>)
    requires AllDistinct(v) && Arranged(v, k, cs, w) && Arranged(v, k, ds, w)
    ensures cs == ds
    decreases k
  {
    if k > 1 {
      LaterChoices(cs, k);
      LaterChoices(ds, k);
      assert v[cs[0]] == v[ds[0]];
      assert cs[0] == ds[0];
      SwapStaysDistinct(v, k - 1, cs[0]);
      ChoicesAreDetermined(Swap(v, k - 1, cs[0]), k - 1, cs[1..], ds[1..], w);
      assert cs == [cs[0]] + cs[1..] && ds == [ds[0]] + ds[1..];
    }
  }

  lemma PrefixContents<T>(v: seq<T>, k: nat)
    requires k <= |v|
    ensures multiset(v[..k]) == multiset(v) - multiset(v[k..])
  {
    assert v == v[..k] + v[k..];
  }

  /** If the rest is in place, what position `k - 1` should hold is still among the first `k`. */
  lemma StillThere<T>(v: seq<T>, w: seq<T>, k: nat) returns (j: nat)
    requires 0 < k <= |v| == |w| && multiset(v) == multiset(w) && v[k..] == w[k..]
    ensures j < k && v[j] == w[k - 1]
  {
    PrefixContents(v, k);
    PrefixContents(w, k);
    var front, goal := v[..k], w[..k];
    assert goal[k - 1] in multiset(goal);
    assert goal[k - 1] in front;
    j :| 0 <= j < k && front[j] == goal[k - 1];
  }

  lemma OneMoreInPlace<T>(v: seq<T>, w: seq<T>, k: nat, j: nat)
    requires j < k <= |v| == |w| && v[k..] == w[k..] && v[j] == w[k - 1]
    ensures Swap(v, k - 1, j)[k - 1..] == w[k - 1..]
  {
    var next := Swap(v, k - 1, j);
    forall i | k - 1 <= i < |v|
      ensures next[i] == w[i]
    {
      if i >= k {
        assert next[i] == v[i] == v[k..][i - k] == w[k..][i - k];
      }
    }
  }

  lemma ChooseFirst(j: nat, later: seq<nat>, k: nat)
    requires k > 1 && j < k && Choices(later, k - 1)
    ensures Choices([j] + later, k)
  {
    var cs := [j] + later;
    forall i | 0 <= i < |cs|
      ensures cs[i] < k - i
    {
      if i > 0 {
        assert cs[i] == later[i - 1];
      }
    }
  }

  lemma AllInPlace<T>(v: seq<T>, w: seq<T>)
    requires |v| == |w| && v[0..] == w[0..]
    ensures v == w
  {
    assert v == v[0..] && w == w[0..];
  }

  lemma LastIsInPlace<T>(v: seq<T>, w: seq<T>)
    requires 1 <= |v| == |w| && multiset(v) == multiset(w) && v[1..] == w[1..]
    ensures v == w
  {
    var j := StillThere(v, w, 1);
    assert v == [v[0]] + v[1..] && w == [w[0]] + w[1..];
  }

  /** Every order of the first `k` positions is reached by some choices. */
  lemma {:induction false} EveryOrderIsChosen<T(!new)>(v: seq<T>, w: seq<T>, k: nat) returns (cs: seq<nat>)
    requires k <= |v| == |w| && multiset(v) == multiset(w) && v[k..] == w[k..]
    ensures Arranged(v, k, cs, w)
    decreases k
  {
    if k == 0 {
      AllInPlace(v, w);
      cs := [];
    } else if k == 1 {
      LastIsInPlace(v, w);
      cs := [];
    } else {
      var j := StillThere(v, w, k);
      SwapPermutes(v, k - 1, j);
      OneMoreInPlace(v, w, k, j);
      var later := EveryOrderIsChosen(Swap(v, k - 1, j), w, k - 1);
      ChooseFirst(j, later, k);
      cs := [j] + later;
      assert cs[1..] == later;
    }
  }

  /** The stream that draws `cs` from `s` on. */
  function Replay(cs: seq<nat>, s: nat): Stream
    requires forall i :: 0 <= i < |cs| ==> cs[i] <= U64_MAX
  {
    (n: nat) => if s <= n < s + |cs| then cs[n - s] else 0
  }

  lemma ReplayDraws(cs: seq<nat>, s: nat, k: nat)
    requires Choices(cs, k) && k <= U64_MAX
    ensures forall i :: 0 <= i < |cs| ==> cs[i] <= U64_MAX
    ensures Drawn(Replay(cs, s), s, k) == cs
  {
    forall i | 0 <= i < |cs|
      ensures Drawn(Replay(cs, s), s, k)[i] == cs[i]
    {
      assert Replay(cs, s)(s + i) == cs[i];
      SmallIsItself(cs[i], k - i);
    }
  }

  lemma SmallIsItself(x: nat, n: nat)
    requires x < n
    ensures x % n == x
  {
  }

  lemma {:induction false} ArrangedAlike<T(!new)>(v: seq<T>, k: nat, cs: seq<nat>, w: seq<T>, x: seq<T>)
    requires Arranged(v, k, cs, w) && Arranged(v, k, cs, x)
    ensures w == x
    decreases k
  {
    if k > 1 {
      LaterChoices(cs, k);
      ArrangedAlike(Swap(v, k - 1, cs[0]), k - 1, cs[1..], w, x);
    }
  }

  /** The shuffle can produce every order of its input. */
  lemma EveryOrderIsDrawn<T(!new)>(v: seq<T>, w: seq<T>, s: nat) returns (d: Stream)
    requires multiset(v) == multiset(w) && |v| <= U64_MAX
    ensures ShuffleFrom(d, s, v, |v|).0 == w
  {
    assert |multiset(v)| == |v| && |multiset(w)| == |w|;
    assert v[|v|..] == w[|v|..];
    var cs := EveryOrderIsChosen(v, w, |v|);
    ReplayDraws(cs, s, |v|);
    d := Replay(cs, s);
    ShuffleArranges(d, s, v, |v|);
    ArrangedAlike(v, |v|, cs, w, ShuffleFrom(d, s, v, |v|).0);
  }

  /** Of distinct elements, every order comes from exactly one choice of draws. */
  lemma OneChoicePerOrder<T(!new)>(v: seq<T>, w: seq<T>) returns (cs: seq<nat>)
    requires AllDistinct(v) && multiset(v) == multiset(w)
    ensures Choices(cs, |v|)
    ensures forall d: Stream, s: nat :: ShuffleFrom(d, s, v, |v|).0 == w <==> Drawn(d, s, |v|) == cs
  {
    assert |multiset(v)| == |v| && |multiset(w)| == |w|;
    assert v[|v|..] == w[|v|..];
    cs := EveryOrderIsChosen(v, w, |v|);
    forall d: Stream, s: nat
      ensures ShuffleFrom(d, s, v, |v|).0 == w <==> Drawn(d, s, |v|) == cs
    {
      ChoiceIsTheDraw(d, s, v, w, cs);
    }
  }

  lemma ChoiceIsTheDraw<T(!new)>(d: Stream, s: nat, v: seq<T>, w: seq<T>, cs: seq<nat>)
    requires AllDistinct(v) && Arranged(v, |v|, cs, w)
    ensures ShuffleFrom(d, s, v, |v|).0 == w <==> Drawn(d, s, |v|) == cs
  {
    var x := ShuffleFrom(d, s, v, |v|).0;
    ShuffleArranges(d, s, v, |v|);
    if x == w {
      ChoicesAreDetermined(v, |v|, Drawn(d, s, |v|), cs, w);
    }
    if Drawn(d, s, |v|) == cs {
      ArrangedAlike(v, |v|, cs, w, x);
    }
  }
}
