/**
 What the dataset splits (`crates/ferrl/src/data.rs`) hold out, in terms of the samples alone: which group or
 sample it can be, and in which order the shuffle finds them.
 */
module HeldOut {
  import opened Common
  import opened Shuffles
  import opened DataSplit

  // ---------------------------------------------------------------------------
  // Order of first occurrence
  // ---------------------------------------------------------------------------

  /** A sample before position `b` has key `k`. */
  ghost predicate KeyBefore(s: seq<Sample>, key: Sample -> Key, k: Key, b: nat) {
    exists a :: 0 <= a < b && a < |s| && key(s[a]) == k
  }

  lemma {:induction false} GroupsOfIsGrouped(s: seq<Sample>, key: Sample -> Key)
    ensures Grouped(GroupsOf(s, key), s, key)
  {
    if s != [] {
      var seen, x := s[..|s| - 1], s[|s| - 1];
      var groups := GroupsOf(seen, key);
      assert seen + [x] == s;
      GroupsOfIsGrouped(seen, key);
      GroupsNext(seen, x, key);
      var at := GroupOf(groups, key, key(x));
      if at.Some? {
        PushKeeps(groups, seen, x, key, at.value);
      } else {
        forall i | 0 <= i < |groups|
          ensures key(groups[i][0]) != key(x)
        {
          assert Uniform(groups[i], key);
        }
        OpenKeeps(groups, seen, x, key);
      }
    }
  }

  lemma GroupHasASample(groups: seq<seq<Sample>>, s: seq<Sample>, key: Sample -> Key, i: nat)
    requires Grouped(groups, s, key) && i < |groups|
    ensures groups[i] != [] && KeyBefore(s, key, key(groups[i][0]), |s|)
  {
    var k := key(groups[i][0]);
    assert Uniform(groups[i], key);
    if forall j :: 0 <= j < |s| ==> key(s[j]) != k {
      SelectNone(s, key, k);
      assert false;
    }
  }

  /** Adding a sample keeps the keys of the groups and at most appends its own. */
  lemma HeadsStay(s: seq<Sample>, x: Sample, key: Sample -> Key)
    ensures var groups, next := GroupsOf(s, key), GroupsOf(s + [x], key);
            && |groups| <= |next| <= |groups| + 1
            && (forall i :: 0 <= i < |groups| && groups[i] != [] ==> next[i] != [] && next[i][0] == groups[i][0])
            && (|next| > |groups| ==> next[|groups|] == [x])
            && (|next| > |groups| ==> forall i :: 0 <= i < |groups| ==> !HasKey(groups[i], key, key(x)))
  {
    GroupsNext(s, x, key);
  }

  /** Groups stand in the order in which their keys first occur. */
  lemma {:induction false} GroupsInOrder(s: seq<Sample>, key: Sample -> Key, i: nat, j: nat, b: nat)
    requires i < j < |GroupsOf(s, key)| && b < |s|
    requires GroupsOf(s, key)[j] != [] && key(s[b]) == key(GroupsOf(s, key)[j][0])
    ensures GroupsOf(s, key)[i] != [] && KeyBefore(s, key, key(GroupsOf(s, key)[i][0]), b)
    decreases |s|
  {
    var init, x := s[..|s| - 1], s[|s| - 1];
    var groups := GroupsOf(init, key);
    assert init + [x] == s;
    HeadsStay(init, x, key);
    GroupsOfIsGrouped(init, key);
    GroupHasASample(groups, init, key, i);
    if b < |init| {
      assert init[b] == s[b];
      assert HasGroup(groups, key, key(init[b]));
      if j < |groups| {
        GroupHasASample(groups, init, key, j);
        GroupsInOrder(init, key, i, j, b);
      }
    }
    assert KeyBefore(init, key, key(groups[i][0]), b);
    KeyStaysBefore(init, x, key, key(groups[i][0]), b);
  }

  lemma KeyStaysBefore(s: seq<Sample>, x: Sample, key: Sample -> Key, k: Key, b: nat)
    requires KeyBefore(s, key, k, b)
    ensures KeyBefore(s + [x], key, k, b)
  {
    var a :| 0 <= a < b && a < |s| && key(s[a]) == k;
    assert (s + [x])[a] == s[a];
  }

  /** Deduplication keeps the order in which samples first occur. */
  lemma {:induction false} DeduplicatedInOrder(s: seq<Sample>, i: nat, j: nat, b: nat)
    requires i < j < |Deduplicated(s)| && b < |s| && s[b] == Deduplicated(s)[j]
    ensures Deduplicated(s)[i] in s[..b]
    decreases |s|
  {
    var init, x := s[..|s| - 1], s[|s| - 1];
    DeduplicatedIsDistinct(init);
    assert Deduplicated(init)[i] in init;
    if b < |init| {
      assert s[b] == init[b];
      if j < |Deduplicated(init)| {
        DeduplicatedInOrder(init, i, j, b);
        assert s[..b] == init[..b];
      }
    }
  }

  // ---------------------------------------------------------------------------
  // What can be held out
  // ---------------------------------------------------------------------------

  predicate EndsIn<T(==)>(v: seq<T>, x: T) {
    v != [] && v[|v| - 1] == x
  }

  function ToTheEnd<T>(v: seq<T>, i: nat): (w: seq<T>)
    requires i < |v|
    ensures multiset(w) == multiset(v) && |w| == |v| && w[|v| - 1] == v[i]
  {
    SwapPermutes(v, i, |v| - 1);
    Swap(v, i, |v| - 1)
  }

  /** Some stream brings any given element to the end, where the splits hold out first. */
  lemma AnyElementCanBeLast<T(!new)>(v: seq<T>, i: nat) returns (d: Stream)
    requires i < |v| <= U64_MAX
    ensures EndsIn(ShuffleFrom(d, 0, v, |v|).0, v[i])
  {
    d := EveryOrderIsDrawn(v, ToTheEnd(v, i), 0);
  }

  /** A split that holds out one row holds out the whole group the shuffle put last, and nothing else. */
  lemma OneRowHoldsOutTheLastGroup(samples: seq<Sample>, gs: seq<seq<Sample>>, key: Sample -> Key,
                                   train: seq<Sample>, eval: seq<Sample>)
    requires Grouped(gs, samples, key) && gs != []
    requires train + eval == Flatten(gs) && NoSharedKey(train, eval, key) && KeepsOrder(train, eval, samples, key)
    requires eval != [] && |eval| - |Select(eval, key, key(eval[0]))| < 1
    ensures eval == gs[|gs| - 1]
  {
    var k, last := key(eval[0]), gs[|gs| - 1];
    assert Uniform(last, key);
    SelectedWhole(eval, key, k);
    SelectNone(train, key, k);
    LastOfFlatten(gs);
    assert (train + eval)[|train + eval| - 1] == eval[|eval| - 1];
  }

  lemma LastOfFlatten(gs: seq<seq<Sample>>)
    requires gs != [] && gs[|gs| - 1] != []
    ensures Flatten(gs) != [] && Flatten(gs)[|Flatten(gs)| - 1] == gs[|gs| - 1][|gs[|gs| - 1]| - 1]
  {
  }

  lemma {:induction false} SelectedAtMost(s: seq<Sample>, key: Sample -> Key, k: Key)
    ensures |Select(s, key, k)| <= |s|
    ensures |Select(s, key, k)| == |s| ==> Select(s, key, k) == s && forall i :: 0 <= i < |s| ==> key(s[i]) == k
  {
    if s != [] {
      SelectedAtMost(s[..|s| - 1], key, k);
    }
  }

  lemma SelectedWhole(s: seq<Sample>, key: Sample -> Key, k: Key)
    requires |s| - |Select(s, key, k)| < 1
    ensures Select(s, key, k) == s && forall i :: 0 <= i < |s| ==> key(s[i]) == k
  {
    SelectedAtMost(s, key, k);
  }

  /** The groups in the order the shuffle puts them. */
  ghost function ShuffledGroups(samples: seq<Sample>, d: Stream, key: Sample -> Key): (gs: seq<seq<Sample>>)
    ensures Grouped(gs, samples, key) && |gs| == |GroupsOf(samples, key)|
  {
    var groups := GroupsOf(samples, key);
    GroupsOfIsGrouped(samples, key);
    ShuffleKeepsGroups(d, 0, groups, |groups|, samples, key);
    ShuffleFrom(d, 0, groups, |groups|).0
  }

  lemma GroupOfSample(groups: seq<seq<Sample>>, samples: seq<Sample>, key: Sample -> Key, b: nat) returns (i: nat)
    requires Grouped(groups, samples, key) && b < |samples|
    ensures i < |groups| && groups[i] == Select(samples, key, key(samples[b]))
  {
    assert HasGroup(groups, key, key(samples[b]));
    i :| 0 <= i < |groups| && HasKey(groups[i], key, key(samples[b]));
  }

  /** A split of at least one sample that asks for one row, without the draws behind its groups. */
  ghost predicate HoldsOutOneRow(samples: seq<Sample>, gs: seq<seq<Sample>>, key: Sample -> Key,
                                 train: seq<Sample>, eval: seq<Sample>)
  {
    && train + eval == Flatten(gs) && NoSharedKey(train, eval, key) && KeepsOrder(train, eval, samples, key)
    && eval != [] && |eval| - |Select(eval, key, key(eval[0]))| < 1
  }

  lemma KeySplitHoldsOut(samples: seq<Sample>, d: Stream, key: Sample -> Key, train: seq<Sample>, eval: seq<Sample>)
    requires samples != [] && IsKeySplit(samples, 1, d, key, train, eval)
    ensures HoldsOutOneRow(samples, ShuffledGroups(samples, d, key), key, train, eval)
  {
  }

  lemma HeldOutIsTheLast(samples: seq<Sample>, gs: seq<seq<Sample>>, key: Sample -> Key,
                         train: seq<Sample>, eval: seq<Sample>)
    requires samples != [] && Grouped(gs, samples, key) && HoldsOutOneRow(samples, gs, key, train, eval)
    ensures EndsIn(gs, eval)
  {
    var i := GroupOfSample(gs, samples, key, 0);
    OneRowHoldsOutTheLastGroup(samples, gs, key, train, eval);
  }

  lemma KeySplitOfTheLast(samples: seq<Sample>, d: Stream, key: Sample -> Key, train: seq<Sample>, eval: seq<Sample>)
    requires samples != [] && IsKeySplit(samples, 1, d, key, train, eval)
    ensures EndsIn(ShuffledGroups(samples, d, key), eval)
  {
    KeySplitHoldsOut(samples, d, key, train, eval);
    HeldOutIsTheLast(samples, ShuffledGroups(samples, d, key), key, train, eval);
  }

  /** Any group can be the one held out: for some draws, every split by key of one row holds out that key. */
  lemma AnyGroupCanBeHeldOut(samples: seq<Sample>, key: Sample -> Key, b: nat) returns (d: Stream)
    requires b < |samples| && |GroupsOf(samples, key)| <= U64_MAX
    ensures forall train, eval :: IsKeySplit(samples, 1, d, key, train, eval) ==>
              eval == Select(samples, key, key(samples[b]))
  {
    d := AnyGroupCanBeLast(samples, key, b);
    forall train, eval | IsKeySplit(samples, 1, d, key, train, eval)
      ensures eval == Select(samples, key, key(samples[b]))
    {
      KeySplitOfTheLast(samples, d, key, train, eval);
    }
  }

  lemma AnyGroupCanBeLast(samples: seq<Sample>, key: Sample -> Key, b: nat) returns (d: Stream)
    requires b < |samples| && |GroupsOf(samples, key)| <= U64_MAX
    ensures EndsIn(ShuffledGroups(samples, d, key), Select(samples, key, key(samples[b])))
  {
    GroupsOfIsGrouped(samples, key);
    var i := GroupOfSample(GroupsOf(samples, key), samples, key, b);
    d := AnyElementCanBeLast(GroupsOf(samples, key), i);
  }

  lemma {:induction false} ShuffleKeepsGroups(d: Stream, s: nat, gs: seq<seq<Sample>>, k: nat,
                                              samples: seq<Sample>, key: Sample -> Key)
    requires Grouped(gs, samples, key) && k <= |gs|
    ensures Grouped(ShuffleFrom(d, s, gs, k).0, samples, key)
    decreases k
  {
    if k > 1 {
      SwapKeeps(gs, samples, key, k - 1, d(s) % k);
      ShuffleKeepsGroups(d, s + 1, Swap(gs, k - 1, d(s) % k), k - 1, samples, key);
    }
  }

  lemma SplitOfTheLast(shuffled: seq<Sample>, train: seq<Sample>, eval: seq<Sample>)
    requires train + eval == shuffled && |eval| == 1
    ensures EndsIn(shuffled, eval[0])
  {
  }

  lemma AnySampleCanBeLast(unique: seq<Sample>, x: Sample) returns (d: Stream)
    requires x in unique && |unique| <= U64_MAX
    ensures EndsIn(ShuffleFrom(d, 0, unique, |unique|).0, x)
  {
    var i :| 0 <= i < |unique| && unique[i] == x;
    d := AnyElementCanBeLast(unique, i);
  }

  /** Any sample can be the one held out. */
  lemma AnySampleCanBeHeldOut(samples: seq<Sample>, x: Sample) returns (d: Stream)
    requires x in samples && |Deduplicated(samples)| <= U64_MAX
    ensures forall train, eval :: IsSplit(samples, 1, d, train, eval) ==> eval == [x]
  {
    var unique := Deduplicated(samples);
    DeduplicatedIsDistinct(samples);
    d := AnySampleCanBeLast(unique, x);
    forall train, eval | IsSplit(samples, 1, d, train, eval)
      ensures eval == [x]
    {
      SplitOfTheLast(ShuffleFrom(d, 0, unique, |unique|).0, train, eval);
    }
  }
}
