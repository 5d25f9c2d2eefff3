/**
 Splitting a dataset into train and eval (`crates/ferrl/src/data.rs`): by a semantic key, whole groups
 at a time, and by whole-sample deduplication. The random generator is an arbitrary stream of draws.
 */
module DataSplit {
  import opened Common
  import opened Shuffles

  type Sample(==, !new)
  type Key(==, !new)

  function Min(a: nat, b: nat): nat {
    if a < b then a else b
  }

  /** The samples with key `k`, in their order. */
  function Select(s: seq<Sample>, key: Sample -> Key, k: Key): seq<Sample> {
    if s == [] then []
    else Select(s[..|s| - 1], key, k) + if key(s[|s| - 1]) == k then [s[|s| - 1]] else []
  }

  function Flatten(groups: seq<seq<Sample>>): seq<Sample> {
    if groups == [] then [] else Flatten(groups[..|groups| - 1]) + groups[|groups| - 1]
  }

  function Rows(groups: seq<seq<Sample>>): nat {
    |Flatten(groups)|
  }

  // ---------------------------------------------------------------------------
  // Groups
  // ---------------------------------------------------------------------------

  predicate Uniform(g: seq<Sample>, key: Sample -> Key) {
    g != [] && forall i :: 0 <= i < |g| ==> key(g[i]) == key(g[0])
  }

  predicate HasKey(g: seq<Sample>, key: Sample -> Key, k: Key) {
    g != [] && key(g[0]) == k
  }

  /** Every group has one key, and no two groups share one. */
  ghost predicate Separated(groups: seq<seq<Sample>>, key: Sample -> Key) {
    && (forall i :: 0 <= i < |groups| ==> Uniform(groups[i], key))
    && (forall i, j :: 0 <= i < j < |groups| ==> key(groups[i][0]) != key(groups[j][0]))
  }

  /** Each group is everything the samples hold under its key, and every sample is in a group. */
  ghost predicate Grouped(groups: seq<seq<Sample>>, samples: seq<Sample>, key: Sample -> Key) {
    && Separated(groups, key)
    && (forall i :: 0 <= i < |groups| ==> groups[i] == Select(samples, key, key(groups[i][0])))
    && Covered(groups, samples, key)
  }

  ghost predicate Covered(groups: seq<seq<Sample>>, samples: seq<Sample>, key: Sample -> Key) {
    forall j :: 0 <= j < |samples| ==> HasGroup(groups, key, key(samples[j]))
  }

  ghost predicate HasGroup(groups: seq<seq<Sample>>, key: Sample -> Key, k: Key) {
    exists i :: 0 <= i < |groups| && HasKey(groups[i], key, k)
  }

  /** The group that has key `k`, if there is one. */
  function GroupOf(groups: seq<seq<Sample>>, key: Sample -> Key, k: Key): (r: Option<nat>)
    ensures r.Some? ==> r.value < |groups| && HasKey(groups[r.value], key, k)
    ensures r.None? ==> forall i :: 0 <= i < |groups| ==> !HasKey(groups[i], key, k)
  {
    if groups == [] then None
    else if HasKey(groups[|groups| - 1], key, k) then Some(|groups| - 1)
    else GroupOf(groups[..|groups| - 1], key, k)
  }

  /** The groups in the order their keys first occur. */
  function GroupsOf(s: seq<Sample>, key: Sample -> Key): seq<seq<Sample>> {
    if s == [] then []
    else
      var groups, x := GroupsOf(s[..|s| - 1], key), s[|s| - 1];
      var at := GroupOf(groups, key, key(x));
      if at.Some? then groups[at.value := groups[at.value] + [x]] else groups + [[x]]
  }

  lemma OneGroupPerKey(groups: seq<seq<Sample>>, key: Sample -> Key, k: Key, i: nat)
    requires Separated(groups, key) && i < |groups| && HasKey(groups[i], key, k)
    ensures GroupOf(groups, key, k) == Some(i)
  {
  }

  lemma {:induction false} SelectIsUniform(s: seq<Sample>, key: Sample -> Key, k: Key)
    ensures forall i :: 0 <= i < |Select(s, key, k)| ==> key(Select(s, key, k)[i]) == k
    ensures forall j :: 0 <= j < |s| && key(s[j]) == k ==> Select(s, key, k) != []
  {
    if s != [] {
      SelectIsUniform(s[..|s| - 1], key, k);
    }
  }

  lemma {:induction false} SelectNone(s: seq<Sample>, key: Sample -> Key, k: Key)
    requires forall j :: 0 <= j < |s| ==> key(s[j]) != k
    ensures Select(s, key, k) == []
  {
    if s != [] {
      SelectNone(s[..|s| - 1], key, k);
    }
  }

  lemma {:induction false} SelectConcat(a: seq<Sample>, b: seq<Sample>, key: Sample -> Key, k: Key)
    ensures Select(a + b, key, k) == Select(a, key, k) + Select(b, key, k)
    decreases |b|
  {
    if b == [] {
      assert a + b == a;
    } else {
      assert (a + b)[..|a + b| - 1] == a + b[..|b| - 1];
      SelectConcat(a, b[..|b| - 1], key, k);
    }
  }

  lemma {:induction false} SelectAll(g: seq<Sample>, key: Sample -> Key, k: Key)
    requires forall i :: 0 <= i < |g| ==> key(g[i]) == key(g[0])
    ensures Select(g, key, k) == if HasKey(g, key, k) then g else []
  {
    if g != [] {
      SelectAll(g[..|g| - 1], key, k);
    }
  }

  lemma SeparatedPrefix(gs: seq<seq<Sample>>, key: Sample -> Key, n: nat)
    requires Separated(gs, key) && n <= |gs|
    ensures Separated(gs[..n], key)
    ensures n < |gs| ==> Uniform(gs[n], key) && forall i :: 0 <= i < n ==> key(gs[i][0]) != key(gs[n][0])
  {
  }

  lemma {:induction false} SelectNothing(gs: seq<seq<Sample>>, key: Sample -> Key, k: Key)
    requires Separated(gs, key) && forall i :: 0 <= i < |gs| ==> !HasKey(gs[i], key, k)
    ensures Select(Flatten(gs), key, k) == []
  {
    if gs != [] {
      SeparatedPrefix(gs, key, |gs| - 1);
      SelectNothing(gs[..|gs| - 1], key, k);
      SelectConcat(Flatten(gs[..|gs| - 1]), gs[|gs| - 1], key, k);
      SelectAll(gs[|gs| - 1], key, k);
    }
  }

  /** A key's samples in the concatenated groups are its group. */
  lemma {:induction false} SelectGroup(gs: seq<seq<Sample>>, key: Sample -> Key, i: nat)
    requires Separated(gs, key) && i < |gs|
    ensures Select(Flatten(gs), key, key(gs[i][0])) == gs[i]
  {
    var n := |gs| - 1;
    var init, last, k := gs[..n], gs[n], key(gs[i][0]);
    SeparatedPrefix(gs, key, n);
    SelectConcat(Flatten(init), last, key, k);
    SelectAll(last, key, k);
    if i == n {
      forall a | 0 <= a < n
        ensures !HasKey(init[a], key, k)
      {
        assert init[a] == gs[a];
      }
      SelectNothing(init, key, k);
    } else {
      SelectGroup(init, key, i);
    }
  }

  // ---------------------------------------------------------------------------
  // The loops
  // ---------------------------------------------------------------------------

  /** The index points each seen key to its group. */
  ghost predicate Indexed(positions: map<Key, nat>, groups: seq<seq<Sample>>, key: Sample -> Key) {
    && (forall k :: k in positions ==> positions[k] < |groups| && HasKey(groups[positions[k]], key, k))
    && (forall i :: 0 <= i < |groups| ==> groups[i] != [] && key(groups[i][0]) in positions)
  }

  /** The loop has placed all samples in `seen`. */
  ghost predicate Placed(positions: map<Key, nat>, groups: seq<seq<Sample>>, seen: seq<Sample>, key: Sample -> Key) {
    groups == GroupsOf(seen, key) && Grouped(groups, seen, key) && Indexed(positions, groups, key)
  }

  lemma PlaceKnown(positions: map<Key, nat>, groups: seq<seq<Sample>>, seen: seq<Sample>, x: Sample, key: Sample -> Key)
    requires Placed(positions, groups, seen, key) && key(x) in positions
    ensures var index := positions[key(x)];
            index < |groups| && Placed(positions, groups[index := groups[index] + [x]], seen + [x], key)
  {
    var index := positions[key(x)];
    GroupsNext(seen, x, key);
    OneGroupPerKey(groups, key, key(x), index);
    PushKeeps(groups, seen, x, key, index);
    IndexStays(positions, groups, x, key, index);
  }

  lemma GroupsNext(seen: seq<Sample>, x: Sample, key: Sample -> Key)
    ensures var groups := GroupsOf(seen, key);
            var at := GroupOf(groups, key, key(x));
            GroupsOf(seen + [x], key) == if at.Some? then groups[at.value := groups[at.value] + [x]] else groups + [[x]]
  {
    assert (seen + [x])[..|seen|] == seen;
  }

  lemma IndexStays(positions: map<Key, nat>, groups: seq<seq<Sample>>, x: Sample, key: Sample -> Key, index: nat)
    requires Indexed(positions, groups, key) && index < |groups|
    ensures Indexed(positions, groups[index := groups[index] + [x]], key)
  {
    var next := groups[index := groups[index] + [x]];
    forall i | 0 <= i < |next|
      ensures next[i] != [] && next[i][0] == groups[i][0]
    {
    }
  }

  lemma PlaceNew(positions: map<Key, nat>, groups: seq<seq<Sample>>, seen: seq<Sample>, x: Sample, key: Sample -> Key)
    requires Placed(positions, groups, seen, key) && key(x) !in positions
    ensures Placed(positions[key(x) := |groups|], groups + [[x]], seen + [x], key)
  {
    GroupsNext(seen, x, key);
    NoGroupWithoutIndex(positions, groups, key, key(x));
    OpenKeeps(groups, seen, x, key);
    IndexKeeps(positions, groups, x, key);
  }

  method GroupByKey(samples: seq<Sample>, key: Sample -> Key) returns (groups: seq<seq<Sample>>)
    ensures groups == GroupsOf(samples, key)
    ensures Grouped(groups, samples, key)
  {
    groups := [];
    var positions: map<Key, nat> := map[];
    for n := 0 to |samples|
      invariant Placed(positions, groups, samples[..n], key)
    {
      var sample := samples[n];
      assert samples[..n] + [sample] == samples[..n + 1];
      if key(sample) in positions {
        PlaceKnown(positions, groups, samples[..n], sample, key);
        var index := positions[key(sample)];
        groups := groups[index := groups[index] + [sample]];
      } else {
        PlaceNew(positions, groups, samples[..n], sample, key);
        positions := positions[key(sample) := |groups|];
        groups := groups + [[sample]];
      }
    }
    assert samples[..|samples|] == samples;
  }

  lemma NoGroupWithoutIndex(positions: map<Key, nat>, groups: seq<seq<Sample>>, key: Sample -> Key, k: Key)
    requires Indexed(positions, groups, key) && k !in positions
    ensures GroupOf(groups, key, k).None? && forall i :: 0 <= i < |groups| ==> key(groups[i][0]) != k
  {
  }

  lemma IndexKeeps(positions: map<Key, nat>, groups: seq<seq<Sample>>, x: Sample, key: Sample -> Key)
    requires Indexed(positions, groups, key)
    ensures Indexed(positions[key(x) := |groups|], groups + [[x]], key)
  {
  }

  lemma SelectNext(seen: seq<Sample>, x: Sample, key: Sample -> Key, k: Key)
    ensures Select(seen + [x], key, k) == Select(seen, key, k) + if key(x) == k then [x] else []
  {
    assert (seen + [x])[..|seen|] == seen;
  }

  lemma PushKeeps(groups: seq<seq<Sample>>, seen: seq<Sample>, x: Sample, key: Sample -> Key, index: nat)
    requires Grouped(groups, seen, key) && index < |groups| && HasKey(groups[index], key, key(x))
    ensures Grouped(groups[index := groups[index] + [x]], seen + [x], key)
  {
    var next := groups[index := groups[index] + [x]];
    forall i | 0 <= i < |next|
      ensures Uniform(next[i], key) && key(next[i][0]) == key(groups[i][0])
      ensures next[i] == Select(seen + [x], key, key(next[i][0]))
    {
      assert Uniform(groups[i], key);
      SelectNext(seen, x, key, key(groups[i][0]));
    }
    forall j | 0 <= j < |seen + [x]|
      ensures HasGroup(next, key, key((seen + [x])[j]))
    {
      assert j < |seen| ==> HasGroup(groups, key, key(seen[j]));
      var i := if j == |seen| then index else
        var i :| 0 <= i < |groups| && HasKey(groups[i], key, key(seen[j])); i;
      assert HasKey(next[i], key, key((seen + [x])[j]));
    }
  }

  /** A key without a group has not been seen. */
  lemma NewKey(groups: seq<seq<Sample>>, seen: seq<Sample>, x: Sample, key: Sample -> Key)
    requires Grouped(groups, seen, key) && forall i :: 0 <= i < |groups| ==> key(groups[i][0]) != key(x)
    ensures Select(seen, key, key(x)) == []
  {
    forall j | 0 <= j < |seen|
      ensures key(seen[j]) != key(x)
    {
      assert HasGroup(groups, key, key(seen[j]));
      var i :| 0 <= i < |groups| && HasKey(groups[i], key, key(seen[j]));
    }
    SelectNone(seen, key, key(x));
  }

  lemma OpenKeeps(groups: seq<seq<Sample>>, seen: seq<Sample>, x: Sample, key: Sample -> Key)
    requires Grouped(groups, seen, key) && forall i :: 0 <= i < |groups| ==> key(groups[i][0]) != key(x)
    ensures Grouped(groups + [[x]], seen + [x], key)
  {
    var next := groups + [[x]];
    NewKey(groups, seen, x, key);
    forall i | 0 <= i < |next|
      ensures Uniform(next[i], key) && next[i] == Select(seen + [x], key, key(next[i][0]))
    {
      SelectNext(seen, x, key, key(next[i][0]));
      if i < |groups| {
        assert Uniform(groups[i], key);
      }
    }
    OpenCovers(groups, seen, x, key);
  }

  lemma OpenCovers(groups: seq<seq<Sample>>, seen: seq<Sample>, x: Sample, key: Sample -> Key)
    requires Covered(groups, seen, key)
    ensures Covered(groups + [[x]], seen + [x], key)
  {
    var next, now := groups + [[x]], seen + [x];
    forall j | 0 <= j < |now|
      ensures HasGroup(next, key, key(now[j]))
    {
      if j == |seen| {
        assert HasKey(next[|groups|], key, key(now[j]));
      } else {
        assert HasGroup(groups, key, key(seen[j]));
        var i :| 0 <= i < |groups| && HasKey(groups[i], key, key(seen[j]));
        assert HasKey(next[i], key, key(now[j]));
      }
    }
  }

  lemma SwapKeeps(groups: seq<seq<Sample>>, samples: seq<Sample>, key: Sample -> Key, i: nat, j: nat)
    requires Grouped(groups, samples, key) && i < |groups| && j < |groups|
    ensures Grouped(Swap(groups, i, j), samples, key)
  {
    var next := Swap(groups, i, j);
    forall s | 0 <= s < |samples|
      ensures HasGroup(next, key, key(samples[s]))
    {
      assert HasGroup(groups, key, key(samples[s]));
      var a :| 0 <= a < |groups| && HasKey(groups[a], key, key(samples[s]));
      var b := if a == i then j else if a == j then i else a;
      assert HasKey(next[b], key, key(samples[s]));
    }
  }

  /** Fisher-Yates over the groups, from the back. */
  method ShuffleGroups(groups: seq<seq<Sample>>, draws: Stream, ghost samples: seq<Sample>, ghost key: Sample -> Key)
    returns (shuffled: seq<seq<Sample>>)
    requires Grouped(groups, samples, key)
    ensures shuffled == ShuffleFrom(draws, 0, groups, |groups|).0
    ensures Grouped(shuffled, samples, key)
  {
    shuffled := groups;
    var drawn := 0;
    var i := |groups|;
    while i > 1
      invariant 0 <= i <= |shuffled| == |groups|
      invariant ShuffleFrom(draws, drawn, shuffled, i) == ShuffleFrom(draws, 0, groups, |groups|)
      invariant Grouped(shuffled, samples, key)
    {
      i := i - 1;
      var j := draws(drawn) % (i + 1);
      drawn := drawn + 1;
      SwapKeeps(shuffled, samples, key, i, j);
      shuffled := Swap(shuffled, i, j);
    }
  }

  // ---------------------------------------------------------------------------
  // What the split conserves
  // ---------------------------------------------------------------------------

  lemma {:induction false} FlattenConcat(a: seq<seq<Sample>>, b: seq<seq<Sample>>)
    ensures Flatten(a + b) == Flatten(a) + Flatten(b)
    decreases |b|
  {
    if b == [] {
      assert a + b == a;
    } else {
      assert (a + b)[..|a + b| - 1] == a + b[..|b| - 1];
      FlattenConcat(a, b[..|b| - 1]);
    }
  }

  lemma FlattenFirst(gs: seq<seq<Sample>>)
    requires gs != []
    ensures Flatten(gs) == gs[0] + Flatten(gs[1..])
  {
    assert [gs[0]] + gs[1..] == gs;
    FlattenConcat([gs[0]], gs[1..]);
    assert Flatten([gs[0]]) == gs[0] by {
      assert [gs[0]][..0] == [];
    }
  }

  lemma {:induction false} InFlatten(gs: seq<seq<Sample>>, x: Sample) returns (i: nat)
    requires x in Flatten(gs)
    ensures i < |gs| && x in gs[i]
  {
    var n := |gs| - 1;
    if x in gs[n] {
      i := n;
    } else {
      i := InFlatten(gs[..n], x);
    }
  }

  /** Every key selects the same samples, in the same order, from the groups and from the input. */
  lemma GroupsSelect(gs: seq<seq<Sample>>, samples: seq<Sample>, key: Sample -> Key, k: Key)
    requires Grouped(gs, samples, key)
    ensures Select(Flatten(gs), key, k) == Select(samples, key, k)
  {
    if i :| 0 <= i < |gs| && HasKey(gs[i], key, k) {
      SelectGroup(gs, key, i);
    } else {
      SelectNothing(gs, key, k);
      forall j | 0 <= j < |samples|
        ensures key(samples[j]) != k
      {
        assert HasGroup(gs, key, key(samples[j]));
      }
      SelectNone(samples, key, k);
    }
  }

  lemma {:induction false} SelectCount(s: seq<Sample>, key: Sample -> Key, x: Sample)
    ensures multiset(Select(s, key, key(x)))[x] == multiset(s)[x]
  {
    if s == [] {
    } else {
      var init, last := s[..|s| - 1], s[|s| - 1];
      assert s == init + [last];
      SelectCount(init, key, x);
    }
  }

  /** What every key selects determines the multiset. */
  lemma SameSelections(s: seq<Sample>, t: seq<Sample>, key: Sample -> Key)
    requires forall k :: Select(s, key, k) == Select(t, key, k)
    ensures multiset(s) == multiset(t)
  {
    forall x: Sample
      ensures multiset(s)[x] == multiset(t)[x]
    {
      assert Select(s, key, key(x)) == Select(t, key, key(x));
      SelectCount(s, key, x);
      SelectCount(t, key, x);
    }
  }

  lemma GroupsConserve(gs: seq<seq<Sample>>, samples: seq<Sample>, key: Sample -> Key)
    requires Grouped(gs, samples, key)
    ensures multiset(Flatten(gs)) == multiset(samples) && Rows(gs) == |samples|
  {
    forall k: Key
      ensures Select(Flatten(gs), key, k) == Select(samples, key, k)
    {
      GroupsSelect(gs, samples, key, k);
    }
    SameSelections(Flatten(gs), samples, key);
    assert |multiset(Flatten(gs))| == |multiset(samples)|;
  }

  predicate NoSharedKey(train: seq<Sample>, eval: seq<Sample>, key: Sample -> Key) {
    forall i, j :: 0 <= i < |train| && 0 <= j < |eval| ==> key(train[i]) != key(eval[j])
  }

  lemma CutSeparates(gs: seq<seq<Sample>>, key: Sample -> Key, cut: nat)
    requires Separated(gs, key) && cut <= |gs|
    ensures NoSharedKey(Flatten(gs[..cut]), Flatten(gs[cut..]), key)
  {
    var train, eval := Flatten(gs[..cut]), Flatten(gs[cut..]);
    forall i, j | 0 <= i < |train| && 0 <= j < |eval|
      ensures key(train[i]) != key(eval[j])
    {
      var a := InFlatten(gs[..cut], train[i]);
      var b := InFlatten(gs[cut..], eval[j]);
      assert Uniform(gs[a], key) && Uniform(gs[cut + b], key);
      assert key(gs[a][0]) != key(gs[cut + b][0]);
    }
  }

  /** The order of the input survives within every key, on whichever side its samples are. */
  ghost predicate KeepsOrder(train: seq<Sample>, eval: seq<Sample>, samples: seq<Sample>, key: Sample -> Key) {
    forall k :: Select(train, key, k) + Select(eval, key, k) == Select(samples, key, k)
  }

  lemma CutJoins(gs: seq<seq<Sample>>, cut: nat)
    requires cut <= |gs|
    ensures Flatten(gs[..cut]) + Flatten(gs[cut..]) == Flatten(gs)
  {
    assert gs[..cut] + gs[cut..] == gs;
    FlattenConcat(gs[..cut], gs[cut..]);
  }

  lemma JoinKeepsOrder(gs: seq<seq<Sample>>, samples: seq<Sample>, key: Sample -> Key, train: seq<Sample>,
                       eval: seq<Sample>)
    requires Grouped(gs, samples, key) && train + eval == Flatten(gs)
    ensures KeepsOrder(train, eval, samples, key)
  {
    forall k: Key
      ensures Select(train, key, k) + Select(eval, key, k) == Select(samples, key, k)
    {
      GroupsSelect(gs, samples, key, k);
      SelectConcat(train, eval, key, k);
    }
  }

  lemma CutKeepsOrder(gs: seq<seq<Sample>>, samples: seq<Sample>, key: Sample -> Key, cut: nat)
    requires Grouped(gs, samples, key) && cut <= |gs|
    ensures KeepsOrder(Flatten(gs[..cut]), Flatten(gs[cut..]), samples, key)
    ensures multiset(Flatten(gs[..cut])) + multiset(Flatten(gs[cut..])) == multiset(samples)
    ensures Flatten(gs[..cut]) + Flatten(gs[cut..]) == Flatten(gs)
  {
    CutJoins(gs, cut);
    GroupsConserve(gs, samples, key);
    JoinKeepsOrder(gs, samples, key, Flatten(gs[..cut]), Flatten(gs[cut..]));
  }

  /** Where to cut so that the groups behind reach the target, and no more than needed. */
  method CutForTarget(gs: seq<seq<Sample>>, target: nat) returns (split: nat)
    requires target <= Rows(gs)
    ensures split <= |gs| && Rows(gs[split..]) >= target
    ensures split < |gs| ==> Rows(gs[split + 1..]) < target
  {
    var evalGroups := 0;
    var heldOut := 0;
    assert gs[|gs|..] == [];
    while evalGroups < |gs|
      invariant evalGroups <= |gs| && heldOut == Rows(gs[|gs| - evalGroups..])
      invariant evalGroups > 0 ==> Rows(gs[|gs| - evalGroups + 1..]) < target
    {
      if heldOut >= target {
        break;
      }
      ghost var tail := gs[|gs| - evalGroups - 1..];
      FlattenFirst(tail);
      assert tail[1..] == gs[|gs| - evalGroups..];
      heldOut := heldOut + |gs[|gs| - evalGroups - 1]|;
      evalGroups := evalGroups + 1;
    }
    assert evalGroups == |gs| ==> gs[|gs| - evalGroups..] == gs;
    split := |gs| - evalGroups;
  }

  /**
   No key on both sides, every sample on one of them, the fewest whole groups from the back of the shuffle that
   reach the target.
   */
  ghost predicate IsKeySplit(samples: seq<Sample>, evalN: nat, draws: Stream, key: Sample -> Key,
                             train: seq<Sample>, eval: seq<Sample>)
  {
    && multiset(train) + multiset(eval) == multiset(samples)
    && NoSharedKey(train, eval, key)
    && KeepsOrder(train, eval, samples, key)
    && |eval| >= Min(evalN, |samples|)
    && (eval != [] ==> |eval| - |Select(eval, key, key(eval[0]))| < Min(evalN, |samples|))
    && var groups := GroupsOf(samples, key);
       train + eval == Flatten(ShuffleFrom(draws, 0, groups, |groups|).0)
  }

  method TrainEvalSplitByKey(samples: seq<Sample>, evalN: nat, draws: Stream, key: Sample -> Key)
    returns (train: seq<Sample>, eval: seq<Sample>)
    ensures IsKeySplit(samples, evalN, draws, key, train, eval)
  {
    var groups := GroupByKey(samples, key);
    groups := ShuffleGroups(groups, draws, samples, key);
    train, eval := HoldOut(groups, evalN, samples, key);
  }

  /** Hold out whole groups from the back, and flatten both sides. */
  method HoldOut(groups: seq<seq<Sample>>, evalN: nat, ghost samples: seq<Sample>, ghost key: Sample -> Key)
    returns (train: seq<Sample>, eval: seq<Sample>)
    requires Grouped(groups, samples, key)
    ensures multiset(train) + multiset(eval) == multiset(samples) && train + eval == Flatten(groups)
    ensures NoSharedKey(train, eval, key) && KeepsOrder(train, eval, samples, key)
    ensures |eval| >= Min(evalN, |samples|)
    ensures eval != [] ==> |eval| - |Select(eval, key, key(eval[0]))| < Min(evalN, |samples|)
  {
    GroupsConserve(groups, samples, key);
    var split := CutForTarget(groups, Min(evalN, Rows(groups)));
    train, eval := Flatten(groups[..split]), Flatten(groups[split..]);
    CutKeepsOrder(groups, samples, key, split);
    CutSeparates(groups, key, split);
    LastGroupLeads(groups, key, split);
  }

  /** The group added last is the first one in eval. */
  lemma LastGroupLeads(gs: seq<seq<Sample>>, key: Sample -> Key, split: nat)
    requires Separated(gs, key) && split <= |gs|
    ensures var eval := Flatten(gs[split..]);
            && (eval != [] <==> split < |gs|)
            && (split < |gs| ==> |eval| - |Select(eval, key, key(eval[0]))| == Rows(gs[split + 1..]))
  {
    var tail := gs[split..];
    if split < |gs| {
      FlattenFirst(tail);
      assert tail[1..] == gs[split + 1..];
      assert Uniform(gs[split], key);
      SelectGroup(tail, key, 0);
    }
  }

  // ---------------------------------------------------------------------------
  // The split of whole samples
  // ---------------------------------------------------------------------------

  predicate Distinct(s: seq<Sample>) {
    forall i, j :: 0 <= i < j < |s| ==> s[i] != s[j]
  }

  /** Keep the first occurrence of each sample. */
  function Deduplicated(s: seq<Sample>): seq<Sample> {
    if s == [] then []
    else
      var init := Deduplicated(s[..|s| - 1]);
      if s[|s| - 1] in s[..|s| - 1] then init else init + [s[|s| - 1]]
  }

  lemma {:induction false} DeduplicatedIsDistinct(s: seq<Sample>)
    ensures Distinct(Deduplicated(s))
    ensures forall x :: x in Deduplicated(s) <==> x in s
  {
    if s != [] {
      DeduplicatedIsDistinct(s[..|s| - 1]);
      assert s == s[..|s| - 1] + [s[|s| - 1]];
    }
  }

  method Deduplicate(samples: seq<Sample>) returns (unique: seq<Sample>)
    ensures unique == Deduplicated(samples)
  {
    var seen: set<Sample> := {};
    unique := [];
    for n := 0 to |samples|
      invariant unique == Deduplicated(samples[..n])
      invariant forall x :: x in seen <==> x in samples[..n]
    {
      assert samples[..n + 1][..n] == samples[..n];
      if samples[n] !in seen {
        seen := seen + {samples[n]};
        unique := unique + [samples[n]];
      }
    }
    assert samples[..|samples|] == samples;
  }

  lemma SwapDistinct(s: seq<Sample>, i: nat, j: nat)
    requires Distinct(s) && i < |s| && j < |s|
    ensures Distinct(Swap(s, i, j))
    ensures multiset(Swap(s, i, j)) == multiset(s)
  {
  }

  /**
   No identical sample on both sides, nothing lost but duplicates, and exactly the requested size if there
   are enough.
   */
  ghost predicate IsSplit(samples: seq<Sample>, evalN: nat, draws: Stream, train: seq<Sample>, eval: seq<Sample>) {
    && Distinct(train + eval)
    && multiset(train + eval) == multiset(Deduplicated(samples))
    && |eval| == Min(evalN, |Deduplicated(samples)|)
    && train + eval == ShuffleFrom(draws, 0, Deduplicated(samples), |Deduplicated(samples)|).0
  }

  method TrainEvalSplit(samples: seq<Sample>, evalN: nat, draws: Stream) returns (train: seq<Sample>, eval: seq<Sample>)
    ensures IsSplit(samples, evalN, draws, train, eval)
  {
    var unique := Deduplicate(samples);
    DeduplicatedIsDistinct(samples);
    var drawn := 0;
    var i := |unique|;
    while i > 1
      invariant 0 <= i <= |unique| == |Deduplicated(samples)|
      invariant ShuffleFrom(draws, drawn, unique, i) ==
                  ShuffleFrom(draws, 0, Deduplicated(samples), |Deduplicated(samples)|)
      invariant Distinct(unique) && multiset(unique) == multiset(Deduplicated(samples))
    {
      i := i - 1;
      var j := draws(drawn) % (i + 1);
      drawn := drawn + 1;
      SwapDistinct(unique, i, j);
      unique := Swap(unique, i, j);
    }
    assert |multiset(unique)| == |multiset(Deduplicated(samples))|;
    var n := Min(evalN, |unique|);
    eval := unique[|unique| - n..];
    train := unique[..|unique| - n];
    assert train + eval == unique;
  }
}
