/**
 The state behind a rendezvous in its own imperative form (`crates/ferrl/src/comm.rs`): the set-once
 poison cell, the slot table with its arrival and departure counts, and the loops that sum the
 contributions. The methods are tied to the functions the state machine is built from.
 */
module RoundTable {
  import opened Common
  import opened Rendezvous

  class PoisonCell {
    var slot: Option<Message>

    constructor ()
      ensures slot.None?
    {
      slot := None;
    }

    /** Record the first failure. */
    method Set(m: Message)
      modifies this
      ensures slot == SetPoison(old(slot), m)
    {
      if slot.None? {
        slot := Some(m);
      }
    }
  }

  /** The round after its last arrival: drained, with the outcome of exactly the deposited values. */
  function Decided(q: Round, d: nat, c: Combiner): Round
    requires Full(q.slots)
  {
    Drained(q).(outcome := Some(c(d, Values(q.slots))))
  }

  class Table {
    const slots: array<Option<Value>>
    var arrived: nat
    var departed: nat
    var outcome: Option<Outcome>

    ghost function State(): Round
      reads this, slots
    {
      Round(slots[..], arrived, departed, outcome)
    }

    constructor (world: nat)
      ensures fresh(slots) && State() == FreshRound(world)
    {
      slots := new Option<Value>[world](i => None);
      arrived, departed, outcome := 0, 0, None;
    }

    /** Take every contribution out of the table, in rank order. */
    method TakeAll() returns (vals: seq<Value>)
      requires Full(slots[..])
      modifies slots
      ensures slots[..] == Empty(slots.Length)
      ensures vals == Values(old(slots[..]))
    {
      ghost var was := slots[..];
      vals := [];
      for i := 0 to slots.Length
        invariant |vals| == i
        invariant forall j :: 0 <= j < i ==> slots[j].None? && vals[j] == was[j].value
        invariant forall j :: i <= j < slots.Length ==> slots[j] == was[j]
      {
        assert slots[i] == was[i];
        vals := vals + [slots[i].value];
        slots[i] := None;
      }
    }

    /** Deposit; the last arrival combines under the same lock and poisons the world if that fails. */
    method Deposit(d: nat, rank: nat, value: Value, c: Combiner, poison: PoisonCell) returns (last: bool)
      requires rank < slots.Length && slots[rank].None?
      requires arrived == |Depositors(slots[..])|
      modifies this, slots, poison
      ensures last <==> old(State()).arrived + 1 == slots.Length
      ensures var q := Deposited(old(State()), rank, value);
              if last then
                && Full(q.slots) && State() == Decided(q, d, c)
                && poison.slot == match State().outcome.value
                                  case Sum(_) => old(poison.slot)
                                  case Bad(m) => SetPoison(old(poison.slot), m)
              else
                State() == q && poison.slot == old(poison.slot) && !Full(q.slots)
    {
      DepositCount(slots[..], rank, value);
      slots[rank] := Some(value);
      arrived := arrived + 1;
      last := arrived == slots.Length;
      ghost var q := Deposited(old(State()), rank, value);
      assert slots[..] == q.slots;
      FullCount(q.slots);
      if last {
        var vals := TakeAll();
        var o := c(d, vals);
        if o.Bad? {
          poison.Set(o.msg);
        }
        outcome := Some(o);
      }
    }

    /** Collect the outcome; the last departure opens the table for the next round. */
    method Collect() returns (o: Outcome)
      requires outcome.Some?
      modifies this
      ensures Some(o) == old(outcome)
      ensures State() == AfterCollect(old(State()), slots.Length)
    {
      o := outcome.value;
      departed := departed + 1;
      if departed == slots.Length {
        arrived, departed, outcome := 0, 0, None;
      }
    }
  }

  lemma LastArrivalCombines(w: World, r: nat, c: Combiner)
    requires Inv(w, c) && Can(w, r, Look(false)) && w.ranks[r].stage.OpenChecked?
    requires w.sides[w.ranks[r].d].round.outcome.None? && w.sides[w.ranks[r].d].round.arrived + 1 == |w.ranks|
    ensures Can(DoDeposit(w, r), r, Combine)
  {
    var d := w.ranks[r].d;
    DepositKeeps(w, r, c);
    var x := DoDeposit(w, r);
    assert SideInv(x.ranks, d, x.sides[d], x.poison, c) && StageInv(x.ranks[r], x.sides[d], |x.ranks|, x.poison, c);
    OnlyOnePublishes(x.ranks, d, x.sides[d], r);
  }

  lemma CombineThenPublish(x: World, r: nat, c: Combiner)
    requires Can(x, r, Combine)
    ensures Can(DoCombine(x, r, c), r, Publish)
    ensures var d := x.ranks[r].d; DoPublish(DoCombine(x, r, c), r).sides[d].round == Decided(x.sides[d].round, d, c)
  {
  }

  /**
   The state machine splits a last arrival into depositing, combining and publishing; together they are the
   method's effect.
   */
  lemma LastArrivalDecides(w: World, r: nat, c: Combiner)
    requires Inv(w, c) && Can(w, r, Look(false)) && w.ranks[r].stage.OpenChecked?
    requires w.sides[w.ranks[r].d].round.outcome.None? && w.sides[w.ranks[r].d].round.arrived + 1 == |w.ranks|
    ensures var d := w.ranks[r].d;
            var x := DoDeposit(w, r);
            && Can(x, r, Combine) && Can(DoCombine(x, r, c), r, Publish)
            && var q := Deposited(w.sides[d].round, r, w.ranks[r].v);
               Full(q.slots) && DoPublish(DoCombine(x, r, c), r).sides[d].round == Decided(q, d, c)
  {
    LastArrivalCombines(w, r, c);
    CombineThenPublish(DoDeposit(w, r), r, c);
  }

  // ---------------------------------------------------------------------------
  // Summing the contributions
  // ---------------------------------------------------------------------------

  type Data(==, !new)

  datatype Tensor = Tensor(shape: seq<nat>, dtype: nat, data: Data)

  /** Element-wise addition, which may fail. */
  type Adder = (Data, Data) -> Option<Data>

  datatype Result<+T, +E> = Ok(value: T) | Err(error: E)

  datatype SumError =
    | CountMismatch(expected: nat, rank: nat, got: nat)
    | SpecMismatch(tensor: nat, rank: nat)
    | AddFailed(tensor: nat)

  predicate SameSpec(a: Tensor, b: Tensor) {
    a.shape == b.shape && a.dtype == b.dtype
  }

  /** The sum of the first `k` ranks' contributions, added left to right in rank order. */
  function RankSum(vals: seq<Tensor>, k: nat, add: Adder): Option<Data>
    requires 0 < k <= |vals|
  {
    if k == 1 then Some(vals[0].data)
    else
      var before := RankSum(vals, k - 1, add);
      if before.None? then None else add(before.value, vals[k - 1].data)
  }

  /** Running totals: the first is rank 0's contribution, and each further rank adds its own to the right. */
  predicate RunningTotals(vals: seq<Tensor>, totals: seq<Data>, add: Adder) {
    && 0 < |totals| <= |vals| && totals[0] == vals[0].data
    && forall r :: 0 < r < |totals| ==> add(totals[r - 1], vals[r].data) == Some(totals[r])
  }

  lemma {:induction false} TotalsGiveTheSum(vals: seq<Tensor>, totals: seq<Data>, add: Adder)
    requires RunningTotals(vals, totals, add)
    ensures RankSum(vals, |totals|, add) == Some(totals[|totals| - 1])
    decreases |totals|
  {
    if |totals| > 1 {
      var before := totals[..|totals| - 1];
      TotalsGiveTheSum(vals, before, add);
      assert add(before[|before| - 1], vals[|before|].data) == Some(totals[|before|]);
    }
  }

  lemma {:induction false} SumHasTotals(vals: seq<Tensor>, k: nat, add: Adder) returns (totals: seq<Data>)
    requires 0 < k <= |vals| && RankSum(vals, k, add).Some?
    ensures |totals| == k && RunningTotals(vals, totals, add) && totals[k - 1] == RankSum(vals, k, add).value
    decreases k
  {
    if k == 1 {
      totals := [vals[0].data];
    } else {
      var before := SumHasTotals(vals, k - 1, add);
      totals := before + [RankSum(vals, k, add).value];
    }
  }

  /** The sum of all ranks is the last of their running totals, and exists exactly if each addition works. */
  lemma SumIsTheLastTotal(vals: seq<Tensor>, k: nat, add: Adder, x: Data)
    requires 0 < k <= |vals|
    ensures RankSum(vals, k, add) == Some(x) <==>
              exists totals :: |totals| == k && RunningTotals(vals, totals, add) && totals[k - 1] == x
  {
    if RankSum(vals, k, add) == Some(x) {
      var totals := SumHasTotals(vals, k, add);
    }
    if totals :| |totals| == k && RunningTotals(vals, totals, add) && totals[k - 1] == x {
      TotalsGiveTheSum(vals, totals, add);
    }
  }

  /** Tensor `i` of every rank. */
  function Column(vals: seq<seq<Tensor>>, i: nat): seq<Tensor>
    requires forall r :: 0 <= r < |vals| ==> i < |vals[r]|
  {
    seq(|vals|, r requires 0 <= r < |vals| => vals[r][i])
  }

  /** Rank `r` is the first to contradict rank 0 about tensor `i`, and until then the additions worked. */
  predicate FirstSpecMismatch(col: seq<Tensor>, r: nat, add: Adder) {
    && 0 < r < |col| && !SameSpec(col[r], col[0])
    && (forall q :: 0 <= q < r ==> SameSpec(col[q], col[0]))
    && RankSum(col, r, add).Some?
  }

  predicate Summable(col: seq<Tensor>, add: Adder)
    requires |col| > 0
  {
    (forall r :: 0 <= r < |col| ==> SameSpec(col[r], col[0])) && RankSum(col, |col|, add).Some?
  }

  function SummedTo(col: seq<Tensor>, add: Adder): Tensor
    requires |col| > 0 && Summable(col, add)
  {
    Tensor(col[0].shape, col[0].dtype, RankSum(col, |col|, add).value)
  }

  lemma {:induction false} FailedSumStaysFailed(col: seq<Tensor>, k: nat, n: nat, add: Adder)
    requires 0 < k <= n <= |col| && RankSum(col, k, add).None?
    ensures RankSum(col, n, add).None?
    decreases n
  {
    if k < n {
      FailedSumStaysFailed(col, k, n - 1, add);
    }
  }

  method SumOneSlot(vals: seq<seq<Tensor>>, i: nat, add: Adder) returns (res: Result<Tensor, SumError>)
    requires |vals| > 0 && forall r :: 0 <= r < |vals| ==> i < |vals[r]|
    ensures res.Ok? <==> Summable(Column(vals, i), add)
    ensures res.Ok? ==> res.value == SummedTo(Column(vals, i), add)
    ensures res.Err? ==>
              || (res.error.SpecMismatch? && res.error.tensor == i
                  && FirstSpecMismatch(Column(vals, i), res.error.rank, add))
              || (res.error == AddFailed(i) && RankSum(Column(vals, i), |vals|, add).None?)
  {
    ghost var col := Column(vals, i);
    var acc := vals[0][i];
    for r := 1 to |vals|
      invariant forall q :: 0 <= q < r ==> SameSpec(col[q], col[0])
      invariant SameSpec(acc, col[0]) && RankSum(col, r, add) == Some(acc.data)
    {
      var t := vals[r][i];
      assert t == col[r];
      if t.shape != vals[0][i].shape || t.dtype != vals[0][i].dtype {
        return Err(SpecMismatch(i, r));
      }
      var sum := add(acc.data, t.data);
      if sum.None? {
        FailedSumStaysFailed(col, r + 1, |vals|, add);
        return Err(AddFailed(i));
      }
      acc := acc.(data := sum.value);
    }
    return Ok(acc);
  }

  predicate SameCounts(vals: seq<seq<Tensor>>)
    requires |vals| > 0
  {
    forall r :: 0 <= r < |vals| ==> |vals[r]| == |vals[0]|
  }

  /**
   All or nothing: either every rank brought the same number of tensors, all of matching shape and
   dtype, and the result is each column's sum in rank order, or the first disagreement is reported.
   */
  method SumTensorSlots(vals: seq<seq<Tensor>>, add: Adder) returns (res: Result<seq<Tensor>, SumError>)
    requires |vals| > 0
    ensures res.Ok? <==> SameCounts(vals) && forall i :: 0 <= i < |vals[0]| ==> Summable(Column(vals, i), add)
    ensures res.Ok? ==>
              && |res.value| == |vals[0]|
              && forall i :: 0 <= i < |vals[0]| ==> res.value[i] == SummedTo(Column(vals, i), add)
    ensures res.Err? && !SameCounts(vals) ==>
              && res.error.CountMismatch? && 0 < res.error.rank < |vals|
              && res.error == CountMismatch(|vals[0]|, res.error.rank, |vals[res.error.rank]|)
              && |vals[res.error.rank]| != |vals[0]| && forall q :: 0 <= q < res.error.rank ==> |vals[q]| == |vals[0]|
    ensures res.Err? && SameCounts(vals) ==>
              && !res.error.CountMismatch? && res.error.tensor < |vals[0]|
                && !Summable(Column(vals, res.error.tensor), add)
              && forall i :: 0 <= i < res.error.tensor ==> Summable(Column(vals, i), add)
  {
    var n := |vals[0]|;
    for r := 0 to |vals|
      invariant forall q :: 0 <= q < r ==> |vals[q]| == n
    {
      if |vals[r]| != n {
        return Err(CountMismatch(n, r, |vals[r]|));
      }
    }
    var sums := [];
    for i := 0 to n
      invariant |sums| == i
      invariant forall j :: 0 <= j < i ==> Summable(Column(vals, j), add) && sums[j] == SummedTo(Column(vals, j), add)
    {
      var one := SumOneSlot(vals, i, add);
      if one.Err? {
        return Err(one.error);
      }
      sums := sums + [one.value];
    }
    return Ok(sums);
  }
}
