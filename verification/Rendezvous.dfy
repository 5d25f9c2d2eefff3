/**
 The N-rank rendezvous behind the in-process collectives (`crates/ferrl/src/comm.rs`, `PoisonCell`,
 `Round`, `Rendezvous::exchange` and its wait loops), as a state machine.

 Several rendezvous share one poison cell, as the tensor and the scalar one of a world do. One
 transition is one step that other threads cannot see inside of: taking or leaving a round lock, one
 read or write of the poison cell, or a stretch of code under a held round lock that touches nothing
 else. In particular a round lock stays held between reading the poison cell and depositing, so
 another rendezvous can poison the world in between. A wait may time out whenever it is reached.
 */
module Rendezvous {
  import opened Common

  type Value(==, !new)
  type Message = string

  const TIMEOUT: Message := "a peer rank did not reach the collective in time"

  /** What a round publishes: the combined value or the reason it could not be combined. */
  datatype Outcome = Sum(v: Value) | Bad(msg: Message)

  /** The combiner of each rendezvous, applied to the deposits in rank order. */
  type Combiner = (nat, seq<Value>) -> Outcome

  /** How one call returns. */
  datatype Reply = Collected(o: Outcome) | TimedOut(msg: Message) | PoisonedBy(msg: Message)

  /** One finished call; `round` is the round it deposited in, if it got that far. */
  datatype Record = Record(rank: nat, d: nat, v: Value, round: Option<nat>, reply: Reply)

  /** Where a rank stands inside `exchange` on rendezvous `d` with value `v`. */
  datatype Stage =
    | Enter          // passed the entry check, about to take the round lock
    | OpenTop        // holds the lock at the top of `wait_round_open`
    | OpenChecked    // holds it, poison was clear
    | OpenSleep      // waits for the previous round to drain
    | Combining      // holds it, deposited last
    | Publishing(o: Outcome)
    | WaitTop        // holds it at the top of `wait_outcome`
    | WaitChecked    // holds it, no outcome yet, poison was clear
    | WaitSleep      // waits for the last arrival
    | Leaving        // holds it, the outcome is there

  datatype Place = Idle | At(d: nat, v: Value, stage: Stage)

  /** The state under the round lock. */
  datatype Round = Round(slots: seq<Option<Value>>, arrived: nat, departed: nat, outcome: Option<Outcome>)

  /**
   One rendezvous: its round, its lock, the ranks its condition variable has notified since they went
   to sleep, and for the proofs the number of the current round, everything ever deposited and the
   ranks that already returned from the current round.
   */
  datatype Side = Side(round: Round, lock: Option<nat>, woken: set<nat>,
                       number: nat, deposits: seq<seq<Option<Value>>>, gone: set<nat>)

  datatype World = World(ranks: seq<Place>, sides: seq<Side>, poison: Option<Message>, log: seq<Record>)

  // ---------------------------------------------------------------------------
  // The operations on a round
  // ---------------------------------------------------------------------------

  function Empty(n: nat): seq<Option<Value>> {
    seq(n, i => None)
  }

  function FreshRound(n: nat): Round {
    Round(Empty(n), 0, 0, None)
  }

  function Deposited(q: Round, r: nat, v: Value): Round
    requires r < |q.slots|
  {
    q.(slots := q.slots[r := Some(v)], arrived := q.arrived + 1)
  }

  predicate Full(slots: seq<Option<Value>>) {
    forall i :: 0 <= i < |slots| ==> slots[i].Some?
  }

  /** The deposits in rank order. */
  function Values(slots: seq<Option<Value>>): seq<Value>
    requires Full(slots)
  {
    seq(|slots|, i requires 0 <= i < |slots| => slots[i].value)
  }

  function Drained(q: Round): Round {
    q.(slots := Empty(|q.slots|))
  }

  /** The last departure opens the next round. */
  function AfterCollect(q: Round, n: nat): Round {
    if q.departed + 1 == n then Round(q.slots, 0, 0, None) else q.(departed := q.departed + 1)
  }

  /** The first failure is recorded, later ones keep the original message. */
  function SetPoison(p: Option<Message>, m: Message): Option<Message> {
    if p.None? then Some(m) else p
  }

  // ---------------------------------------------------------------------------
  // Transitions
  // ---------------------------------------------------------------------------

  datatype Action =
    | Begin(d: nat, v: Value)  // call `exchange`: the entry check of the poison cell
    | Lock                     // take the round lock, first or after a wait
    | ReadPoison               // one look at the poison cell from a wait loop
    | Look(expired: bool)      // act on it: deposit, sleep or time out
    | Combine
    | Publish
    | Collect

  function Ranks(n: nat): (s: set<nat>)
    ensures |s| == n
    ensures forall i :: i in s <==> 0 <= i < n
  {
    if n == 0 then {} else Ranks(n - 1) + {n - 1}
  }

  predicate Stands(w: World, r: nat) {
    r < |w.ranks| && w.ranks[r].At? && w.ranks[r].d < |w.sides|
  }

  predicate Sleeping(g: Stage) {
    g.OpenSleep? || g.WaitSleep?
  }

  predicate HasSeat(side: Side, r: nat) {
    r < |side.round.slots| && side.number < |side.deposits| && r < |side.deposits[side.number]|
  }

  predicate Can(w: World, r: nat, a: Action) {
    match a
    case Begin(d, v) => r < |w.ranks| && w.ranks[r].Idle? && d < |w.sides|
    case Lock =>
      Stands(w, r) && (w.ranks[r].stage.Enter? || Sleeping(w.ranks[r].stage)) && w.sides[w.ranks[r].d].lock.None?
    case ReadPoison => Stands(w, r) && (w.ranks[r].stage.OpenTop? || w.ranks[r].stage.WaitTop?)
    case Look(_) =>
      Stands(w, r) && (w.ranks[r].stage.OpenChecked? || w.ranks[r].stage.WaitChecked?)
        && HasSeat(w.sides[w.ranks[r].d], r)
    case Combine => Stands(w, r) && w.ranks[r].stage.Combining? && Full(w.sides[w.ranks[r].d].round.slots)
    case Publish => Stands(w, r) && w.ranks[r].stage.Publishing?
    case Collect => Stands(w, r) && w.ranks[r].stage.Leaving? && w.sides[w.ranks[r].d].round.outcome.Some?
  }

  function Move(w: World, r: nat, g: Stage): World
    requires Stands(w, r)
  {
    w.(ranks := w.ranks[r := w.ranks[r].(stage := g)])
  }

  function WithSide(w: World, d: nat, side: Side): World
    requires d < |w.sides|
  {
    w.(sides := w.sides[d := side])
  }

  /** Return from the call: release the lock and record the reply. */
  function Return(w: World, r: nat, deposited: bool, reply: Reply): World
    requires Stands(w, r)
  {
    var p := w.ranks[r];
    var side := w.sides[p.d];
    var round := if deposited then Some(side.number) else None;
    WithSide(w, p.d, side.(lock := None))
    .(ranks := w.ranks[r := Idle], log := w.log + [Record(r, p.d, p.v, round, reply)])
  }

  /** Return without an outcome after having deposited. */
  function Abandon(w: World, r: nat, reply: Reply): World
    requires Stands(w, r)
  {
    var d := w.ranks[r].d;
    Return(WithSide(w, d, w.sides[d].(gone := w.sides[d].gone + {r})), r, true, reply)
  }

  function Notify(w: World, d: nat): World
    requires d < |w.sides|
  {
    WithSide(w, d, w.sides[d].(woken := Ranks(|w.ranks|)))
  }

  /** Release the lock and sleep on the condition variable. */
  function Sleep(w: World, r: nat, g: Stage): World
    requires Stands(w, r)
  {
    var d := w.ranks[r].d;
    Move(WithSide(w, d, w.sides[d].(lock := None, woken := w.sides[d].woken - {r})), r, g)
  }

  function DoBegin(w: World, r: nat, d: nat, v: Value): World
    requires Can(w, r, Begin(d, v))
  {
    if w.poison.Some?
    then w.(log := w.log + [Record(r, d, v, None, PoisonedBy(w.poison.value))])
    else w.(ranks := w.ranks[r := At(d, v, Enter)])
  }

  function DoLock(w: World, r: nat): World
    requires Can(w, r, Lock)
  {
    var d := w.ranks[r].d;
    Move(WithSide(w, d, w.sides[d].(lock := Some(r))), r, if w.ranks[r].stage.WaitSleep? then WaitTop else OpenTop)
  }

  function DoReadPoison(w: World, r: nat): World
    requires Can(w, r, ReadPoison)
  {
    var side := w.sides[w.ranks[r].d];
    if w.ranks[r].stage.OpenTop? then
      if w.poison.Some? then Return(w, r, false, PoisonedBy(w.poison.value)) else Move(w, r, OpenChecked)
    else if side.round.outcome.Some? then Move(w, r, Leaving)
    else if w.poison.Some? then Abandon(w, r, PoisonedBy(w.poison.value))
    else Move(w, r, WaitChecked)
  }

  function Poisoned(w: World, m: Message): World {
    w.(poison := SetPoison(w.poison, m))
  }

  function DoDeposit(w: World, r: nat): World
    requires Can(w, r, Look(false)) && w.ranks[r].stage.OpenChecked?
  {
    var d := w.ranks[r].d;
    var v := w.ranks[r].v;
    var side := w.sides[d];
    var now := side.(round := Deposited(side.round, r, v),
                     deposits := side.deposits[side.number := side.deposits[side.number][r := Some(v)]]);
    Move(WithSide(w, d, now), r, if side.round.arrived + 1 == |w.ranks| then Combining else WaitTop)
  }

  function DoLook(w: World, r: nat, expired: bool): World
    requires Can(w, r, Look(expired))
  {
    var d := w.ranks[r].d;
    if w.ranks[r].stage.OpenChecked? then
      if w.sides[d].round.outcome.None? then DoDeposit(w, r)
      else if expired then Return(Notify(Poisoned(w, TIMEOUT), d), r, false, TimedOut(TIMEOUT))
      else Sleep(w, r, OpenSleep)
    else if expired then Abandon(Notify(Poisoned(w, TIMEOUT), d), r, TimedOut(TIMEOUT))
    else Sleep(w, r, WaitSleep)
  }

  function DoCombine(w: World, r: nat, c: Combiner): World
    requires Can(w, r, Combine)
  {
    var d := w.ranks[r].d;
    var side := w.sides[d];
    var o := c(d, Values(side.round.slots));
    var x := Move(WithSide(w, d, side.(round := Drained(side.round))), r, Publishing(o));
    if o.Bad? then Poisoned(x, o.msg) else x
  }

  function DoPublish(w: World, r: nat): World
    requires Can(w, r, Publish)
  {
    var d := w.ranks[r].d;
    var side := w.sides[d];
    Move(Notify(WithSide(w, d, side.(round := side.round.(outcome := Some(w.ranks[r].stage.o)))), d), r, Leaving)
  }

  function DoCollect(w: World, r: nat): World
    requires Can(w, r, Collect)
  {
    var d := w.ranks[r].d;
    var side := w.sides[d];
    var n := |w.ranks|;
    var o := side.round.outcome.value;
    var x := Return(w, r, true, Collected(o));
    var left := x.sides[d].(round := AfterCollect(side.round, n));
    if side.round.departed + 1 == n
    then Notify(WithSide(x, d, left.(number := side.number + 1, deposits := side.deposits + [Empty(n)], gone := {})), d)
    else WithSide(x, d, left.(gone := side.gone + {r}))
  }

  function Do(w: World, r: nat, a: Action, c: Combiner): World
    requires Can(w, r, a)
  {
    match a
    case Begin(d, v) => DoBegin(w, r, d, v)
    case Lock => DoLock(w, r)
    case ReadPoison => DoReadPoison(w, r)
    case Look(expired) => DoLook(w, r, expired)
    case Combine => DoCombine(w, r, c)
    case Publish => DoPublish(w, r)
    case Collect => DoCollect(w, r)
  }

  function FreshSide(n: nat): Side {
    Side(FreshRound(n), None, {}, 0, [Empty(n)], {})
  }

  /** A fresh world of `n` ranks and `m` rendezvous. */
  function Start(n: nat, m: nat): World {
    World(seq(n, i => Idle), seq(m, i => FreshSide(n)), None, [])
  }

  // ---------------------------------------------------------------------------
  // The invariant
  // ---------------------------------------------------------------------------

  predicate On(p: Place, d: nat) {
    p.At? && p.d == d
  }

  /** Between depositing and returning. */
  predicate InRound(p: Place, d: nat) {
    On(p, d) && !p.stage.Enter? && !p.stage.OpenTop? && !p.stage.OpenChecked? && !p.stage.OpenSleep?
  }

  predicate Holds(p: Place, d: nat) {
    On(p, d) && !p.stage.Enter? && !Sleeping(p.stage)
  }

  function Current(side: Side): seq<Option<Value>>
    requires side.number < |side.deposits|
  {
    side.deposits[side.number]
  }

  function Depositors(slots: seq<Option<Value>>): set<nat> {
    set i: nat | i < |slots| && slots[i].Some?
  }

  ghost predicate SideShape(side: Side, n: nat) {
    && |side.deposits| == side.number + 1
    && (forall k :: 0 <= k < |side.deposits| ==> |side.deposits[k]| == n)
    && |side.round.slots| == n
    && side.gone <= Ranks(n)
  }

  /** The lock is held by the one rank inside a critical section, if any. */
  ghost predicate LockInv(ranks: seq<Place>, d: nat, side: Side) {
    && (side.lock.Some? ==> side.lock.value < |ranks|)
    && forall r :: 0 <= r < |ranks| ==> (Holds(ranks[r], d) <==> side.lock == Some(r))
  }

  /** Who deposited, who is still inside and who is gone. */
  ghost predicate CountInv(ranks: seq<Place>, d: nat, side: Side)
    requires SideShape(side, |ranks|)
  {
    && side.round.arrived == |Depositors(Current(side))|
    && forall r :: 0 <= r < |ranks| ==>
                     && (Current(side)[r].Some? <==> InRound(ranks[r], d) || r in side.gone)
                     && (InRound(ranks[r], d) ==> r !in side.gone && Current(side)[r] == Some(ranks[r].v))
  }

  predicate PublishingOn(p: Place, d: nat) {
    On(p, d) && p.stage.Publishing?
  }

  /** The slots hold the current deposits until the last arrival drains them. */
  ghost predicate SlotInv(ranks: seq<Place>, d: nat, side: Side)
    requires SideShape(side, |ranks|)
  {
    && (side.round.outcome.None? && (forall r :: 0 <= r < |ranks| ==> !PublishingOn(ranks[r], d)) ==>
          side.round.slots == Current(side))
    && (side.round.outcome.None? ==> side.round.departed == 0)
    && (side.round.outcome.Some? ==> side.round.slots == Empty(|ranks|))
  }

  ghost predicate Combines(o: Outcome, d: nat, slots: seq<Option<Value>>, c: Combiner) {
    Full(slots) && o == c(d, Values(slots))
  }

  /** A published outcome combines exactly the current deposits. */
  ghost predicate OutcomeInv(d: nat, side: Side, n: nat, c: Combiner)
    requires SideShape(side, n)
  {
    side.round.outcome.Some? ==>
      && Combines(side.round.outcome.value, d, Current(side), c)
      && side.round.departed == |side.gone| < n
  }

  /** Once a rank has abandoned the current round the world is poisoned and nobody can still complete it. */
  ghost predicate AbandonInv(ranks: seq<Place>, d: nat, side: Side, poison: Option<Message>) {
    side.round.outcome.None? && side.gone != {} ==>
      && poison.Some?
      && forall r :: 0 <= r < |ranks| && On(ranks[r], d) ==>
                       !ranks[r].stage.OpenChecked? && !ranks[r].stage.Combining? && !ranks[r].stage.Publishing?
  }

  /** A complete round without an outcome is being combined. */
  ghost predicate FullInv(ranks: seq<Place>, d: nat, side: Side)
    requires SideShape(side, |ranks|)
  {
    side.round.outcome.None? && Full(Current(side)) ==>
      && side.lock.Some? && side.lock.value < |ranks| && On(ranks[side.lock.value], d)
      && (ranks[side.lock.value].stage.Combining? || ranks[side.lock.value].stage.Publishing?)
  }

  ghost predicate SideInv(ranks: seq<Place>, d: nat, side: Side, poison: Option<Message>, c: Combiner) {
    && SideShape(side, |ranks|)
    && LockInv(ranks, d, side) && CountInv(ranks, d, side) && SlotInv(ranks, d, side)
    && OutcomeInv(d, side, |ranks|, c) && AbandonInv(ranks, d, side, poison)
    && FullInv(ranks, d, side)
  }

  /** What a rank on `side` knows from its position. */
  ghost predicate StageInv(p: Place, side: Side, n: nat, poison: Option<Message>, c: Combiner)
    requires p.At? && SideShape(side, n)
  {
    match p.stage
    case OpenChecked => side.round.outcome.None? && side.round.arrived + 1 == n ==> poison.None?
    case Combining => Full(Current(side)) && side.gone == {} && side.round.outcome.None? && poison.None?
    case Publishing(o) =>
      && Combines(o, p.d, Current(side), c) && side.gone == {} && side.round.outcome.None?
      && side.round.slots == Empty(n)
      && poison == if o.Bad? then Some(o.msg) else None
    case WaitChecked => side.round.outcome.None?
    case Leaving => side.round.outcome.Some?
    case _ => true
  }

  ghost predicate RecordInv(e: Record, side: Side, n: nat, c: Combiner)
    requires SideShape(side, n)
  {
    && e.rank < n
    && (e.round.None? ==> !e.reply.Collected?)
    && (e.round.Some? ==>
          var k := e.round.value;
          && k <= side.number
          && side.deposits[k][e.rank] == Some(e.v)
          && (e.reply.Collected? ==> Combines(e.reply.o, e.d, side.deposits[k], c))
          && (k == side.number ==> e.rank in side.gone)
          && (e.reply.Collected? <==> k < side.number || side.round.outcome.Some?))
  }

  ghost predicate SidesInv(w: World, c: Combiner) {
    forall d :: 0 <= d < |w.sides| ==> SideInv(w.ranks, d, w.sides[d], w.poison, c)
  }

  ghost predicate ShapesInv(w: World) {
    forall d :: 0 <= d < |w.sides| ==> SideShape(w.sides[d], |w.ranks|)
  }

  ghost predicate StagesInv(w: World, c: Combiner)
    requires ShapesInv(w)
  {
    forall r :: 0 <= r < |w.ranks| && w.ranks[r].At? ==>
                  w.ranks[r].d < |w.sides| && StageInv(w.ranks[r], w.sides[w.ranks[r].d], |w.ranks|, w.poison, c)
  }

  ghost predicate LogInv(w: World, c: Combiner)
    requires ShapesInv(w)
  {
    forall i :: 0 <= i < |w.log| ==>
                  w.log[i].d < |w.sides| && RecordInv(w.log[i], w.sides[w.log[i].d], |w.ranks|, c)
  }

  ghost predicate Inv(w: World, c: Combiner) {
    |w.ranks| > 0 && ShapesInv(w) && SidesInv(w, c) && StagesInv(w, c) && LogInv(w, c)
  }

  // ---------------------------------------------------------------------------
  // Every step keeps the invariant
  // ---------------------------------------------------------------------------

  lemma StartsWell(n: nat, m: nat, c: Combiner)
    requires n > 0
    ensures Inv(Start(n, m), c)
  {
    assert Depositors(Empty(n)) == {};
  }

  lemma SubsetCard(a: set<nat>, b: set<nat>)
    requires a <= b
    ensures |a| <= |b|
    ensures |a| == |b| ==> a == b
  {
    assert b == a + (b - a);
  }

  /** All slots are taken exactly when the count says so. */
  lemma FullCount(slots: seq<Option<Value>>)
    ensures |Depositors(slots)| == |slots| <==> Full(slots)
  {
    var n := |slots|;
    SubsetCard(Depositors(slots), Ranks(n));
    if Full(slots) {
      assert Depositors(slots) == Ranks(n);
    } else {
      var i :| 0 <= i < n && slots[i].None?;
      assert i in Ranks(n) && i !in Depositors(slots);
    }
  }

  lemma DepositCount(slots: seq<Option<Value>>, r: nat, v: Value)
    requires r < |slots| && slots[r].None?
    ensures |Depositors(slots[r := Some(v)])| == |Depositors(slots)| + 1
  {
    assert Depositors(slots[r := Some(v)]) == Depositors(slots) + {r};
  }

  /** Two empty slots keep the count at least two below full. */
  lemma TwoMissing(slots: seq<Option<Value>>, r: nat, q: nat)
    requires r < |slots| && q < |slots| && r != q && slots[r].None? && slots[q].None?
    ensures |Depositors(slots)| + 2 <= |slots|
  {
    var n := |slots|;
    SubsetCard(Depositors(slots) + {r, q}, Ranks(n));
    assert |Depositors(slots) + {r, q}| == |Depositors(slots)| + 2;
  }

  /** What a step of rank `r` on rendezvous `d` may change. */
  ghost predicate Local(w: World, x: World, r: nat, d: nat) {
    && r < |w.ranks| == |x.ranks| && d < |w.sides| == |x.sides|
    && (forall q :: 0 <= q < |w.ranks| && q != r ==> x.ranks[q] == w.ranks[q])
    && (forall e :: 0 <= e < |w.sides| && e != d ==> x.sides[e] == w.sides[e])
    && (w.ranks[r].At? ==> w.ranks[r].d == d)
    && (x.ranks[r].At? ==> x.ranks[r].d == d)
    && (x.poison == w.poison || (w.poison.None? && w.ranks[r].At?))
    && |w.log| <= |x.log| && x.log[..|w.log|] == w.log
  }

  /** The step logs at most one call, in order. */
  ghost predicate Logged(w: World, x: World, d: nat, c: Combiner)
    requires d < |x.sides|
  {
    || |x.log| == |w.log|
    || (&& |x.log| == |w.log| + 1 && x.log[|w.log|].d == d
        && SideShape(x.sides[d], |x.ranks|) && RecordInv(x.log[|w.log|], x.sides[d], |x.ranks|, c))
  }

  /** Rank `r`, which is not part of the round of `e`, changes nothing there, not even by poisoning. */
  lemma OtherSideKeeps(w: World, x: World, r: nat, d: nat, e: nat, c: Combiner)
    requires Inv(w, c) && Local(w, x, r, d) && e < |w.sides| && e != d
    ensures SideInv(x.ranks, e, x.sides[e], x.poison, c)
  {
    var side := w.sides[e];
    assert SideInv(w.ranks, e, side, w.poison, c);
    assert !On(w.ranks[r], e) && !On(x.ranks[r], e);
    forall q | 0 <= q < |x.ranks|
      ensures (Holds(x.ranks[q], e) <==> side.lock == Some(q))
      ensures PublishingOn(x.ranks[q], e) <==> PublishingOn(w.ranks[q], e)
    {
      assert Holds(w.ranks[q], e) <==> side.lock == Some(q);
    }
    assert CountInv(x.ranks, e, side);
    assert SlotInv(x.ranks, e, side);
  }

  lemma OtherRankKeeps(w: World, x: World, r: nat, d: nat, q: nat, c: Combiner)
    requires Inv(w, c) && Local(w, x, r, d) && q < |w.ranks| && q != r && w.ranks[q].At? && w.ranks[q].d != d
    ensures w.ranks[q].d < |x.sides| && SideShape(x.sides[w.ranks[q].d], |x.ranks|)
    ensures StageInv(w.ranks[q], x.sides[w.ranks[q].d], |x.ranks|, x.poison, c)
  {
    var e := w.ranks[q].d;
    var side := w.sides[e];
    var n := |w.ranks|;
    assert SideInv(w.ranks, e, side, w.poison, c);
    assert StageInv(w.ranks[q], side, n, w.poison, c);
    if x.poison != w.poison {
      assert !InRound(w.ranks[r], e);
      if w.ranks[q].stage.OpenChecked? && side.round.outcome.None? {
        assert side.gone == {};
        assert Current(side)[r].None? && Current(side)[q].None?;
        TwoMissing(Current(side), r, q);
      }
    }
  }

  lemma LocalSides(w: World, x: World, r: nat, d: nat, c: Combiner)
    requires Inv(w, c) && Local(w, x, r, d)
    requires SideInv(x.ranks, d, x.sides[d], x.poison, c)
    ensures SidesInv(x, c)
  {
    forall e | 0 <= e < |x.sides|
      ensures SideInv(x.ranks, e, x.sides[e], x.poison, c)
    {
      if e != d { OtherSideKeeps(w, x, r, d, e, c); }
    }
  }

  lemma LocalStages(w: World, x: World, r: nat, d: nat, c: Combiner)
    requires Inv(w, c) && Local(w, x, r, d) && SidesInv(x, c)
    requires forall q :: 0 <= q < |x.ranks| && On(x.ranks[q], d) ==>
               StageInv(x.ranks[q], x.sides[d], |x.ranks|, x.poison, c)
    ensures StagesInv(x, c)
  {
    forall q | 0 <= q < |x.ranks| && x.ranks[q].At?
      ensures x.ranks[q].d < |x.sides| && StageInv(x.ranks[q], x.sides[x.ranks[q].d], |x.ranks|, x.poison, c)
    {
      if x.ranks[q].d == d {
        assert On(x.ranks[q], d);
      } else {
        OtherRankKeeps(w, x, r, d, q, c);
      }
    }
  }

  lemma LocalLog(w: World, x: World, r: nat, d: nat, c: Combiner)
    requires ShapesInv(w) && LogInv(w, c) && Local(w, x, r, d) && ShapesInv(x)
    requires forall i :: 0 <= i < |w.log| && w.log[i].d == d ==> RecordInv(w.log[i], x.sides[d], |x.ranks|, c)
    requires Logged(w, x, d, c)
    ensures LogInv(x, c)
  {
    assert forall i :: 0 <= i < |w.log| ==> x.log[i] == w.log[i];
  }

  /** A step keeps the invariant when it does so on its own rendezvous. */
  lemma LocalKeeps(w: World, x: World, r: nat, d: nat, c: Combiner)
    requires Inv(w, c) && Local(w, x, r, d)
    requires SideInv(x.ranks, d, x.sides[d], x.poison, c)
    requires forall q :: 0 <= q < |x.ranks| && On(x.ranks[q], d) ==>
               StageInv(x.ranks[q], x.sides[d], |x.ranks|, x.poison, c)
    requires forall i :: 0 <= i < |w.log| && w.log[i].d == d ==> RecordInv(w.log[i], x.sides[d], |x.ranks|, c)
    requires Logged(w, x, d, c)
    ensures Inv(x, c)
  {
    LocalSides(w, x, r, d, c);
    LocalStages(w, x, r, d, c);
    LocalLog(w, x, r, d, c);
  }

  lemma BeginKeeps(w: World, r: nat, d: nat, v: Value, c: Combiner)
    requires Inv(w, c) && Can(w, r, Begin(d, v))
    ensures Inv(DoBegin(w, r, d, v), c)
  {
    var x := DoBegin(w, r, d, v);
    assert SideInv(w.ranks, d, w.sides[d], w.poison, c);
    forall q | 0 <= q < |x.ranks|
      ensures Holds(x.ranks[q], d) == Holds(w.ranks[q], d)
      ensures InRound(x.ranks[q], d) == InRound(w.ranks[q], d)
      ensures PublishingOn(x.ranks[q], d) == PublishingOn(w.ranks[q], d)
    {
    }
    assert CountInv(x.ranks, d, x.sides[d]);
    assert SlotInv(x.ranks, d, x.sides[d]);
    LocalKeeps(w, x, r, d, c);
  }

  lemma LockStep(ranks: seq<Place>, d: nat, side: Side, r: nat, p: Place, now: Side)
    requires LockInv(ranks, d, side) && r < |ranks|
    requires Holds(ranks[r], d) || side.lock.None?
    requires now.lock == if Holds(p, d) then Some(r) else None
    ensures LockInv(ranks[r := p], d, now)
  {
  }

  predicate SameDeposits(side: Side, now: Side) {
    now.number == side.number && now.deposits == side.deposits
  }

  /** Staying in the round, or staying out of it. */
  lemma StayStep(ranks: seq<Place>, d: nat, side: Side, r: nat, p: Place, now: Side)
    requires SideShape(side, |ranks|) && SideShape(now, |ranks|) && CountInv(ranks, d, side) && r < |ranks|
    requires SameDeposits(side, now) && now.round.arrived == side.round.arrived && now.gone == side.gone
    requires InRound(p, d) == InRound(ranks[r], d) && (InRound(p, d) ==> p.v == ranks[r].v)
    ensures CountInv(ranks[r := p], d, now)
  {
  }

  /** Leaving the round while it is still the current one. */
  lemma GoneStep(ranks: seq<Place>, d: nat, side: Side, r: nat, p: Place, now: Side)
    requires SideShape(side, |ranks|) && SideShape(now, |ranks|) && CountInv(ranks, d, side) && r < |ranks|
    requires SameDeposits(side, now) && now.round.arrived == side.round.arrived && now.gone == side.gone + {r}
    requires InRound(ranks[r], d) && !InRound(p, d)
    ensures CountInv(ranks[r := p], d, now)
  {
  }

  /** Records of earlier calls stay valid while deposits are kept and the outcome does not change. */
  lemma RecordStep(e: Record, side: Side, now: Side, n: nat, c: Combiner)
    requires SideShape(side, n) && SideShape(now, n) && RecordInv(e, side, n, c)
    requires SameDeposits(side, now) && now.round.outcome == side.round.outcome && side.gone <= now.gone
    ensures RecordInv(e, now, n, c)
  {
  }

  predicate Plain(p: Place) {
    p.At? ==> !p.stage.Combining? && !p.stage.Publishing?
  }

  /** Only the holder of the lock can be about to deposit, combine or publish, so `r` spoils nobody's plan. */
  lemma PeersStep(w: World, x: World, r: nat, d: nat, c: Combiner)
    requires Inv(w, c) && Local(w, x, r, d)
    requires SideShape(x.sides[d], |x.ranks|)
    requires Holds(w.ranks[r], d) || w.sides[d].lock.None?
    ensures forall q :: 0 <= q < |x.ranks| && q != r && On(x.ranks[q], d) ==>
                          StageInv(x.ranks[q], x.sides[d], |x.ranks|, x.poison, c)
  {
    assert SideInv(w.ranks, d, w.sides[d], w.poison, c);
    forall q | 0 <= q < |x.ranks| && q != r && On(x.ranks[q], d)
      ensures StageInv(x.ranks[q], x.sides[d], |x.ranks|, x.poison, c)
    {
      assert !Holds(w.ranks[q], d);
    }
  }

  lemma RecordsStep(w: World, x: World, r: nat, d: nat, c: Combiner)
    requires Inv(w, c) && Local(w, x, r, d)
    requires SideShape(x.sides[d], |x.ranks|) && SameDeposits(w.sides[d], x.sides[d])
    requires x.sides[d].round.outcome == w.sides[d].round.outcome && w.sides[d].gone <= x.sides[d].gone
    ensures forall i :: 0 <= i < |w.log| && w.log[i].d == d ==> RecordInv(w.log[i], x.sides[d], |x.ranks|, c)
  {
    forall i | 0 <= i < |w.log| && w.log[i].d == d
      ensures RecordInv(w.log[i], x.sides[d], |x.ranks|, c)
    {
      RecordStep(w.log[i], w.sides[d], x.sides[d], |x.ranks|, c);
    }
  }

  // Steps that neither deposit, combine, publish nor leave the round.

  lemma QuietSide(ranks: seq<Place>, d: nat, side: Side, r: nat, p: Place, now: Side,
                  poison: Option<Message>, later: Option<Message>, c: Combiner)
    requires SideInv(ranks, d, side, poison, c) && r < |ranks|
    requires Plain(ranks[r]) && Plain(p) && On(ranks[r], d)
    requires Holds(ranks[r], d) || side.lock.None?
    requires now == side.(lock := if Holds(p, d) then Some(r) else None, woken := now.woken)
    requires InRound(p, d) == InRound(ranks[r], d) && (InRound(p, d) ==> p.v == ranks[r].v)
    requires On(p, d) && p.stage.OpenChecked? ==> poison.None?
    requires poison.Some? ==> later.Some?
    ensures SideInv(ranks[r := p], d, now, later, c)
  {
    LockStep(ranks, d, side, r, p, now);
    StayStep(ranks, d, side, r, p, now);
    assert SlotInv(ranks[r := p], d, now) by {
      assert forall q :: 0 <= q < |ranks| ==> PublishingOn(ranks[r := p][q], d) == PublishingOn(ranks[q], d);
    }
  }

  ghost predicate QuietStep(w: World, x: World, r: nat, d: nat) {
    && Local(w, x, r, d) && On(w.ranks[r], d) && Plain(w.ranks[r]) && Plain(x.ranks[r])
    && (Holds(w.ranks[r], d) || w.sides[d].lock.None?)
    && x.sides[d] == w.sides[d].(lock := if Holds(x.ranks[r], d) then Some(r) else None, woken := x.sides[d].woken)
    && InRound(x.ranks[r], d) == InRound(w.ranks[r], d)
    && (InRound(x.ranks[r], d) ==> x.ranks[r].v == w.ranks[r].v)
    && (On(x.ranks[r], d) && x.ranks[r].stage.OpenChecked? ==> w.poison.None? && x.poison.None?)
    && (On(x.ranks[r], d) && x.ranks[r].stage.Leaving? ==> w.sides[d].round.outcome.Some?)
    && (On(x.ranks[r], d) && x.ranks[r].stage.WaitChecked? ==> w.sides[d].round.outcome.None?)
    && (|x.log| == |w.log|
        || (&& |x.log| == |w.log| + 1 && x.log[|w.log|].d == d && x.log[|w.log|].rank == r
            && x.log[|w.log|].round.None? && !x.log[|w.log|].reply.Collected?))
  }

  lemma QuietKeeps(w: World, x: World, r: nat, d: nat, c: Combiner)
    requires Inv(w, c) && QuietStep(w, x, r, d)
    ensures Inv(x, c)
  {
    assert x.ranks == w.ranks[r := x.ranks[r]];
    QuietSide(w.ranks, d, w.sides[d], r, x.ranks[r], x.sides[d], w.poison, x.poison, c);
    PeersStep(w, x, r, d, c);
    RecordsStep(w, x, r, d, c);
    LocalKeeps(w, x, r, d, c);
  }

  predicate HolderHasLock(w: World, r: nat) {
    Stands(w, r) && (Holds(w.ranks[r], w.ranks[r].d) ==> w.sides[w.ranks[r].d].lock == Some(r))
  }

  lemma LockIsQuiet(w: World, r: nat)
    requires Can(w, r, Lock)
    ensures QuietStep(w, DoLock(w, r), r, w.ranks[r].d)
  {
  }

  predicate SeesDeadRound(w: World, r: nat) {
    Stands(w, r) && w.ranks[r].stage.WaitTop? && w.sides[w.ranks[r].d].round.outcome.None? && w.poison.Some?
  }

  lemma ReadIsQuiet(w: World, r: nat)
    requires Can(w, r, ReadPoison) && !SeesDeadRound(w, r) && HolderHasLock(w, r)
    ensures QuietStep(w, DoReadPoison(w, r), r, w.ranks[r].d)
  {
  }

  lemma LookIsQuiet(w: World, r: nat, expired: bool)
    requires Can(w, r, Look(expired)) && HolderHasLock(w, r)
    requires if w.ranks[r].stage.OpenChecked? then w.sides[w.ranks[r].d].round.outcome.Some? else !expired
    ensures QuietStep(w, DoLook(w, r, expired), r, w.ranks[r].d)
  {
  }

  lemma HolderLocks(w: World, r: nat, c: Combiner)
    requires Inv(w, c) && Stands(w, r)
    ensures HolderHasLock(w, r)
  {
    assert SideInv(w.ranks, w.ranks[r].d, w.sides[w.ranks[r].d], w.poison, c);
  }

  // Leaving a round that will never complete.

  lemma AbandonSide(ranks: seq<Place>, d: nat, side: Side, r: nat, now: Side,
                    poison: Option<Message>, later: Option<Message>, c: Combiner)
    requires SideInv(ranks, d, side, poison, c) && r < |ranks|
    requires Holds(ranks[r], d) && InRound(ranks[r], d) && Plain(ranks[r])
    requires side.round.outcome.None? && later.Some?
    requires now == side.(lock := None, gone := side.gone + {r}, woken := now.woken)
    ensures SideInv(ranks[r := Idle], d, now, later, c)
  {
    LockStep(ranks, d, side, r, Idle, now);
    GoneStep(ranks, d, side, r, Idle, now);
    assert SlotInv(ranks[r := Idle], d, now) by {
      assert forall q :: 0 <= q < |ranks| ==> PublishingOn(ranks[r := Idle][q], d) == PublishingOn(ranks[q], d);
    }
    forall q | 0 <= q < |ranks| && q != r
      ensures !Holds(ranks[q], d)
    {
    }
  }

  ghost predicate AbandonStep(w: World, x: World, r: nat, d: nat) {
    && Local(w, x, r, d) && Holds(w.ranks[r], d) && InRound(w.ranks[r], d) && Plain(w.ranks[r]) && x.ranks[r].Idle?
    && w.sides[d].round.outcome.None? && x.poison.Some?
    && x.sides[d] == w.sides[d].(lock := None, gone := w.sides[d].gone + {r}, woken := x.sides[d].woken)
    && |x.log| == |w.log| + 1 && !x.log[|w.log|].reply.Collected?
    && x.log[|w.log|] == Record(r, d, w.ranks[r].v, Some(w.sides[d].number), x.log[|w.log|].reply)
  }

  lemma AbandonRecord(ranks: seq<Place>, d: nat, side: Side, r: nat, reply: Reply, now: Side, c: Combiner)
    requires SideShape(side, |ranks|) && CountInv(ranks, d, side) && r < |ranks| && InRound(ranks[r], d)
    requires SideShape(now, |ranks|) && SameDeposits(side, now) && r in now.gone && now.round.outcome.None?
    requires !reply.Collected?
    ensures RecordInv(Record(r, d, ranks[r].v, Some(side.number), reply), now, |ranks|, c)
  {
  }

  lemma AbandonKeeps(w: World, x: World, r: nat, d: nat, c: Combiner)
    requires Inv(w, c) && AbandonStep(w, x, r, d)
    ensures Inv(x, c)
  {
    assert x.ranks == w.ranks[r := Idle];
    AbandonSide(w.ranks, d, w.sides[d], r, x.sides[d], w.poison, x.poison, c);
    AbandonRecord(w.ranks, d, w.sides[d], r, x.log[|w.log|].reply, x.sides[d], c);
    PeersStep(w, x, r, d, c);
    RecordsStep(w, x, r, d, c);
    LocalKeeps(w, x, r, d, c);
  }

  lemma ReadDeadKeeps(w: World, r: nat, c: Combiner)
    requires Inv(w, c) && SeesDeadRound(w, r)
    ensures Inv(DoReadPoison(w, r), c)
  {
    AbandonKeeps(w, DoReadPoison(w, r), r, w.ranks[r].d, c);
  }

  lemma ExpireKeeps(w: World, r: nat, c: Combiner)
    requires Inv(w, c) && Can(w, r, Look(true)) && w.ranks[r].stage.WaitChecked?
    ensures Inv(DoLook(w, r, true), c)
  {
    assert StageInv(w.ranks[r], w.sides[w.ranks[r].d], |w.ranks|, w.poison, c);
    AbandonKeeps(w, DoLook(w, r, true), r, w.ranks[r].d, c);
  }

  // Depositing.

  /** The new deposit completes the round exactly when it is the last one missing. */
  lemma DepositStep(ranks: seq<Place>, d: nat, side: Side, r: nat, p: Place, now: Side)
    requires SideShape(side, |ranks|) && SideShape(now, |ranks|) && CountInv(ranks, d, side) && r < |ranks|
    requires On(ranks[r], d) && !InRound(ranks[r], d) && r !in side.gone && InRound(p, d)
    requires now.number == side.number && now.gone == side.gone
    requires Current(now) == Current(side)[r := Some(p.v)] && now.round.arrived == side.round.arrived + 1
    ensures CountInv(ranks[r := p], d, now)
    ensures now.round.arrived == |ranks| <==> Full(Current(now))
  {
    DepositCount(Current(side), r, p.v);
    FullCount(Current(now));
  }

  lemma DepositSlots(ranks: seq<Place>, d: nat, side: Side, r: nat, p: Place, now: Side)
    requires SideShape(side, |ranks|) && SideShape(now, |ranks|) && r < |ranks|
    requires LockInv(ranks, d, side) && SlotInv(ranks, d, side)
    requires On(ranks[r], d) && ranks[r].stage.OpenChecked? && On(p, d) && !p.stage.Publishing?
    requires side.round.outcome.None? && now.round.outcome.None? && now.round.departed == side.round.departed
    requires Current(now) == Current(side)[r := Some(p.v)] && now.round.slots == side.round.slots[r := Some(p.v)]
    ensures SlotInv(ranks[r := p], d, now)
  {
    assert Holds(ranks[r], d);
    forall q | 0 <= q < |ranks|
      ensures !PublishingOn(ranks[q], d)
    {
      assert Holds(ranks[q], d) ==> q == r;
    }
  }

  lemma DepositRecord(e: Record, side: Side, now: Side, n: nat, r: nat, v: Value, c: Combiner)
    requires SideShape(side, n) && SideShape(now, n) && RecordInv(e, side, n, c) && r < n
    requires Current(side)[r].None? && now.deposits == side.deposits[side.number := Current(side)[r := Some(v)]]
    requires now.number == side.number && now.gone == side.gone
    requires now.round.outcome.None? && side.round.outcome.None?
    ensures RecordInv(e, now, n, c)
  {
    if e.round.Some? && e.round.value < side.number {
      assert now.deposits[e.round.value] == side.deposits[e.round.value];
    }
  }

  lemma DepositSide(ranks: seq<Place>, d: nat, side: Side, r: nat, p: Place, now: Side, poison: Option<Message>,
                    c: Combiner)
    requires SideInv(ranks, d, side, poison, c) && r < |ranks|
    requires On(ranks[r], d) && ranks[r].stage.OpenChecked? && side.round.outcome.None?
    requires p == At(d, ranks[r].v, if side.round.arrived + 1 == |ranks| then Combining else WaitTop)
    requires now.round == Deposited(side.round, r, p.v)
    requires now == side.(round := now.round, deposits := side.deposits[side.number := Current(side)[r := Some(p.v)]])
    ensures SideInv(ranks[r := p], d, now, poison, c)
    ensures p.stage.Combining? <==> Full(Current(now))
    ensures Current(side)[r].None? && side.gone == {}
  {
    LockStep(ranks, d, side, r, p, now);
    DepositStep(ranks, d, side, r, p, now);
    DepositSlots(ranks, d, side, r, p, now);
  }

  lemma DepositKeeps(w: World, r: nat, c: Combiner)
    requires Inv(w, c) && Can(w, r, Look(false)) && w.ranks[r].stage.OpenChecked?
    requires w.sides[w.ranks[r].d].round.outcome.None?
    ensures Inv(DoDeposit(w, r), c)
  {
    var d, n := w.ranks[r].d, |w.ranks|;
    var x := DoDeposit(w, r);
    var side, now := w.sides[d], x.sides[d];
    assert StageInv(w.ranks[r], side, n, w.poison, c);
    assert x.ranks == w.ranks[r := x.ranks[r]];
    DepositSide(w.ranks, d, side, r, x.ranks[r], now, w.poison, c);
    PeersStep(w, x, r, d, c);
    forall i | 0 <= i < |w.log| && w.log[i].d == d
      ensures RecordInv(w.log[i], now, n, c)
    {
      DepositRecord(w.log[i], side, now, n, r, w.ranks[r].v, c);
    }
    LocalKeeps(w, x, r, d, c);
  }

  // Combining and publishing.

  /** Nobody publishes while `r` combines, so the slots are still the deposits. */
  lemma OnlyOnePublishes(ranks: seq<Place>, d: nat, side: Side, r: nat)
    requires SideShape(side, |ranks|) && r < |ranks| && LockInv(ranks, d, side) && SlotInv(ranks, d, side)
    requires On(ranks[r], d) && ranks[r].stage.Combining? && side.round.outcome.None?
    ensures side.round.slots == Current(side)
  {
    assert Holds(ranks[r], d);
    forall q | 0 <= q < |ranks|
      ensures !PublishingOn(ranks[q], d)
    {
      assert Holds(ranks[q], d) ==> q == r;
    }
  }

  lemma CombineSide(ranks: seq<Place>, d: nat, side: Side, r: nat, p: Place, now: Side,
                    poison: Option<Message>, later: Option<Message>, c: Combiner)
    requires SideInv(ranks, d, side, poison, c) && r < |ranks|
    requires On(ranks[r], d) && ranks[r].stage.Combining? && side.gone == {} && side.round.outcome.None?
    requires On(p, d) && p.stage.Publishing? && p.v == ranks[r].v
    requires now.round == Drained(side.round) && now == side.(round := now.round)
    ensures SideInv(ranks[r := p], d, now, later, c)
    ensures side.round.slots == Current(side)
  {
    OnlyOnePublishes(ranks, d, side, r);
    LockStep(ranks, d, side, r, p, now);
    StayStep(ranks, d, side, r, p, now);
    assert PublishingOn(ranks[r := p][r], d);
  }

  lemma CombineKeeps(w: World, r: nat, c: Combiner)
    requires Inv(w, c) && Can(w, r, Combine)
    ensures Inv(DoCombine(w, r, c), c)
  {
    var d := w.ranks[r].d;
    var x := DoCombine(w, r, c);
    assert StageInv(w.ranks[r], w.sides[d], |w.ranks|, w.poison, c);
    assert x.ranks == w.ranks[r := x.ranks[r]];
    CombineSide(w.ranks, d, w.sides[d], r, x.ranks[r], x.sides[d], w.poison, x.poison, c);
    PeersStep(w, x, r, d, c);
    RecordsStep(w, x, r, d, c);
    LocalKeeps(w, x, r, d, c);
  }

  lemma PublishSide(ranks: seq<Place>, d: nat, side: Side, r: nat, p: Place, now: Side, poison: Option<Message>,
                    c: Combiner)
    requires SideInv(ranks, d, side, poison, c) && r < |ranks|
    requires PublishingOn(ranks[r], d) && StageInv(ranks[r], side, |ranks|, poison, c)
    requires p == At(d, ranks[r].v, Leaving)
    requires now.round == side.round.(outcome := Some(ranks[r].stage.o))
             && now == side.(round := now.round, woken := now.woken)
    ensures SideInv(ranks[r := p], d, now, poison, c)
  {
    LockStep(ranks, d, side, r, p, now);
    StayStep(ranks, d, side, r, p, now);
  }

  lemma PublishRecord(e: Record, side: Side, now: Side, n: nat, c: Combiner)
    requires SideShape(side, n) && SideShape(now, n) && RecordInv(e, side, n, c)
    requires SameDeposits(side, now) && side.gone == {} && now.gone == {} && side.round.outcome.None?
    ensures RecordInv(e, now, n, c)
  {
  }

  lemma PublishKeeps(w: World, r: nat, c: Combiner)
    requires Inv(w, c) && Can(w, r, Publish)
    ensures Inv(DoPublish(w, r), c)
  {
    var d, n := w.ranks[r].d, |w.ranks|;
    var x := DoPublish(w, r);
    assert StageInv(w.ranks[r], w.sides[d], n, w.poison, c);
    assert x.ranks == w.ranks[r := x.ranks[r]];
    PublishSide(w.ranks, d, w.sides[d], r, x.ranks[r], x.sides[d], w.poison, c);
    PeersStep(w, x, r, d, c);
    forall i | 0 <= i < |w.log| && w.log[i].d == d
      ensures RecordInv(w.log[i], x.sides[d], n, c)
    {
      PublishRecord(w.log[i], w.sides[d], x.sides[d], n, c);
    }
    LocalKeeps(w, x, r, d, c);
  }

  // Collecting.

  predicate LastOut(w: World, r: nat) {
    Can(w, r, Collect) && w.sides[w.ranks[r].d].round.departed + 1 == |w.ranks|
  }

  lemma CollectStep(gone: set<nat>, r: nat, n: nat)
    requires gone <= Ranks(n) && r < n && r !in gone
    ensures |gone + {r}| == |gone| + 1 <= n
    ensures |gone| + 1 == n ==> gone + {r} == Ranks(n)
  {
    SubsetCard(gone + {r}, Ranks(n));
  }

  lemma CollectSide(ranks: seq<Place>, d: nat, side: Side, r: nat, now: Side, poison: Option<Message>, c: Combiner)
    requires SideInv(ranks, d, side, poison, c) && r < |ranks|
    requires On(ranks[r], d) && ranks[r].stage.Leaving? && side.round.outcome.Some?
             && side.round.departed + 1 != |ranks|
    requires now.round == AfterCollect(side.round, |ranks|)
    requires now == side.(round := now.round, lock := None, gone := side.gone + {r})
    ensures SideInv(ranks[r := Idle], d, now, poison, c)
  {
    CollectStep(side.gone, r, |ranks|);
    LockStep(ranks, d, side, r, Idle, now);
    GoneStep(ranks, d, side, r, Idle, now);
  }

  lemma CollectEarlyKeeps(w: World, r: nat, c: Combiner)
    requires Inv(w, c) && Can(w, r, Collect) && !LastOut(w, r)
    ensures Inv(DoCollect(w, r), c)
  {
    var d := w.ranks[r].d;
    var x := DoCollect(w, r);
    assert x.ranks == w.ranks[r := Idle];
    CollectSide(w.ranks, d, w.sides[d], r, x.sides[d], w.poison, c);
    PeersStep(w, x, r, d, c);
    RecordsStep(w, x, r, d, c);
    assert SideInv(w.ranks, d, w.sides[d], w.poison, c);
    LocalKeeps(w, x, r, d, c);
  }

  lemma NobodyInside(ranks: seq<Place>, d: nat, side: Side, r: nat)
    requires SideShape(side, |ranks|) && r < |ranks| && CountInv(ranks, d, side)
    requires side.gone + {r} == Ranks(|ranks|)
    ensures forall q :: 0 <= q < |ranks| && q != r ==> !InRound(ranks[q], d)
  {
    forall q | 0 <= q < |ranks| && q != r
      ensures !InRound(ranks[q], d)
    {
      assert q in side.gone + {r};
    }
  }

  lemma EmptyRound(ranks: seq<Place>, d: nat, now: Side)
    requires SideShape(now, |ranks|) && Current(now) == Empty(|ranks|) && now.gone == {} && now.round.arrived == 0
    requires forall q :: 0 <= q < |ranks| ==> !InRound(ranks[q], d)
    ensures CountInv(ranks, d, now)
  {
    assert Depositors(Empty(|ranks|)) == {};
  }

  /** Once everybody is gone the next round starts with nobody inside. */
  lemma RoundStep(ranks: seq<Place>, d: nat, side: Side, r: nat, now: Side)
    requires SideShape(side, |ranks|) && SideShape(now, |ranks|) && r < |ranks| && CountInv(ranks, d, side)
    requires side.gone + {r} == Ranks(|ranks|)
    requires now.number == side.number + 1 && now.deposits == side.deposits + [Empty(|ranks|)]
    requires now.gone == {} && now.round.arrived == 0
    ensures CountInv(ranks[r := Idle], d, now)
  {
    NobodyInside(ranks, d, side, r);
    EmptyRound(ranks[r := Idle], d, now);
  }

  lemma RoundRecord(e: Record, side: Side, now: Side, n: nat, c: Combiner)
    requires SideShape(side, n) && SideShape(now, n) && RecordInv(e, side, n, c)
    requires side.round.outcome.Some? && now.number == side.number + 1 && now.deposits == side.deposits + [Empty(n)]
    ensures RecordInv(e, now, n, c)
  {
    if e.round.Some? {
      assert now.deposits[e.round.value] == side.deposits[e.round.value];
    }
  }

  lemma LastSide(ranks: seq<Place>, d: nat, side: Side, r: nat, now: Side, poison: Option<Message>, c: Combiner)
    requires SideInv(ranks, d, side, poison, c) && r < |ranks|
    requires On(ranks[r], d) && ranks[r].stage.Leaving? && side.round.outcome.Some?
             && side.round.departed + 1 == |ranks|
    requires now.round == AfterCollect(side.round, |ranks|) && now.lock == None && now.gone == {}
    requires now.number == side.number + 1 && now.deposits == side.deposits + [Empty(|ranks|)]
    ensures SideInv(ranks[r := Idle], d, now, poison, c)
  {
    CollectStep(side.gone, r, |ranks|);
    LockStep(ranks, d, side, r, Idle, now);
    RoundStep(ranks, d, side, r, now);
  }

  lemma CollectLastKeeps(w: World, r: nat, c: Combiner)
    requires Inv(w, c) && LastOut(w, r)
    ensures Inv(DoCollect(w, r), c)
  {
    var d, n := w.ranks[r].d, |w.ranks|;
    var x := DoCollect(w, r);
    assert x.ranks == w.ranks[r := Idle];
    LastSide(w.ranks, d, w.sides[d], r, x.sides[d], w.poison, c);
    PeersStep(w, x, r, d, c);
    assert SideInv(w.ranks, d, w.sides[d], w.poison, c);
    forall i | 0 <= i < |w.log| && w.log[i].d == d
      ensures RecordInv(w.log[i], x.sides[d], n, c)
    {
      RoundRecord(w.log[i], w.sides[d], x.sides[d], n, c);
    }
    LocalKeeps(w, x, r, d, c);
  }

  /** Every step of every rank keeps the invariant. */
  lemma StepKeeps(w: World, r: nat, a: Action, c: Combiner)
    requires Inv(w, c) && Can(w, r, a)
    ensures Inv(Do(w, r, a, c), c)
  {
    match a
    case Begin(d, v) => BeginKeeps(w, r, d, v, c);
    case Lock =>
      LockIsQuiet(w, r);
      QuietKeeps(w, DoLock(w, r), r, w.ranks[r].d, c);
    case ReadPoison =>
      if SeesDeadRound(w, r) {
        ReadDeadKeeps(w, r, c);
      } else {
        HolderLocks(w, r, c);
        ReadIsQuiet(w, r);
        QuietKeeps(w, DoReadPoison(w, r), r, w.ranks[r].d, c);
      }
    case Look(expired) =>
      if w.ranks[r].stage.OpenChecked? && w.sides[w.ranks[r].d].round.outcome.None? { DepositKeeps(w, r, c); }
      else if w.ranks[r].stage.WaitChecked? && expired { ExpireKeeps(w, r, c); }
      else {
        HolderLocks(w, r, c);
        LookIsQuiet(w, r, expired);
        QuietKeeps(w, DoLook(w, r, expired), r, w.ranks[r].d, c);
      }
    case Combine => CombineKeeps(w, r, c);
    case Publish => PublishKeeps(w, r, c);
    case Collect => if LastOut(w, r) { CollectLastKeeps(w, r, c); } else { CollectEarlyKeeps(w, r, c); }
  }

  // ---------------------------------------------------------------------------
  // Runs
  // ---------------------------------------------------------------------------

  datatype Step = Step(rank: nat, action: Action)

  ghost predicate Runs(w: World, steps: seq<Step>, c: Combiner)
    decreases |steps|
  {
    steps != [] ==>
      && Can(w, steps[0].rank, steps[0].action)
      && Runs(Do(w, steps[0].rank, steps[0].action, c), steps[1..], c)
  }

  ghost function Run(w: World, steps: seq<Step>, c: Combiner): World
    requires Runs(w, steps, c)
    decreases |steps|
  {
    if steps == [] then w else Run(Do(w, steps[0].rank, steps[0].action, c), steps[1..], c)
  }

  lemma {:induction false} RunKeeps(w: World, steps: seq<Step>, c: Combiner)
    requires Inv(w, c) && Runs(w, steps, c)
    ensures Inv(Run(w, steps, c), c)
    decreases |steps|
  {
    if steps != [] {
      StepKeeps(w, steps[0].rank, steps[0].action, c);
      RunKeeps(Do(w, steps[0].rank, steps[0].action, c), steps[1..], c);
    }
  }

  /** Whoever holds a lock can go on, without timing out. */
  lemma LockHolderMoves(w: World, c: Combiner, h: nat) returns (a: Action)
    requires Inv(w, c) && Stands(w, h) && Holds(w.ranks[h], w.ranks[h].d)
    ensures Can(w, h, a) && !a.Begin? && !a.Lock? && a != Look(true)
  {
    var d := w.ranks[h].d;
    assert SideInv(w.ranks, d, w.sides[d], w.poison, c) && StageInv(w.ranks[h], w.sides[d], |w.ranks|, w.poison, c);
    match w.ranks[h].stage
    case OpenTop => a := ReadPoison;
    case WaitTop => a := ReadPoison;
    case OpenChecked => a := Look(false);
    case WaitChecked => a := Look(false);
    case Combining =>
      OnlyOnePublishes(w.ranks, d, w.sides[d], h);
      a := Combine;
    case Publishing(o) => a := Publish;
    case Leaving => a := Collect;
  }
}
