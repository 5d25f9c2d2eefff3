/**
 Progress of the rendezvous: without timeouts, and with every rank issuing the same finite sequence of
 collectives, nothing ever gets stuck. No wake-up is lost, a measure falls with every step, ranks are
 never more than one call apart, and the i-th call of every rank returns the combine of everybody's
 i-th value.
 */
module RendezvousProgress {
  import opened Common
  import opened Rendezvous
  import opened RendezvousAgreement

  /** The collectives all ranks issue, by rendezvous, and the value each rank brings to each of them. */
  datatype Job = Job(ops: seq<nat>, vals: (nat, nat) -> Value)

  /** A world together with the number of calls each rank has finished. */
  datatype Play = Play(w: World, calls: seq<nat>)

  /** The steps that happen without timeouts or spurious wake-ups. */
  predicate May(g: Play, job: Job, r: nat, a: Action) {
    && Can(g.w, r, a) && r < |g.calls|
    && match a
       case Begin(d, v) => g.calls[r] < |job.ops| && d == job.ops[g.calls[r]] && v == job.vals(r, g.calls[r])
       case Lock => Sleeping(g.w.ranks[r].stage) ==> r in g.w.sides[g.w.ranks[r].d].woken
       case Look(expired) => !expired
       case _ => true
  }

  function Next(g: Play, job: Job, r: nat, a: Action, c: Combiner): Play
    requires May(g, job, r, a)
  {
    var x := Do(g.w, r, a, c);
    Play(x, if |x.log| > |g.w.log| then g.calls[r := g.calls[r] + 1] else g.calls)
  }

  function Kickoff(n: nat, m: nat): Play {
    Play(Start(n, m), seq(n, i => 0))
  }

  predicate Finished(g: Play, job: Job)
    requires |g.calls| == |g.w.ranks|
  {
    forall r :: 0 <= r < |g.w.ranks| ==> g.w.ranks[r].Idle? && g.calls[r] == |job.ops|
  }

  function Count(ops: seq<nat>, d: nat): nat {
    if ops == [] then 0 else Count(ops[..|ops| - 1], d) + if ops[|ops| - 1] == d then 1 else 0
  }

  lemma CountNext(ops: seq<nat>, i: nat, d: nat)
    requires i < |ops|
    ensures Count(ops[..i + 1], d) == Count(ops[..i], d) + if ops[i] == d then 1 else 0
  {
    assert ops[..i + 1][..i] == ops[..i];
  }

  lemma {:induction false} CountGrows(ops: seq<nat>, i: nat, j: nat, d: nat)
    requires i <= j <= |ops|
    ensures Count(ops[..i], d) <= Count(ops[..j], d)
    decreases j
  {
    if i < j {
      CountNext(ops, j - 1, d);
      CountGrows(ops, i, j - 1, d);
    }
  }

  // ---------------------------------------------------------------------------
  // The invariant
  // ---------------------------------------------------------------------------

  function Inside(p: Place, d: nat): nat {
    if InRound(p, d) then 1 else 0
  }

  /** The rounds of this rendezvous that `q` has deposited in. */
  function Score(side: Side, q: nat): nat
    requires HasSeat(side, q)
  {
    side.number + if Current(side)[q].Some? then 1 else 0
  }

  /** Rank `q` has deposited once for each of its finished calls, and once more while it is inside. */
  ghost predicate Tally(ops: seq<nat>, calls: nat, p: Place, q: nat, d: nat, side: Side)
    requires HasSeat(side, q)
  {
    calls <= |ops| && Count(ops[..calls], d) + Inside(p, d) == Score(side, q)
  }

  ghost predicate TallyInv(g: Play, job: Job)
    requires ShapesInv(g.w) && |g.calls| == |g.w.ranks|
  {
    forall q, d :: 0 <= q < |g.w.ranks| && 0 <= d < |g.w.sides| ==>
        Tally(job.ops, g.calls[q], g.w.ranks[q], q, d, g.w.sides[d])
  }

  /** Once a combine failed, whoever is still in a call is in that one complete round. */
  ghost predicate EndInv(w: World)
    requires ShapesInv(w)
  {
    forall q :: 0 <= q < |w.ranks| && w.ranks[q].At? ==>
                  && w.ranks[q].d < |w.sides| && InRound(w.ranks[q], w.ranks[q].d)
                    && Full(Current(w.sides[w.ranks[q].d]))
                  && forall r :: 0 <= r < |w.ranks| && w.ranks[r].At? ==> w.ranks[r].d == w.ranks[q].d
  }

  /** A sleeper that has not been notified still has to wait. */
  ghost predicate WakeInv(w: World) {
    forall q | 0 <= q < |w.ranks| && w.ranks[q].At? && w.ranks[q].d < |w.sides| && q !in w.sides[w.ranks[q].d].woken ::
      && (w.ranks[q].stage.WaitSleep? ==> w.sides[w.ranks[q].d].round.outcome.None?)
      && (w.ranks[q].stage.OpenSleep? ==> w.sides[w.ranks[q].d].round.outcome.Some?)
  }

  predicate OnScript(p: Place, calls: nat, q: nat, job: Job) {
    && calls <= |job.ops|
    && (p.At? ==> calls < |job.ops| && p.d == job.ops[calls] && p.v == job.vals(q, calls))
  }

  predicate ScriptInv(g: Play, job: Job)
    requires |g.calls| == |g.w.ranks|
  {
    forall q :: 0 <= q < |g.w.ranks| ==> OnScript(g.w.ranks[q], g.calls[q], q, job)
  }

  ghost predicate PlayInv(g: Play, job: Job, c: Combiner) {
    && Inv(g.w, c) && |g.calls| == |g.w.ranks|
    && (forall i :: 0 <= i < |job.ops| ==> job.ops[i] < |g.w.sides|)
    && ScriptInv(g, job) && WakeInv(g.w)
    && (g.w.poison.None? ==> TallyInv(g, job))
    && (g.w.poison.Some? ==> EndInv(g.w))
  }

  lemma KicksOffWell(n: nat, m: nat, job: Job, c: Combiner)
    requires n > 0 && forall i :: 0 <= i < |job.ops| ==> job.ops[i] < m
    ensures PlayInv(Kickoff(n, m), job, c)
  {
    StartsWell(n, m, c);
    var g := Kickoff(n, m);
    forall q, d | 0 <= q < n && 0 <= d < m
      ensures Tally(job.ops, g.calls[q], g.w.ranks[q], q, d, g.w.sides[d])
    {
      assert job.ops[..0] == [];
    }
  }

  // ---------------------------------------------------------------------------
  // Tally
  // ---------------------------------------------------------------------------

  /** How a step of rank `r` on rendezvous `d` moves the tallies; `done` says whether its call returned. */
  ghost predicate Moves(w: World, x: World, r: nat, d: nat, done: nat) {
    && r < |w.ranks| == |x.ranks| && d < |w.sides| == |x.sides|
    && (forall q :: 0 <= q < |w.ranks| && q != r ==> x.ranks[q] == w.ranks[q])
    && (forall e :: 0 <= e < |w.sides| && e != d ==> x.sides[e] == w.sides[e])
    && (w.ranks[r].At? ==> w.ranks[r].d == d) && (x.ranks[r].At? ==> x.ranks[r].d == d)
    && SideShape(w.sides[d], |w.ranks|) && SideShape(x.sides[d], |w.ranks|)
    && (forall q :: 0 <= q < |w.ranks| && q != r ==> Score(x.sides[d], q) == Score(w.sides[d], q))
    && done + Inside(x.ranks[r], d) + Score(w.sides[d], r) == Inside(w.ranks[r], d) + Score(x.sides[d], r)
  }

  lemma TallyOfMover(ops: seq<nat>, calls: nat, w: World, x: World, r: nat, d: nat, done: nat, e: nat)
    requires Moves(w, x, r, d, done) && done <= 1 && e < |w.sides| && SideShape(w.sides[e], |w.ranks|)
    requires calls < |ops| && ops[calls] == d && Tally(ops, calls, w.ranks[r], r, e, w.sides[e])
    ensures SideShape(x.sides[e], |x.ranks|) && Tally(ops, calls + done, x.ranks[r], r, e, x.sides[e])
  {
    CountNext(ops, calls, e);
  }

  lemma TallyMoves(g: Play, h: Play, job: Job, r: nat, d: nat, done: nat)
    requires ShapesInv(g.w) && ShapesInv(h.w) && Moves(g.w, h.w, r, d, done)
    requires |g.calls| == |g.w.ranks| && h.calls == g.calls[r := g.calls[r] + done] && done <= 1
    requires TallyInv(g, job) && g.calls[r] < |job.ops| && job.ops[g.calls[r]] == d
    ensures TallyInv(h, job)
  {
    forall q, e | 0 <= q < |h.w.ranks| && 0 <= e < |h.w.sides|
      ensures Tally(job.ops, h.calls[q], h.w.ranks[q], q, e, h.w.sides[e])
    {
      assert Tally(job.ops, g.calls[q], g.w.ranks[q], q, e, g.w.sides[e]);
      if q == r {
        TallyOfMover(job.ops, g.calls[r], g.w, h.w, r, d, done, e);
      }
    }
  }

  predicate Calm(a: Action) {
    a != Look(true)
  }

  ghost predicate Seated(w: World, r: nat) {
    Stands(w, r) && SideShape(w.sides[w.ranks[r].d], |w.ranks|)
  }

  lemma DepositMoves(w: World, r: nat)
    requires Seated(w, r) && Can(w, r, Look(false)) && w.ranks[r].stage.OpenChecked?
    requires w.sides[w.ranks[r].d].round.outcome.None? && Current(w.sides[w.ranks[r].d])[r].None?
    ensures Moves(w, DoDeposit(w, r), r, w.ranks[r].d, 0)
  {
  }

  lemma CollectMoves(w: World, r: nat)
    requires Seated(w, r) && Can(w, r, Collect)
    requires Full(Current(w.sides[w.ranks[r].d]))
    ensures Moves(w, DoCollect(w, r), r, w.ranks[r].d, 1)
  {
  }

  lemma WaitingMoves(w: World, r: nat, a: Action, c: Combiner)
    requires Seated(w, r) && Can(w, r, a) && w.poison.None? && (a.Lock? || a.ReadPoison? || a == Look(false))
    requires a.Look? && w.ranks[r].stage.OpenChecked? ==> w.sides[w.ranks[r].d].round.outcome.Some?
    ensures Moves(w, Do(w, r, a, c), r, w.ranks[r].d, 0)
  {
  }

  lemma CombineMoves(w: World, r: nat, c: Combiner)
    requires Seated(w, r) && Can(w, r, Combine)
    ensures Moves(w, DoCombine(w, r, c), r, w.ranks[r].d, 0)
  {
  }

  lemma PublishMoves(w: World, r: nat)
    requires Seated(w, r) && Can(w, r, Publish)
    ensures Moves(w, DoPublish(w, r), r, w.ranks[r].d, 0)
  {
  }

  /** What the tallies need to know about the acting rank. */
  lemma SeatFacts(w: World, r: nat, c: Combiner)
    requires Inv(w, c) && Stands(w, r)
    ensures Seated(w, r)
    ensures w.ranks[r].stage.OpenChecked? && w.sides[w.ranks[r].d].round.outcome.None? && w.poison.None? ==>
              Current(w.sides[w.ranks[r].d])[r].None?
    ensures w.ranks[r].stage.Leaving? ==> Full(Current(w.sides[w.ranks[r].d]))
  {
    var d := w.ranks[r].d;
    assert SideInv(w.ranks, d, w.sides[d], w.poison, c) && StageInv(w.ranks[r], w.sides[d], |w.ranks|, w.poison, c);
  }

  /** While the world is alive every step keeps the tallies, and only collecting returns. */
  lemma StepMoves(w: World, r: nat, a: Action, c: Combiner)
    requires Inv(w, c) && Can(w, r, a) && Calm(a) && w.poison.None? && !a.Begin?
    ensures Moves(w, Do(w, r, a, c), r, w.ranks[r].d, if a.Collect? then 1 else 0)
  {
    SeatFacts(w, r, c);
    match a
    case Collect => CollectMoves(w, r);
    case Look(expired) =>
      if w.ranks[r].stage.OpenChecked? && w.sides[w.ranks[r].d].round.outcome.None? {
        DepositMoves(w, r);
      } else {
        WaitingMoves(w, r, a, c);
      }
    case Combine => CombineMoves(w, r, c);
    case Publish => PublishMoves(w, r);
    case _ => WaitingMoves(w, r, a, c);
  }

  lemma StepReturns(w: World, r: nat, a: Action, c: Combiner)
    requires Can(w, r, a) && Calm(a) && w.poison.None?
    ensures |Do(w, r, a, c).log| == |w.log| + if a.Collect? then 1 else 0
  {
  }

  // ---------------------------------------------------------------------------
  // Wake-ups and the script
  // ---------------------------------------------------------------------------

  /** Whoever changes the outcome notifies everybody, and a rank only goes to sleep when it has to wait. */
  ghost predicate Notifies(w: World, x: World, r: nat, d: nat) {
    && r < |w.ranks| == |x.ranks| && d < |w.sides| == |x.sides|
    && (forall q :: 0 <= q < |w.ranks| && q != r ==> x.ranks[q] == w.ranks[q])
    && (forall e :: 0 <= e < |w.sides| && e != d ==> x.sides[e] == w.sides[e])
    && (x.ranks[r].At? ==> x.ranks[r].d == d)
    && (forall q :: q in w.sides[d].woken && q != r ==> q in x.sides[d].woken || q >= |w.ranks|)
    && (x.sides[d].round.outcome == w.sides[d].round.outcome || x.sides[d].woken == Ranks(|w.ranks|))
    && (x.ranks[r].At? && x.ranks[r].stage.WaitSleep? ==> x.sides[d].round.outcome.None?)
    && (x.ranks[r].At? && x.ranks[r].stage.OpenSleep? ==> x.sides[d].round.outcome.Some?)
  }

  lemma NotifiesKeeps(w: World, x: World, r: nat, d: nat)
    requires WakeInv(w) && Notifies(w, x, r, d)
    ensures WakeInv(x)
  {
  }

  predicate SleepsRightly(w: World, r: nat) {
    Stands(w, r) && (w.ranks[r].stage.WaitChecked? ==> w.sides[w.ranks[r].d].round.outcome.None?)
  }

  lemma WaitNotifies(w: World, r: nat, a: Action, c: Combiner)
    requires SleepsRightly(w, r) && Can(w, r, a) && Calm(a) && (a.ReadPoison? || a.Look?)
    ensures Notifies(w, Do(w, r, a, c), r, w.ranks[r].d)
  {
  }

  lemma CollectNotifies(w: World, r: nat)
    requires Can(w, r, Collect)
    ensures Notifies(w, DoCollect(w, r), r, w.ranks[r].d)
  {
  }

  lemma StepNotifies(w: World, r: nat, a: Action, c: Combiner)
    requires SleepsRightly(w, r) && Can(w, r, a) && Calm(a) && !a.Begin?
    ensures Notifies(w, Do(w, r, a, c), r, w.ranks[r].d)
  {
    match a
    case ReadPoison => WaitNotifies(w, r, a, c);
    case Look(_) => WaitNotifies(w, r, a, c);
    case Collect => CollectNotifies(w, r);
    case _ =>
  }

  lemma StepWakes(w: World, r: nat, a: Action, c: Combiner)
    requires Inv(w, c) && WakeInv(w) && Can(w, r, a) && Calm(a)
    ensures WakeInv(Do(w, r, a, c))
  {
    if !a.Begin? {
      assert StageInv(w.ranks[r], w.sides[w.ranks[r].d], |w.ranks|, w.poison, c);
      StepNotifies(w, r, a, c);
      NotifiesKeeps(w, Do(w, r, a, c), r, w.ranks[r].d);
    }
  }

  lemma StepScript(g: Play, job: Job, r: nat, a: Action, c: Combiner)
    requires |g.calls| == |g.w.ranks| && ScriptInv(g, job) && May(g, job, r, a)
    ensures |Next(g, job, r, a, c).calls| == |Next(g, job, r, a, c).w.ranks| == |g.calls|
    ensures ScriptInv(Next(g, job, r, a, c), job)
  {
    assert OnScript(g.w.ranks[r], g.calls[r], r, job);
  }

  // ---------------------------------------------------------------------------
  // After a failed combine
  // ---------------------------------------------------------------------------

  /** A step of a rank inside a complete round leaves it there or lets it return. */
  ghost predicate Drains(w: World, x: World, r: nat, d: nat) {
    && r < |w.ranks| == |x.ranks| && d < |w.sides| == |x.sides|
    && (forall q :: 0 <= q < |w.ranks| && q != r ==> x.ranks[q] == w.ranks[q])
    && (x.ranks[r].At? ==> InRound(x.ranks[r], d))
    && SideShape(w.sides[d], |w.ranks|) && SideShape(x.sides[d], |x.ranks|)
    && (|| SameDeposits(w.sides[d], x.sides[d])
        || (x.ranks[r].Idle? && forall q :: 0 <= q < |w.ranks| && q != r ==> !InRound(w.ranks[q], d)))
  }

  lemma DrainsKeeps(w: World, x: World, r: nat, d: nat)
    requires ShapesInv(w) && ShapesInv(x) && EndInv(w) && Drains(w, x, r, d)
    requires w.ranks[r].At? && w.ranks[r].d == d
    ensures EndInv(x)
  {
    assert InRound(w.ranks[r], d) && Full(Current(w.sides[d]));
    forall q | 0 <= q < |x.ranks| && x.ranks[q].At?
      ensures x.ranks[q].d == d && InRound(x.ranks[q], d) && Full(Current(x.sides[d]))
    {
      assert w.ranks[q].At? && InRound(w.ranks[q], w.ranks[q].d);
    }
  }

  lemma CollectDrains(w: World, r: nat)
    requires Seated(w, r) && InRound(w.ranks[r], w.ranks[r].d) && Can(w, r, Collect)
    requires LastOut(w, r) ==> forall q :: 0 <= q < |w.ranks| && q != r ==> !InRound(w.ranks[q], w.ranks[r].d)
    ensures Drains(w, DoCollect(w, r), r, w.ranks[r].d)
  {
  }

  lemma WaitDrains(w: World, r: nat, a: Action, c: Combiner)
    requires Seated(w, r) && InRound(w.ranks[r], w.ranks[r].d) && Can(w, r, a) && (a.ReadPoison? || a.Look?)
    ensures Drains(w, Do(w, r, a, c), r, w.ranks[r].d)
  {
  }

  lemma DecideDrains(w: World, r: nat, a: Action, c: Combiner)
    requires Seated(w, r) && InRound(w.ranks[r], w.ranks[r].d) && Can(w, r, a) && (a.Lock? || a.Combine? || a.Publish?)
    ensures Drains(w, Do(w, r, a, c), r, w.ranks[r].d)
  {
  }

  lemma StepDrains(w: World, r: nat, a: Action, c: Combiner)
    requires Seated(w, r) && InRound(w.ranks[r], w.ranks[r].d) && Can(w, r, a) && !a.Begin?
    requires LastOut(w, r) ==> forall q :: 0 <= q < |w.ranks| && q != r ==> !InRound(w.ranks[q], w.ranks[r].d)
    ensures Drains(w, Do(w, r, a, c), r, w.ranks[r].d)
  {
    match a
    case Collect => CollectDrains(w, r);
    case ReadPoison => WaitDrains(w, r, a, c);
    case Look(_) => WaitDrains(w, r, a, c);
    case _ => DecideDrains(w, r, a, c);
  }

  lemma LastOutIsAlone(w: World, r: nat, c: Combiner)
    requires Inv(w, c) && LastOut(w, r)
    ensures forall q :: 0 <= q < |w.ranks| && q != r ==> !InRound(w.ranks[q], w.ranks[r].d)
  {
    var d := w.ranks[r].d;
    assert SideInv(w.ranks, d, w.sides[d], w.poison, c);
    CollectStep(w.sides[d].gone, r, |w.ranks|);
    forall q | 0 <= q < |w.ranks| && q != r
      ensures !InRound(w.ranks[q], d)
    {
      assert q in w.sides[d].gone + {r};
    }
  }

  lemma StepEnds(w: World, r: nat, a: Action, c: Combiner)
    requires Inv(w, c) && Can(w, r, a) && w.poison.Some? && EndInv(w) && ShapesInv(Do(w, r, a, c))
    ensures EndInv(Do(w, r, a, c))
  {
    if !a.Begin? {
      SeatFacts(w, r, c);
      if LastOut(w, r) { LastOutIsAlone(w, r, c); }
      StepDrains(w, r, a, c);
      DrainsKeeps(w, Do(w, r, a, c), r, w.ranks[r].d);
    }
  }

  /** When a combine fails everybody is in that round. */
  lemma FailureEnds(w: World, r: nat, a: Action, c: Combiner)
    requires Inv(w, c) && Can(w, r, a) && Calm(a) && w.poison.None? && Do(w, r, a, c).poison.Some?
    requires ShapesInv(Do(w, r, a, c))
    ensures EndInv(Do(w, r, a, c))
  {
    PoisoningStep(w, r, a, c);
    var x := DoCombine(w, r, c);
    var d := w.ranks[r].d;
    assert StageInv(w.ranks[r], w.sides[d], |w.ranks|, w.poison, c);
    forall q | 0 <= q < |x.ranks| && x.ranks[q].At?
      ensures x.ranks[q].d == d && InRound(x.ranks[q], d)
    {
      if q != r { DeciderIsAlone(w, r, q, c); }
    }
  }

  // ---------------------------------------------------------------------------
  // Every step keeps the invariant
  // ---------------------------------------------------------------------------

  lemma NextCalls(g: Play, job: Job, r: nat, a: Action, c: Combiner)
    requires May(g, job, r, a) && g.w.poison.None?
    ensures Next(g, job, r, a, c).calls == g.calls[r := g.calls[r] + if a.Collect? then 1 else 0]
  {
    StepReturns(g.w, r, a, c);
  }

  lemma StepTallies(g: Play, job: Job, r: nat, a: Action, c: Combiner)
    requires Inv(g.w, c) && |g.calls| == |g.w.ranks| && TallyInv(g, job) && May(g, job, r, a) && g.w.poison.None?
    requires OnScript(g.w.ranks[r], g.calls[r], r, job) && !a.Begin?
    requires ShapesInv(Do(g.w, r, a, c)) && |Do(g.w, r, a, c).ranks| == |g.calls|
    ensures TallyInv(Play(Do(g.w, r, a, c), g.calls[r := g.calls[r] + if a.Collect? then 1 else 0]), job)
  {
    var done := if a.Collect? then 1 else 0;
    StepMoves(g.w, r, a, c);
    TallyMoves(g, Play(Do(g.w, r, a, c), g.calls[r := g.calls[r] + done]), job, r, g.w.ranks[r].d, done);
  }

  lemma BeginTallies(g: Play, job: Job, r: nat, d: nat, v: Value)
    requires ShapesInv(g.w) && |g.calls| == |g.w.ranks| && TallyInv(g, job)
    requires May(g, job, r, Begin(d, v)) && g.w.poison.None?
    ensures ShapesInv(DoBegin(g.w, r, d, v)) && TallyInv(Play(DoBegin(g.w, r, d, v), g.calls), job)
  {
    BeginMoves(g.w, r, d, v);
    assert g.calls[r := g.calls[r] + 0] == g.calls;
    TallyMoves(g, Play(DoBegin(g.w, r, d, v), g.calls), job, r, d, 0);
  }

  lemma BeginMoves(w: World, r: nat, d: nat, v: Value)
    requires Can(w, r, Begin(d, v)) && w.poison.None? && SideShape(w.sides[d], |w.ranks|)
    ensures Moves(w, DoBegin(w, r, d, v), r, d, 0)
  {
  }

  lemma NextKeeps(g: Play, job: Job, r: nat, a: Action, c: Combiner)
    requires PlayInv(g, job, c) && May(g, job, r, a)
    ensures PlayInv(Next(g, job, r, a, c), job, c)
  {
    StepKeeps(g.w, r, a, c);
    StepScript(g, job, r, a, c);
    StepWakes(g.w, r, a, c);
    StepLogsOnly(g.w, r, a, c);
    SameSides(g.w, r, a, c);
    if g.w.poison.Some? {
      PoisonStays(g.w, r, a, c);
      StepEnds(g.w, r, a, c);
    } else {
      NextCalls(g, job, r, a, c);
      if a.Begin? { BeginTallies(g, job, r, a.d, a.v); } else { StepTallies(g, job, r, a, c); }
      if Do(g.w, r, a, c).poison.Some? { FailureEnds(g.w, r, a, c); }
    }
  }

  lemma SameSides(w: World, r: nat, a: Action, c: Combiner)
    requires Can(w, r, a)
    ensures |Do(w, r, a, c).sides| == |w.sides|
  {
  }

  // ---------------------------------------------------------------------------
  // Never more than one call apart
  // ---------------------------------------------------------------------------

  /** Rank `q` has deposited for call `i`. */
  predicate HasJoined(g: Play, job: Job, q: nat, i: nat) {
    && q < |g.w.ranks| && q < |g.calls| && i < |job.ops|
    && (i < g.calls[q] || (i == g.calls[q] && InRound(g.w.ranks[q], job.ops[i])))
  }

  /** A tally that counts call `i` means that the call was joined. */
  lemma TallyJoins(g: Play, job: Job, q: nat, i: nat)
    requires |g.calls| == |g.w.ranks| && q < |g.calls| && i < |job.ops| && OnScript(g.w.ranks[q], g.calls[q], q, job)
    requires Count(job.ops[..g.calls[q]], job.ops[i]) + Inside(g.w.ranks[q], job.ops[i])
             > Count(job.ops[..i], job.ops[i])
    ensures HasJoined(g, job, q, i)
  {
    var d := job.ops[i];
    if g.calls[q] <= i {
      CountGrows(job.ops, g.calls[q], i, d);
      if g.calls[q] < i {
        CountNext(job.ops, g.calls[q], d);
        CountGrows(job.ops, g.calls[q] + 1, i, d);
      }
    }
  }

  lemma TalliesJoin(g: Play, job: Job, r: nat, q: nat, i: nat, side: Side)
    requires |g.calls| == |g.w.ranks| && r < |g.calls| && q < |g.calls| && i < g.calls[r] <= |job.ops|
    requires OnScript(g.w.ranks[q], g.calls[q], q, job) && HasSeat(side, r) && HasSeat(side, q)
    requires Tally(job.ops, g.calls[r], g.w.ranks[r], r, job.ops[i], side)
    requires Tally(job.ops, g.calls[q], g.w.ranks[q], q, job.ops[i], side)
    requires Current(side)[r].Some? && !InRound(g.w.ranks[r], job.ops[i]) ==> Current(side)[q].Some?
    ensures HasJoined(g, job, q, i)
  {
    CountNext(job.ops, i, job.ops[i]);
    CountGrows(job.ops, i + 1, g.calls[r], job.ops[i]);
    TallyJoins(g, job, q, i);
  }

  /** While the world is alive nobody finishes a call before everybody has joined it. */
  lemma FinishedCallsAreJoined(g: Play, job: Job, c: Combiner, r: nat, q: nat, i: nat)
    requires PlayInv(g, job, c) && g.w.poison.None?
    requires r < |g.calls| && q < |g.calls| && i < g.calls[r]
    ensures HasJoined(g, job, q, i)
  {
    assert OnScript(g.w.ranks[r], g.calls[r], r, job) && OnScript(g.w.ranks[q], g.calls[q], q, job);
    var d := job.ops[i];
    GoneMeansFull(g.w, d, r, q, c);
    assert Tally(job.ops, g.calls[r], g.w.ranks[r], r, d, g.w.sides[d])
      && Tally(job.ops, g.calls[q], g.w.ranks[q], q, d, g.w.sides[d]);
    TalliesJoin(g, job, r, q, i, g.w.sides[d]);
  }

  /** In a live world a rank that returned from the current round saw it complete. */
  lemma GoneMeansFull(w: World, d: nat, r: nat, q: nat, c: Combiner)
    requires Inv(w, c) && d < |w.sides| && w.poison.None? && r < |w.ranks| && q < |w.ranks|
    ensures SideShape(w.sides[d], |w.ranks|)
    ensures Current(w.sides[d])[r].Some? && !InRound(w.ranks[r], d) ==> Current(w.sides[d])[q].Some?
  {
    assert SideInv(w.ranks, d, w.sides[d], w.poison, c);
  }

  /** Ranks are never more than one call apart. */
  lemma NeverMoreThanOneApart(g: Play, job: Job, c: Combiner, r: nat, q: nat)
    requires PlayInv(g, job, c) && g.w.poison.None? && r < |g.calls| && q < |g.calls|
    ensures g.calls[r] <= g.calls[q] + 1
  {
    if g.calls[r] > g.calls[q] + 1 {
      FinishedCallsAreJoined(g, job, c, r, q, g.calls[q] + 1);
    }
  }

  // ---------------------------------------------------------------------------
  // Somebody can always move
  // ---------------------------------------------------------------------------

  /** Whoever holds a lock can go on. */
  lemma HolderMoves(g: Play, job: Job, c: Combiner, h: nat) returns (a: Action)
    requires PlayInv(g, job, c) && Stands(g.w, h) && Holds(g.w.ranks[h], g.w.ranks[h].d)
    ensures May(g, job, h, a)
  {
    a := LockHolderMoves(g.w, c, h);
  }

  /** A rank that only waits for a lock, or for a notification it has got, is not stuck. */
  lemma LockMoves(g: Play, job: Job, c: Combiner, r: nat) returns (q: nat, a: Action)
    requires PlayInv(g, job, c) && Stands(g.w, r)
    requires Sleeping(g.w.ranks[r].stage) ==> r in g.w.sides[g.w.ranks[r].d].woken
    ensures May(g, job, q, a)
  {
    var d := g.w.ranks[r].d;
    if Holds(g.w.ranks[r], d) {
      a := HolderMoves(g, job, c, r);
      q := r;
    } else if g.w.sides[d].lock.None? {
      q, a := r, Lock;
    } else {
      q, a := LockedMoves(g, job, c, d);
    }
  }

  /** A taken lock has a holder, who can move. */
  lemma LockedMoves(g: Play, job: Job, c: Combiner, d: nat) returns (q: nat, a: Action)
    requires PlayInv(g, job, c) && d < |g.w.sides| && g.w.sides[d].lock.Some?
    ensures May(g, job, q, a)
  {
    assert SideInv(g.w.ranks, d, g.w.sides[d], g.w.poison, c);
    q := g.w.sides[d].lock.value;
    a := HolderMoves(g, job, c, q);
  }

  /** A sleeper whose round has been decided has been notified. */
  lemma OpenSleeperMoves(g: Play, job: Job, c: Combiner, r: nat) returns (q: nat, a: Action)
    requires PlayInv(g, job, c) && Stands(g.w, r) && g.w.ranks[r].stage.OpenSleep?
    ensures May(g, job, q, a)
  {
    var d := g.w.ranks[r].d;
    var side := g.w.sides[d];
    if r in side.woken {
      q, a := LockMoves(g, job, c, r);
    } else {
      q := Laggard(g.w, d, c);
      if Holds(g.w.ranks[q], d) {
        a := HolderMoves(g, job, c, q);
      } else {
        q, a := LockMoves(g, job, c, q);
      }
    }
  }

  /** A round with an outcome still has a rank inside. */
  lemma Laggard(w: World, d: nat, c: Combiner) returns (q: nat)
    requires Inv(w, c) && d < |w.sides| && w.sides[d].round.outcome.Some?
    ensures q < |w.ranks| && InRound(w.ranks[q], d)
  {
    var side := w.sides[d];
    assert SideInv(w.ranks, d, side, w.poison, c);
    assert side.gone != Ranks(|w.ranks|);
    assert Ranks(|w.ranks|) - side.gone != {};
    q :| q in Ranks(|w.ranks|) && q !in side.gone;
    assert Current(side)[q].Some?;
  }

  /** The least advanced rank that still has something to do. */
  lemma Slowest(g: Play, job: Job, n: nat) returns (r: nat)
    requires |g.calls| == |g.w.ranks| && 0 < n <= |g.calls|
    ensures r < n && forall q :: 0 <= q < n ==> g.calls[r] <= g.calls[q]
  {
    r := 0;
    if n > 1 {
      var s := Slowest(g, job, n - 1);
      r := if g.calls[s] <= g.calls[n - 1] then s else n - 1;
    }
  }

  /** A sleeper in an undecided round waits for a rank that has not deposited yet. */
  lemma Missing(w: World, d: nat, c: Combiner) returns (q: nat)
    requires Inv(w, c) && d < |w.sides| && w.sides[d].round.outcome.None? && w.sides[d].lock.None?
    ensures q < |w.ranks| && SideShape(w.sides[d], |w.ranks|) && Current(w.sides[d])[q].None?
    ensures !InRound(w.ranks[q], d)
  {
    assert SideInv(w.ranks, d, w.sides[d], w.poison, c);
    q :| 0 <= q < |w.ranks| && Current(w.sides[d])[q].None?;
  }

  /** The missing rank is at the same call as the slowest one, and not yet in the round. */
  lemma MissingIsSlowest(g: Play, job: Job, c: Combiner, r: nat, q: nat)
    requires PlayInv(g, job, c) && g.w.poison.None? && r < |g.calls| && q < |g.calls|
    requires g.w.ranks[r].At? && InRound(g.w.ranks[r], g.w.ranks[r].d) && g.calls[r] <= g.calls[q]
    requires var side := g.w.sides[g.w.ranks[r].d];
             SideShape(side, |g.w.ranks|) && Current(side)[q].None? && !InRound(g.w.ranks[q], g.w.ranks[r].d)
    ensures g.calls[q] == g.calls[r] < |job.ops|
  {
    var i := g.calls[r];
    assert OnScript(g.w.ranks[r], i, r, job) && OnScript(g.w.ranks[q], g.calls[q], q, job);
    var d := job.ops[i];
    assert Tally(job.ops, i, g.w.ranks[r], r, d, g.w.sides[d])
      && Tally(job.ops, g.calls[q], g.w.ranks[q], q, d, g.w.sides[d]);
    if g.calls[q] > i {
      CountNext(job.ops, i, d);
      CountGrows(job.ops, i + 1, g.calls[q], d);
    }
  }

  /** A rank outside its round: idle with a call to begin, or on its way in. */
  lemma OutsiderMoves(g: Play, job: Job, c: Combiner, q: nat) returns (s: nat, a: Action)
    requires PlayInv(g, job, c) && q < |g.calls| && g.calls[q] < |job.ops|
    requires g.w.ranks[q].Idle? || !InRound(g.w.ranks[q], g.w.ranks[q].d)
    ensures May(g, job, s, a)
  {
    assert OnScript(g.w.ranks[q], g.calls[q], q, job);
    if g.w.ranks[q].Idle? {
      s, a := q, Begin(job.ops[g.calls[q]], job.vals(q, g.calls[q]));
    } else if g.w.ranks[q].stage.OpenSleep? {
      s, a := OpenSleeperMoves(g, job, c, q);
    } else {
      s, a := LockMoves(g, job, c, q);
    }
  }

  lemma WaitSleeperMoves(g: Play, job: Job, c: Combiner, r: nat) returns (q: nat, a: Action)
    requires PlayInv(g, job, c) && Stands(g.w, r) && g.w.ranks[r].stage.WaitSleep?
    requires g.w.poison.None? ==> forall q :: 0 <= q < |g.calls| ==> g.calls[r] <= g.calls[q]
    ensures May(g, job, q, a)
  {
    var d := g.w.ranks[r].d;
    if r in g.w.sides[d].woken {
      q, a := LockMoves(g, job, c, r);
    } else if g.w.sides[d].lock.Some? {
      q, a := LockedMoves(g, job, c, d);
    } else {
      var s := Missing(g.w, d, c);
      assert g.w.poison.None? by { assert Current(g.w.sides[d])[s].None?; }
      MissingIsSlowest(g, job, c, r, s);
      assert OnScript(g.w.ranks[r], g.calls[r], r, job) && OnScript(g.w.ranks[s], g.calls[s], s, job);
      q, a := OutsiderMoves(g, job, c, s);
    }
  }

  /** As long as somebody has work left, somebody can take a step: no deadlock and no lost wake-up. */
  lemma SomebodyMoves(g: Play, job: Job, c: Combiner) returns (q: nat, a: Action)
    requires PlayInv(g, job, c) && !Finished(g, job)
    ensures May(g, job, q, a)
  {
    var r := Slowest(g, job, |g.calls|);
    if g.w.poison.Some? || g.calls[r] == |job.ops| {
      r :| 0 <= r < |g.w.ranks| && !(g.w.ranks[r].Idle? && g.calls[r] == |job.ops|);
    }
    assert OnScript(g.w.ranks[r], g.calls[r], r, job);
    if g.w.ranks[r].Idle? || !InRound(g.w.ranks[r], g.w.ranks[r].d) {
      q, a := OutsiderMoves(g, job, c, r);
    } else if g.w.ranks[r].stage.WaitSleep? {
      q, a := WaitSleeperMoves(g, job, c, r);
    } else {
      q := r;
      a := HolderMoves(g, job, c, r);
    }
  }

  // ---------------------------------------------------------------------------
  // Every run ends
  // ---------------------------------------------------------------------------

  /** How much of its script a rank has before it: six units a call, minus the part of the current one. */
  function Major(p: Place, calls: nat, total: nat): int {
    6 * (total - calls) - (
      match p
      case Idle => 0
      case At(_, _, g) =>
        match g
        case Publishing(_) => 3
        case Leaving => 4
        case Combining => 2
        case WaitTop => 2
        case WaitChecked => 2
        case WaitSleep => 2
        case _ => 1)
  }

  /** How many steps of its wait loop a rank can still take without being notified. */
  function Minor(p: Place, q: nat, sides: seq<Side>): nat {
    match p
    case Idle => 0
    case At(d, _, g) =>
      match g
      case Enter => 4
      case OpenTop => 3
      case WaitTop => 3
      case OpenChecked => 2
      case WaitChecked => 2
      case OpenSleep => if d < |sides| && q in sides[d].woken then 4 else 1
      case WaitSleep => if d < |sides| && q in sides[d].woken then 4 else 1
      case _ => 0
  }

  function Majors(g: Play, total: nat, n: nat): int
    requires n <= |g.w.ranks| && n <= |g.calls|
  {
    if n == 0 then 0 else Majors(g, total, n - 1) + Major(g.w.ranks[n - 1], g.calls[n - 1], total)
  }

  function Minors(w: World, n: nat): (s: nat)
    requires n <= |w.ranks|
    ensures s <= 4 * n
  {
    if n == 0 then 0 else Minors(w, n - 1) + Minor(w.ranks[n - 1], n - 1, w.sides)
  }

  /** A bound on the number of steps still to come. */
  function Work(g: Play, total: nat): int
    requires |g.calls| == |g.w.ranks|
  {
    var n := |g.w.ranks|;
    Scaled(Majors(g, total, n), 4 * n + 1) + Minors(g.w, n)
  }

  function Scaled(a: int, b: int): int {
    a * b
  }

  lemma ScaledFalls(a: int, b: int, k: nat)
    requires a < b
    ensures Scaled(a, k) + k <= Scaled(b, k)
  {
    assert (b - a - 1) * k >= 0;
    assert b * k == a * k + (b - a - 1) * k + k;
  }

  lemma {:induction false} MajorsMove(g: Play, h: Play, total: nat, r: nat, n: nat)
    requires n <= |g.w.ranks| == |g.calls| == |h.w.ranks| == |h.calls| && r < |g.calls|
    requires forall q :: 0 <= q < n && q != r ==> h.w.ranks[q] == g.w.ranks[q] && h.calls[q] == g.calls[q]
    ensures Majors(h, total, n) - Majors(g, total, n)
         == if r < n then Major(h.w.ranks[r], h.calls[r], total) - Major(g.w.ranks[r], g.calls[r], total) else 0
  {
    if n > 0 {
      MajorsMove(g, h, total, r, n - 1);
    }
  }

  lemma {:induction false} MinorsMove(w: World, x: World, r: nat, n: nat)
    requires n <= |w.ranks| == |x.ranks| && r < |w.ranks|
    requires forall q :: 0 <= q < n && q != r ==> Minor(x.ranks[q], q, x.sides) == Minor(w.ranks[q], q, w.sides)
    ensures Minors(x, n) - Minors(w, n)
         == if r < n then Minor(x.ranks[r], r, x.sides) - Minor(w.ranks[r], r, w.sides) else 0
  {
    if n > 0 {
      MinorsMove(w, x, r, n - 1);
    }
  }

  lemma {:induction false} MajorsPositive(g: Play, job: Job, n: nat)
    requires n <= |g.w.ranks| == |g.calls| && ScriptInv(g, job)
    ensures Majors(g, |job.ops|, n) >= 0
  {
    if n > 0 {
      MajorsPositive(g, job, n - 1);
      assert OnScript(g.w.ranks[n - 1], g.calls[n - 1], n - 1, job);
    }
  }

  /** Each step finishes a part of a call, or uses up a part of a wait without waking anybody. */
  ghost predicate Falls(w: World, x: World, r: nat, done: nat) {
    && r < |w.ranks| == |x.ranks|
    && (forall q :: 0 <= q < |w.ranks| && q != r ==> x.ranks[q] == w.ranks[q])
    && (|| Major(x.ranks[r], done, 1) < Major(w.ranks[r], 0, 1)
        || (&& Major(x.ranks[r], done, 1) == Major(w.ranks[r], 0, 1)
            && Minor(x.ranks[r], r, x.sides) < Minor(w.ranks[r], r, w.sides)
            && forall q :: 0 <= q < |w.ranks| && q != r ==>
                Minor(w.ranks[q], q, x.sides) == Minor(w.ranks[q], q, w.sides)))
  }

  lemma WaitFalls(w: World, r: nat, a: Action, c: Combiner)
    requires Can(w, r, a) && Calm(a) && (a.ReadPoison? || a.Look?)
    ensures var x := Do(w, r, a, c); Falls(w, x, r, if |x.log| > |w.log| then 1 else 0)
  {
  }

  lemma StepFalls(g: Play, job: Job, r: nat, a: Action, c: Combiner)
    requires May(g, job, r, a)
    ensures var x := Do(g.w, r, a, c); Falls(g.w, x, r, if |x.log| > |g.w.log| then 1 else 0)
  {
    match a
    case ReadPoison => WaitFalls(g.w, r, a, c);
    case Look(_) => WaitFalls(g.w, r, a, c);
    case _ =>
  }

  /** Every step leaves less work. */
  lemma WorkFalls(g: Play, job: Job, r: nat, a: Action, c: Combiner)
    requires May(g, job, r, a) && |g.calls| == |g.w.ranks|
    ensures |Next(g, job, r, a, c).calls| == |Next(g, job, r, a, c).w.ranks|
    ensures Work(Next(g, job, r, a, c), |job.ops|) < Work(g, |job.ops|)
  {
    StepFalls(g, job, r, a, c);
    FallsCounts(g, Next(g, job, r, a, c), |job.ops|, r);
  }

  lemma FallsCounts(g: Play, h: Play, total: nat, r: nat)
    requires r < |g.calls| == |g.w.ranks| == |h.calls| == |h.w.ranks| && h.calls[r] >= g.calls[r]
    requires h.calls == g.calls[r := h.calls[r]] && Falls(g.w, h.w, r, h.calls[r] - g.calls[r])
    ensures Work(h, total) < Work(g, total)
  {
    var n := |g.calls|;
    MajorsMove(g, h, total, r, n);
    if Majors(h, total, n) < Majors(g, total, n) {
      ScaledFalls(Majors(h, total, n), Majors(g, total, n), 4 * n + 1);
    } else {
      MinorsMove(g.w, h.w, r, n);
    }
  }

  // ---------------------------------------------------------------------------
  // Runs
  // ---------------------------------------------------------------------------

  ghost predicate Plays(g: Play, job: Job, steps: seq<Step>, c: Combiner)
    decreases |steps|
  {
    steps != [] ==>
      && May(g, job, steps[0].rank, steps[0].action)
      && Plays(Next(g, job, steps[0].rank, steps[0].action, c), job, steps[1..], c)
  }

  ghost function After(g: Play, job: Job, steps: seq<Step>, c: Combiner): Play
    requires Plays(g, job, steps, c)
    decreases |steps|
  {
    if steps == [] then g else After(Next(g, job, steps[0].rank, steps[0].action, c), job, steps[1..], c)
  }

  lemma {:induction false} PlaysKeep(g: Play, job: Job, steps: seq<Step>, c: Combiner)
    requires PlayInv(g, job, c) && Plays(g, job, steps, c)
    ensures PlayInv(After(g, job, steps, c), job, c)
    ensures |After(g, job, steps, c).calls| == |After(g, job, steps, c).w.ranks|
    ensures |steps| + Work(After(g, job, steps, c), |job.ops|) <= Work(g, |job.ops|)
    decreases |steps|
  {
    if steps != [] {
      NextKeeps(g, job, steps[0].rank, steps[0].action, c);
      WorkFalls(g, job, steps[0].rank, steps[0].action, c);
      PlaysKeep(Next(g, job, steps[0].rank, steps[0].action, c), job, steps[1..], c);
    }
  }

  /** Where a reachable play stands. */
  ghost predicate Progressing(g: Play, job: Job) {
    && |g.calls| == |g.w.ranks|
    && (Finished(g, job) || exists q, a :: May(g, job, q, a))
    && (g.w.poison.None? ==> forall r, q :: 0 <= r < |g.calls| && 0 <= q < |g.calls| ==> g.calls[r] <= g.calls[q] + 1)
  }

  lemma NeverStuck(g: Play, job: Job, c: Combiner)
    requires PlayInv(g, job, c)
    ensures Finished(g, job) || exists q, a :: May(g, job, q, a)
  {
    if !Finished(g, job) {
      var q, a := SomebodyMoves(g, job, c);
    }
  }

  lemma WorkPositive(g: Play, job: Job)
    requires |g.calls| == |g.w.ranks| && ScriptInv(g, job)
    ensures Work(g, |job.ops|) >= 0
  {
    MajorsPositive(g, job, |g.calls|);
    ScaledSign(Majors(g, |job.ops|, |g.calls|), 4 * |g.calls| + 1);
  }

  lemma AllNear(g: Play, job: Job, c: Combiner)
    requires PlayInv(g, job, c) && g.w.poison.None?
    ensures forall r, q :: 0 <= r < |g.calls| && 0 <= q < |g.calls| ==> g.calls[r] <= g.calls[q] + 1
  {
    forall r, q | 0 <= r < |g.calls| && 0 <= q < |g.calls|
      ensures g.calls[r] <= g.calls[q] + 1
    {
      NeverMoreThanOneApart(g, job, c, r, q);
    }
  }

  lemma PlayProgresses(g: Play, job: Job, c: Combiner)
    requires PlayInv(g, job, c)
    ensures Progressing(g, job) && Work(g, |job.ops|) >= 0
  {
    WorkPositive(g, job);
    NeverStuck(g, job, c);
    if g.w.poison.None? {
      AllNear(g, job, c);
    }
  }

  lemma ScaledSign(a: nat, k: nat)
    ensures Scaled(a, k) >= 0
  {
  }

  /**
   Whatever the interleaving, a run without timeouts is no longer than the work in the script, it can
   only stop when every rank has finished every call, and while no combine has failed no two ranks are
   ever more than one call apart.
   */
  lemma RunsEndFinished(n: nat, m: nat, job: Job, steps: seq<Step>, c: Combiner)
    requires n > 0 && (forall i :: 0 <= i < |job.ops| ==> job.ops[i] < m)
    requires Plays(Kickoff(n, m), job, steps, c)
    ensures |steps| <= Work(Kickoff(n, m), |job.ops|)
    ensures Progressing(After(Kickoff(n, m), job, steps, c), job)
  {
    KicksOffWell(n, m, job, c);
    var g := Kickoff(n, m);
    PlaysKeep(g, job, steps, c);
    PlayProgresses(After(g, job, steps, c), job, c);
  }

  // ---------------------------------------------------------------------------
  // What the calls return
  // ---------------------------------------------------------------------------

  /** Call `i` of rank `r` deposited its value in the round of that call and collected the outcome. */
  ghost predicate CallDone(w: World, job: Job, r: nat, i: nat)
    requires i < |job.ops|
  {
    var d, k := job.ops[i], Count(job.ops[..i], job.ops[i]);
    && d < |w.sides| && k < |w.sides[d].deposits| && r < |w.sides[d].deposits[k]|
    && w.sides[d].deposits[k][r] == Some(job.vals(r, i))
    && exists j :: 0 <= j < |w.log| && InRoundOf(w.log[j], r, d, k) && w.log[j].reply.Collected?
  }

  ghost predicate CallsDone(g: Play, job: Job)
    requires |g.calls| == |g.w.ranks|
  {
    forall r, i :: 0 <= r < |g.calls| && 0 <= i < g.calls[r] && i < |job.ops| ==> CallDone(g.w, job, r, i)
  }

  predicate DepositsKept(s: Side, t: Side) {
    && |s.deposits| <= |t.deposits|
    && forall k, q :: 0 <= k < |s.deposits| && 0 <= q < |s.deposits[k]| && s.deposits[k][q].Some? ==>
                        q < |t.deposits[k]| && t.deposits[k][q] == s.deposits[k][q]
  }

  /** Nothing that was deposited or returned is ever lost. */
  predicate HistoryKept(w: World, x: World) {
    && |x.sides| == |w.sides| && w.log <= x.log
    && forall d :: 0 <= d < |w.sides| ==> DepositsKept(w.sides[d], x.sides[d])
  }

  lemma StepHistory(w: World, r: nat, a: Action, c: Combiner)
    requires Can(w, r, a) && !(a.Look? && w.ranks[r].stage.OpenChecked?)
    ensures HistoryKept(w, Do(w, r, a, c))
  {
  }

  lemma LookHistory(w: World, r: nat, a: Action, c: Combiner)
    requires Can(w, r, a) && a.Look? && w.ranks[r].stage.OpenChecked?
    requires w.sides[w.ranks[r].d].round.outcome.None? ==> Current(w.sides[w.ranks[r].d])[r].None?
    ensures HistoryKept(w, Do(w, r, a, c))
  {
  }

  lemma CallStaysDone(w: World, x: World, job: Job, r: nat, i: nat)
    requires i < |job.ops| && CallDone(w, job, r, i) && HistoryKept(w, x)
    ensures CallDone(x, job, r, i)
  {
    var d, k := job.ops[i], Count(job.ops[..i], job.ops[i]);
    assert DepositsKept(w.sides[d], x.sides[d]);
    var j :| 0 <= j < |w.log| && InRoundOf(w.log[j], r, d, k) && w.log[j].reply.Collected?;
    assert x.log[j] == w.log[j];
  }

  /** A rank inside the round of call `i` has left its value there. */
  lemma InsideLeavesValue(g: Play, job: Job, c: Combiner, r: nat)
    requires PlayInv(g, job, c) && g.w.poison.None? && r < |g.calls| && g.calls[r] < |job.ops|
    requires InRound(g.w.ranks[r], job.ops[g.calls[r]])
    ensures var d := job.ops[g.calls[r]];
            && SideShape(g.w.sides[d], |g.w.ranks|) && g.w.sides[d].number == Count(job.ops[..g.calls[r]], d)
            && Current(g.w.sides[d])[r] == Some(job.vals(r, g.calls[r]))
  {
    var d := job.ops[g.calls[r]];
    assert OnScript(g.w.ranks[r], g.calls[r], r, job);
    assert SideInv(g.w.ranks, d, g.w.sides[d], g.w.poison, c);
    assert Tally(job.ops, g.calls[r], g.w.ranks[r], r, d, g.w.sides[d]);
  }

  lemma CollectDone(w: World, job: Job, r: nat, i: nat)
    requires Seated(w, r) && Can(w, r, Collect) && i < |job.ops| && w.ranks[r].d == job.ops[i]
    requires w.sides[job.ops[i]].number == Count(job.ops[..i], job.ops[i])
    requires Current(w.sides[job.ops[i]])[r] == Some(job.vals(r, i))
    requires HistoryKept(w, DoCollect(w, r))
    ensures CallDone(DoCollect(w, r), job, r, i)
  {
    var x := DoCollect(w, r);
    var d := w.ranks[r].d;
    assert DepositsKept(w.sides[d], x.sides[d]);
    assert InRoundOf(x.log[|w.log|], r, d, w.sides[d].number);
  }

  lemma NextHistory(w: World, r: nat, a: Action, c: Combiner)
    requires Inv(w, c) && Can(w, r, a) && w.poison.None?
    ensures HistoryKept(w, Do(w, r, a, c))
  {
    if a.Look? && w.ranks[r].stage.OpenChecked? {
      SeatFacts(w, r, c);
      LookHistory(w, r, a, c);
    } else {
      StepHistory(w, r, a, c);
    }
  }

  lemma HistoryDone(g: Play, x: World, calls: seq<nat>, job: Job, r: nat, done: nat)
    requires |g.calls| == |g.w.ranks| == |x.ranks| && CallsDone(g, job) && HistoryKept(g.w, x)
    requires r < |g.calls| && calls == g.calls[r := g.calls[r] + done] && done <= 1
    requires done == 1 ==> g.calls[r] < |job.ops| && CallDone(x, job, r, g.calls[r])
    ensures CallsDone(Play(x, calls), job)
  {
    forall q, i | 0 <= q < |calls| && 0 <= i < calls[q] && i < |job.ops|
      ensures CallDone(x, job, q, i)
    {
      if i < g.calls[q] { CallStaysDone(g.w, x, job, q, i); }
    }
  }

  lemma ReturnIsDone(g: Play, job: Job, r: nat, c: Combiner)
    requires PlayInv(g, job, c) && g.w.poison.None? && r < |g.calls| && Can(g.w, r, Collect)
    requires HistoryKept(g.w, DoCollect(g.w, r))
    ensures g.calls[r] < |job.ops| && CallDone(DoCollect(g.w, r), job, r, g.calls[r])
  {
    SeatFacts(g.w, r, c);
    assert OnScript(g.w.ranks[r], g.calls[r], r, job);
    InsideLeavesValue(g, job, c, r);
    CollectDone(g.w, job, r, g.calls[r]);
  }

  lemma CollectCallsDone(g: Play, job: Job, r: nat, c: Combiner)
    requires PlayInv(g, job, c) && g.w.poison.None? && CallsDone(g, job) && r < |g.calls| && Can(g.w, r, Collect)
    requires HistoryKept(g.w, DoCollect(g.w, r)) && |DoCollect(g.w, r).ranks| == |g.calls|
    ensures CallsDone(Play(DoCollect(g.w, r), g.calls[r := g.calls[r] + 1]), job)
  {
    ReturnIsDone(g, job, r, c);
    HistoryDone(g, DoCollect(g.w, r), g.calls[r := g.calls[r] + 1], job, r, 1);
  }

  lemma OtherCallsDone(g: Play, job: Job, r: nat, a: Action, c: Combiner)
    requires Inv(g.w, c) && Can(g.w, r, a) && !a.Collect? && g.w.poison.None?
    requires |g.calls| == |g.w.ranks| && r < |g.calls| && CallsDone(g, job) && |Do(g.w, r, a, c).ranks| == |g.calls|
    ensures CallsDone(Play(Do(g.w, r, a, c), g.calls), job)
  {
    NextHistory(g.w, r, a, c);
    assert g.calls[r := g.calls[r] + 0] == g.calls;
    HistoryDone(g, Do(g.w, r, a, c), g.calls, job, r, 0);
  }

  lemma {:induction false} PlaysDo(g: Play, job: Job, steps: seq<Step>, c: Combiner)
    requires PlayInv(g, job, c) && Plays(g, job, steps, c) && (g.w.poison.None? ==> CallsDone(g, job))
    ensures var h := After(g, job, steps, c); |h.calls| == |h.w.ranks| && (h.w.poison.None? ==> CallsDone(h, job))
    decreases |steps|
  {
    if steps != [] {
      var r, a := steps[0].rank, steps[0].action;
      NextKeeps(g, job, r, a, c);
      if g.w.poison.None? {
        NextCalls(g, job, r, a, c);
        if a.Collect? {
          NextHistory(g.w, r, a, c);
          CollectCallsDone(g, job, r, c);
        } else {
          assert g.calls[r := g.calls[r] + 0] == g.calls;
          OtherCallsDone(g, job, r, a, c);
        }
      } else {
        PoisonStays(g.w, r, a, c);
      }
      PlaysDo(Next(g, job, r, a, c), job, steps[1..], c);
    }
  }

  /** The values all ranks bring to call `i`, in rank order. */
  function Brought(job: Job, n: nat, i: nat): seq<Value> {
    seq(n, q requires 0 <= q => job.vals(q, i))
  }

  /** Every rank that joined call `i` left its value in the round of that call. */
  lemma JoinedLeavesValue(g: Play, job: Job, c: Combiner, q: nat, i: nat)
    requires PlayInv(g, job, c) && g.w.poison.None? && CallsDone(g, job) && HasJoined(g, job, q, i)
    ensures var d, k := job.ops[i], Count(job.ops[..i], job.ops[i]);
            && k < |g.w.sides[d].deposits| && q < |g.w.sides[d].deposits[k]|
            && g.w.sides[d].deposits[k][q] == Some(job.vals(q, i))
  {
    var d := job.ops[i];
    if i < g.calls[q] {
      assert CallDone(g.w, job, q, i);
    } else {
      InsideLeavesValue(g, job, c, q);
    }
  }

  /**
   In a run without timeouts and failed combines, the i-th call of every rank returns the combine of
   everybody's i-th value, although rounds carry no operation identity.
   */
  lemma CallsReturnTheWholeWorldsSum(n: nat, m: nat, job: Job, steps: seq<Step>, c: Combiner, r: nat, i: nat)
    requires n > 0 && (forall k :: 0 <= k < |job.ops| ==> job.ops[k] < m)
    requires Plays(Kickoff(n, m), job, steps, c)
    requires var g := After(Kickoff(n, m), job, steps, c);
             g.w.poison.None? && r < |g.calls| && i < g.calls[r]
    ensures i < |job.ops|
    ensures var g := After(Kickoff(n, m), job, steps, c);
            exists j :: 0 <= j < |g.w.log| && InRoundOf(g.w.log[j], r, job.ops[i], Count(job.ops[..i], job.ops[i]))
                        && g.w.log[j].reply == Collected(c(job.ops[i], Brought(job, |g.w.ranks|, i)))
  {
    var g0 := Kickoff(n, m);
    KicksOffWell(n, m, job, c);
    PlaysKeep(g0, job, steps, c);
    PlaysDo(g0, job, steps, c);
    var g := After(g0, job, steps, c);
    CallReturns(g, job, c, r, i);
  }

  lemma CallReturns(g: Play, job: Job, c: Combiner, r: nat, i: nat)
    requires PlayInv(g, job, c) && g.w.poison.None? && CallsDone(g, job) && r < |g.calls| && i < g.calls[r]
    ensures i < |job.ops|
    ensures exists j :: 0 <= j < |g.w.log| && InRoundOf(g.w.log[j], r, job.ops[i], Count(job.ops[..i], job.ops[i]))
                        && g.w.log[j].reply == Collected(c(job.ops[i], Brought(job, |g.w.ranks|, i)))
  {
    assert OnScript(g.w.ranks[r], g.calls[r], r, job);
    assert CallDone(g.w, job, r, i);
    var d, k, n := job.ops[i], Count(job.ops[..i], job.ops[i]), |g.w.ranks|;
    var side := g.w.sides[d];
    var j :| 0 <= j < |g.w.log| && InRoundOf(g.w.log[j], r, d, k) && g.w.log[j].reply.Collected?;
    assert RecordInv(g.w.log[j], side, n, c);
    forall q | 0 <= q < n
      ensures side.deposits[k][q] == Some(job.vals(q, i))
    {
      FinishedCallsAreJoined(g, job, c, r, q, i);
      JoinedLeavesValue(g, job, c, q, i);
    }
    assert Values(side.deposits[k]) == Brought(job, n, i);
  }
}
