/**
 What every interleaving of the rendezvous guarantees: the ranks of a round agree on its outcome, and
 a poisoned world never publishes again.
 */
module RendezvousAgreement {
  import opened Common
  import opened Rendezvous

  // ---------------------------------------------------------------------------
  // Agreement
  // ---------------------------------------------------------------------------

  predicate InRoundOf(e: Record, q: nat, d: nat, k: nat) {
    e.rank == q && e.d == d && e.round == Some(k)
  }

  ghost predicate Returned(log: seq<Record>, q: nat, d: nat, k: nat) {
    exists i :: 0 <= i < |log| && InRoundOf(log[i], q, d, k)
  }

  /** No rank takes part twice in a round. */
  ghost predicate OncePerRound(log: seq<Record>) {
    forall i, j :: 0 <= i < j < |log| && log[i].round.Some? ==>
      !InRoundOf(log[j], log[i].rank, log[i].d, log[i].round.value)
  }

  /** Everybody has returned from the rounds that are over, and the ranks in `gone` from the current one. */
  ghost predicate SideReturned(log: seq<Record>, d: nat, side: Side, n: nat) {
    && (forall k, q :: 0 <= k < side.number && 0 <= q < n ==> Returned(log, q, d, k))
    && (forall q :: q in side.gone ==> Returned(log, q, d, side.number))
  }

  ghost predicate RoundsReturned(w: World) {
    forall d :: 0 <= d < |w.sides| ==> SideReturned(w.log, d, w.sides[d], |w.ranks|)
  }

  lemma ReturnedStays(log: seq<Record>, more: seq<Record>, d: nat, side: Side, n: nat)
    requires log <= more && SideReturned(log, d, side, n)
    ensures SideReturned(more, d, side, n)
  {
    forall k, q | Returned(log, q, d, k)
      ensures Returned(more, q, d, k)
    {
      var i :| 0 <= i < |log| && InRoundOf(log[i], q, d, k);
      assert InRoundOf(more[i], q, d, k);
    }
  }

  /** How a step of rank `r` on rendezvous `d` moves the bookkeeping of who returned from which round. */
  ghost predicate Turnover(w: World, x: World, r: nat, d: nat) {
    && |x.ranks| == |w.ranks| && d < |w.sides| == |x.sides| && w.log <= x.log
    && (forall e :: 0 <= e < |w.sides| && e != d ==> x.sides[e] == w.sides[e])
    && var s, t := w.sides[d], x.sides[d];
       || (&& t.number == s.number && t.gone == s.gone
           && (|x.log| == |w.log| || (|x.log| == |w.log| + 1 && x.log[|w.log|].round.None?)))
       || (&& |x.log| == |w.log| + 1 && InRoundOf(x.log[|w.log|], r, d, s.number) && r !in s.gone
           && (|| (t.number == s.number && t.gone == s.gone + {r})
               || (t.number == s.number + 1 && t.gone == {} && Ranks(|w.ranks|) <= s.gone + {r})))
  }

  /** A rank inside a round has not left it. */
  predicate Inside(w: World, r: nat) {
    Stands(w, r) && (InRound(w.ranks[r], w.ranks[r].d) ==> r !in w.sides[w.ranks[r].d].gone)
  }

  lemma LookTurnover(w: World, r: nat, expired: bool)
    requires Can(w, r, Look(expired)) && Inside(w, r)
    ensures Turnover(w, DoLook(w, r, expired), r, w.ranks[r].d)
  {
  }

  lemma ReadTurnover(w: World, r: nat)
    requires Can(w, r, ReadPoison) && Inside(w, r)
    ensures Turnover(w, DoReadPoison(w, r), r, w.ranks[r].d)
  {
  }

  lemma PublishTurnover(w: World, r: nat, c: Combiner)
    requires Stands(w, r)
    ensures Can(w, r, Combine) ==> Turnover(w, DoCombine(w, r, c), r, w.ranks[r].d)
    ensures Can(w, r, Publish) ==> Turnover(w, DoPublish(w, r), r, w.ranks[r].d)
  {
  }

  lemma CollectTurnover(w: World, r: nat)
    requires Can(w, r, Collect) && w.sides[w.ranks[r].d].gone <= Ranks(|w.ranks|)
    requires w.sides[w.ranks[r].d].round.departed == |w.sides[w.ranks[r].d].gone|
    requires r !in w.sides[w.ranks[r].d].gone
    ensures Turnover(w, DoCollect(w, r), r, w.ranks[r].d)
  {
    CollectStep(w.sides[w.ranks[r].d].gone, r, |w.ranks|);
  }

  lemma StepTurnover(w: World, r: nat, a: Action, c: Combiner)
    requires Inv(w, c) && Can(w, r, a) && !a.Begin?
    ensures Turnover(w, Do(w, r, a, c), r, w.ranks[r].d)
  {
    assert Inside(w, r) by {
      assert SideInv(w.ranks, w.ranks[r].d, w.sides[w.ranks[r].d], w.poison, c);
    }
    match a
    case Lock =>
    case ReadPoison => ReadTurnover(w, r);
    case Look(expired) => LookTurnover(w, r, expired);
    case Collect =>
      assert SideInv(w.ranks, w.ranks[r].d, w.sides[w.ranks[r].d], w.poison, c);
      CollectTurnover(w, r);
    case _ => PublishTurnover(w, r, c);
  }

  /** Once `r` has returned from the current round too, it is in `gone`, or was the last to leave. */
  lemma SideTurns(log: seq<Record>, d: nat, s: Side, t: Side, r: nat, n: nat)
    requires SideReturned(log, d, s, n) && Returned(log, r, d, s.number)
    requires || (t.number == s.number && t.gone == s.gone + {r})
             || (t.number == s.number + 1 && t.gone == {} && Ranks(n) <= s.gone + {r})
    ensures SideReturned(log, d, t, n)
  {
    forall k, q | 0 <= k < t.number && 0 <= q < n
      ensures Returned(log, q, d, k)
    {
      if k == s.number {
        assert q in s.gone + {r};
      }
    }
  }

  lemma TurnoverReturned(w: World, x: World, r: nat, d: nat)
    requires Turnover(w, x, r, d) && RoundsReturned(w)
    ensures RoundsReturned(x)
  {
    var s, t, n := w.sides[d], x.sides[d], |w.ranks|;
    forall e | 0 <= e < |w.sides|
      ensures SideReturned(x.log, e, w.sides[e], n)
    {
      ReturnedStays(w.log, x.log, e, w.sides[e], n);
    }
    if t.number != s.number || t.gone != s.gone {
      assert InRoundOf(x.log[|w.log|], r, d, s.number);
      SideTurns(x.log, d, s, t, r, n);
    }
    assert SideReturned(x.log, d, t, n);
  }

  lemma TurnoverOnce(w: World, x: World, r: nat, d: nat, c: Combiner)
    requires Turnover(w, x, r, d) && OncePerRound(w.log)
    requires forall i :: 0 <= i < |w.log| && w.log[i].d == d && w.log[i].round == Some(w.sides[d].number) ==>
                           w.log[i].rank in w.sides[d].gone
    ensures OncePerRound(x.log)
  {
    assert forall i :: 0 <= i < |w.log| ==> x.log[i] == w.log[i];
  }

  lemma StepOrderly(w: World, r: nat, a: Action, c: Combiner)
    requires Orderly(w, c) && Can(w, r, a)
    ensures Orderly(Do(w, r, a, c), c)
  {
    StepKeeps(w, r, a, c);
    var x := Do(w, r, a, c);
    var d := if a.Begin? then a.d else w.ranks[r].d;
    if !a.Begin? {
      StepTurnover(w, r, a, c);
    }
    assert Turnover(w, x, r, d);
    TurnoverReturned(w, x, r, d);
    forall i | 0 <= i < |w.log| && w.log[i].d == d && w.log[i].round == Some(w.sides[d].number)
      ensures w.log[i].rank in w.sides[d].gone
    {
      assert RecordInv(w.log[i], w.sides[d], |w.ranks|, c);
    }
    TurnoverOnce(w, x, r, d, c);
  }

  ghost predicate Orderly(w: World, c: Combiner) {
    Inv(w, c) && OncePerRound(w.log) && RoundsReturned(w)
  }

  lemma {:induction false} RunStaysOrderly(w: World, steps: seq<Step>, c: Combiner)
    requires Orderly(w, c) && Runs(w, steps, c)
    ensures Orderly(Run(w, steps, c), c)
    decreases |steps|
  {
    if steps != [] {
      StepOrderly(w, steps[0].rank, steps[0].action, c);
      RunStaysOrderly(Do(w, steps[0].rank, steps[0].action, c), steps[1..], c);
    }
  }

  lemma ReachableIsOrderly(n: nat, m: nat, steps: seq<Step>, c: Combiner)
    requires n > 0 && Runs(Start(n, m), steps, c)
    ensures Orderly(Run(Start(n, m), steps, c), c)
  {
    StartsWell(n, m, c);
    RunStaysOrderly(Start(n, m), steps, c);
  }

  /**
   If any rank collects from a round, every rank that deposited in it gets exactly that outcome, never
   a timeout and never a poisoned error.
   */
  lemma RoundsAgree(n: nat, m: nat, steps: seq<Step>, c: Combiner, i: nat, j: nat)
    requires n > 0 && Runs(Start(n, m), steps, c)
    requires var log := Run(Start(n, m), steps, c).log;
             && i < |log| && j < |log| && log[i].reply.Collected?
             && log[j].d == log[i].d && log[j].round == log[i].round
    ensures var log := Run(Start(n, m), steps, c).log; log[j].reply == log[i].reply
  {
    ReachableIsOrderly(n, m, steps, c);
    var w := Run(Start(n, m), steps, c);
    var e, f := w.log[i], w.log[j];
    assert RecordInv(e, w.sides[e.d], |w.ranks|, c) && RecordInv(f, w.sides[f.d], |w.ranks|, c);
  }

  /** `vals` holds what each rank passed to its call in round `k` of `d`. */
  ghost predicate Contributed(log: seq<Record>, d: nat, k: nat, vals: seq<Value>) {
    forall j :: 0 <= j < |log| && log[j].d == d && log[j].round == Some(k) ==>
      log[j].rank < |vals| && vals[log[j].rank] == log[j].v
  }

  /**
   Once a round is over every rank has returned from it exactly once, and the outcome is the combine of
   what they passed in, in rank order: nothing from another round and nothing twice.
   */
  lemma FinishedRoundCombinesItsOwnDeposits(
    n: nat, m: nat, steps: seq<Step>, c: Combiner, d: nat, k: nat, i: nat, vals: seq<Value>)
    requires n > 0 && d < m && Runs(Start(n, m), steps, c)
    requires var w := Run(Start(n, m), steps, c);
             && d < |w.sides| && k < w.sides[d].number && |vals| == n && |w.ranks| == n
             && Contributed(w.log, d, k, vals)
             && i < |w.log| && w.log[i].d == d && w.log[i].round == Some(k)
    ensures var w := Run(Start(n, m), steps, c); w.log[i].reply == Collected(c(d, vals))
    ensures var w := Run(Start(n, m), steps, c); forall q :: 0 <= q < n ==> Returned(w.log, q, d, k)
    ensures OncePerRound(Run(Start(n, m), steps, c).log)
  {
    ReachableIsOrderly(n, m, steps, c);
    var w := Run(Start(n, m), steps, c);
    var side := w.sides[d];
    assert SideInv(w.ranks, d, side, w.poison, c) && SideReturned(w.log, d, side, n);
    assert RecordInv(w.log[i], side, n, c);
    var slots := side.deposits[k];
    forall q | 0 <= q < n
      ensures slots[q] == Some(vals[q])
    {
      assert Returned(w.log, q, d, k);
      var j :| 0 <= j < |w.log| && InRoundOf(w.log[j], q, d, k);
      assert RecordInv(w.log[j], side, n, c);
    }
    assert Values(slots) == vals;
  }

  // ---------------------------------------------------------------------------
  // Poison
  // ---------------------------------------------------------------------------

  /** The cell keeps the first message over every run. */
  lemma {:induction false} FirstMessageIsKept(w: World, steps: seq<Step>, c: Combiner)
    requires w.poison.Some? && Runs(w, steps, c)
    ensures Run(w, steps, c).poison == w.poison
    decreases |steps|
  {
    if steps != [] {
      PoisonStays(w, steps[0].rank, steps[0].action, c);
      FirstMessageIsKept(Do(w, steps[0].rank, steps[0].action, c), steps[1..], c);
    }
  }

  lemma PoisonStays(w: World, r: nat, a: Action, c: Combiner)
    requires w.poison.Some? && Can(w, r, a)
    ensures Do(w, r, a, c).poison == w.poison
  {
  }

  ghost predicate NobodyPublishes(w: World) {
    forall r :: 0 <= r < |w.ranks| ==> Plain(w.ranks[r]) || w.ranks[r].stage.Combining?
  }

  /** While `r` publishes or combines, every rank is in that round: nobody else can decide or time out anywhere. */
  lemma DeciderIsAlone(w: World, r: nat, q: nat, c: Combiner)
    requires Inv(w, c) && r < |w.ranks| && w.ranks[r].At? && !Plain(w.ranks[r])
    requires q < |w.ranks| && q != r
    ensures InRound(w.ranks[q], w.ranks[r].d) && !Holds(w.ranks[q], w.ranks[r].d)
  {
    var d := w.ranks[r].d;
    assert StageInv(w.ranks[r], w.sides[d], |w.ranks|, w.poison, c);
    assert SideInv(w.ranks, d, w.sides[d], w.poison, c);
    assert Current(w.sides[d])[q].Some?;
    assert Holds(w.ranks[r], d);
  }

  /**
   The world is poisoned either by a timeout, and then nobody is publishing anything, or by a failed
   combine, and then that failure is the only thing being published.
   */
  lemma PoisoningStep(w: World, r: nat, a: Action, c: Combiner)
    requires Inv(w, c) && Can(w, r, a) && w.poison.None? && Do(w, r, a, c).poison.Some?
    ensures var x := Do(w, r, a, c);
            || (a == Look(true) && NobodyPublishes(x))
            || (&& a == Combine && x.ranks[r] == At(w.ranks[r].d, w.ranks[r].v, Publishing(Bad(x.poison.value)))
                && forall q :: 0 <= q < |x.ranks| && q != r ==> Plain(x.ranks[q]))
  {
    var x := Do(w, r, a, c);
    forall q | 0 <= q < |w.ranks| && q != r
      ensures Plain(w.ranks[q])
    {
      if !Plain(w.ranks[q]) {
        DeciderIsAlone(w, q, r, c);
      }
    }
  }

  /** Publishing the failure was the last publication. */
  lemma FailureIsPublishedLast(w: World, r: nat, c: Combiner)
    requires Inv(w, c) && Can(w, r, Publish) && w.poison.Some?
    ensures w.ranks[r].stage.o == Bad(w.poison.value)
    ensures NobodyPublishes(DoPublish(w, r))
  {
    assert StageInv(w.ranks[r], w.sides[w.ranks[r].d], |w.ranks|, w.poison, c);
    forall q | 0 <= q < |w.ranks| && q != r
      ensures Plain(w.ranks[q])
    {
      if !Plain(w.ranks[q]) {
        DeciderIsAlone(w, r, q, c);
      }
    }
  }

  /** Rank `r` is about to publish the failure that poisoned the world. */
  predicate Failing(w: World, r: nat) {
    Stands(w, r) && w.poison.Some? && w.ranks[r].stage == Publishing(Bad(w.poison.value))
  }

  lemma PoisonedAction(w: World, r: nat, a: Action, c: Combiner)
    requires Inv(w, c) && Can(w, r, a) && w.poison.Some?
    ensures !a.Combine? && (a.Publish? ==> Failing(w, r))
  {
    if w.ranks[r].At? {
      assert StageInv(w.ranks[r], w.sides[w.ranks[r].d], |w.ranks|, w.poison, c);
    }
  }

  lemma OnlyCombiningPublishes(w: World, r: nat, a: Action, c: Combiner)
    requires Can(w, r, a) && !a.Combine?
    ensures Plain(Do(w, r, a, c).ranks[r]) || Do(w, r, a, c).ranks[r].stage.Combining?
  {
  }

  lemma FailingStays(w: World, r: nat, a: Action, c: Combiner, x: World, q: nat)
    requires Inv(w, c) && Can(w, r, a) && w.poison.Some? && x == Do(w, r, a, c) && Failing(x, q)
    ensures Failing(w, q) && w.ranks[q] == x.ranks[q]
  {
    PoisonedAction(w, r, a, c);
    PoisonStays(w, r, a, c);
    StepLogsOnly(w, r, a, c);
    OnlyCombiningPublishes(w, r, a, c);
    SidesStay(w, r, a, c);
  }

  lemma SidesStay(w: World, r: nat, a: Action, c: Combiner)
    requires Can(w, r, a)
    ensures |Do(w, r, a, c).sides| == |w.sides|
  {
  }

  lemma QuietStays(w: World, r: nat, a: Action, c: Combiner, x: World)
    requires Inv(w, c) && Can(w, r, a) && w.poison.Some? && x == Do(w, r, a, c) && NobodyPublishes(w)
    ensures !a.Publish? && NobodyPublishes(x)
  {
    PoisonedAction(w, r, a, c);
    StepLogsOnly(w, r, a, c);
    OnlyCombiningPublishes(w, r, a, c);
  }

  predicate NoPublication(steps: seq<Step>) {
    forall i :: 0 <= i < |steps| ==> !steps[i].action.Publish?
  }

  lemma {:induction false} QuietRun(w: World, steps: seq<Step>, c: Combiner)
    requires Inv(w, c) && w.poison.Some? && NobodyPublishes(w) && Runs(w, steps, c)
    ensures NoPublication(steps)
    decreases |steps|
  {
    if steps != [] {
      var r, a := steps[0].rank, steps[0].action;
      StepKeeps(w, r, a, c);
      QuietStays(w, r, a, c, Do(w, r, a, c));
      PoisonStays(w, r, a, c);
      QuietRun(Do(w, r, a, c), steps[1..], c);
    }
  }

  /** Nothing is combined and at most one step publishes, by a rank that is failing in `w`. */
  ghost predicate OnlyTheFailure(w: World, steps: seq<Step>) {
    && (forall i :: 0 <= i < |steps| ==> !steps[i].action.Combine?)
    && (forall i :: 0 <= i < |steps| && steps[i].action.Publish? ==> Failing(w, steps[i].rank))
    && (forall i, j :: 0 <= i < j < |steps| ==> !(steps[i].action.Publish? && steps[j].action.Publish?))
  }

  lemma OnlyTheFailureBefore(w: World, y: World, s: Step, steps: seq<Step>)
    requires OnlyTheFailure(y, steps) && forall q: nat :: Failing(y, q) ==> Failing(w, q)
    requires !s.action.Combine? && (s.action.Publish? ==> Failing(w, s.rank) && NoPublication(steps))
    ensures OnlyTheFailure(w, [s] + steps)
  {
  }

  /** A step before a run that only publishes the failure. */
  lemma FailureStep(w: World, s: Step, y: World, steps: seq<Step>, c: Combiner)
    requires Inv(w, c) && Can(w, s.rank, s.action) && w.poison.Some? && y == Do(w, s.rank, s.action, c)
    requires OnlyTheFailure(y, steps) && (s.action.Publish? ==> NoPublication(steps))
    ensures OnlyTheFailure(w, [s] + steps)
  {
    PoisonedAction(w, s.rank, s.action, c);
    forall q: nat | Failing(y, q)
      ensures Failing(w, q)
    {
      FailingStays(w, s.rank, s.action, c, y, q);
    }
    OnlyTheFailureBefore(w, y, s, steps);
  }

  /** After the failure has been published nothing else is. */
  lemma NothingAfterTheFailure(w: World, r: nat, y: World, steps: seq<Step>, c: Combiner)
    requires Inv(w, c) && Can(w, r, Publish) && w.poison.Some? && y == Do(w, r, Publish, c) && Runs(y, steps, c)
    ensures NoPublication(steps)
  {
    StepKeeps(w, r, Publish, c);
    PoisonStays(w, r, Publish, c);
    FailureIsPublishedLast(w, r, c);
    QuietRun(y, steps, c);
  }

  /**
   From any poisoned world: no run combines anything any more, and at most one step publishes, namely the
   failure itself, by a rank that was already about to publish it when the run began.
   */
  lemma {:induction false} NothingPublishesAfterPoison(w: World, steps: seq<Step>, c: Combiner)
    requires Inv(w, c) && w.poison.Some? && Runs(w, steps, c)
    ensures OnlyTheFailure(w, steps)
    decreases |steps|
  {
    if steps != [] {
      var s, rest := steps[0], steps[1..];
      var y := Do(w, s.rank, s.action, c);
      StepKeeps(w, s.rank, s.action, c);
      PoisonStays(w, s.rank, s.action, c);
      NothingPublishesAfterPoison(y, rest, c);
      if s.action.Publish? {
        NothingAfterTheFailure(w, s.rank, y, rest, c);
      }
      FailureStep(w, s, y, rest, c);
      assert steps == [s] + rest;
    }
  }

  /** What `e` collected was already there in `w`, or is the failure that was about to be published there. */
  ghost predicate OldOrFailure(w: World, e: Record) {
    && e.d < |w.sides| && e.round == Some(w.sides[e.d].number) && e.reply.Collected? && w.poison.Some?
    && (|| w.sides[e.d].round.outcome == Some(e.reply.o)
        || (e.reply.o == Bad(w.poison.value) && exists r: nat :: Failing(w, r) && w.ranks[r].d == e.d))
  }

  lemma FailingHasNoOutcome(w: World, r: nat, c: Combiner)
    requires Inv(w, c) && Failing(w, r)
    ensures w.sides[w.ranks[r].d].round.outcome.None?
  {
    assert StageInv(w.ranks[r], w.sides[w.ranks[r].d], |w.ranks|, w.poison, c);
  }

  /** Only a collected round ends. */
  lemma RoundsEndCollected(w: World, r: nat, a: Action, c: Combiner, d: nat)
    requires Can(w, r, a) && d < |w.sides| && Do(w, r, a, c).sides[d].number != w.sides[d].number
    ensures w.sides[d].round.outcome.Some? && Do(w, r, a, c).sides[d].round.outcome.None?
  {
  }

  /** Outcomes appear by being published. */
  lemma OutcomesCome(w: World, r: nat, a: Action, c: Combiner, d: nat)
    requires Can(w, r, a) && d < |w.sides|
    ensures var was, now := w.sides[d].round.outcome, Do(w, r, a, c).sides[d].round.outcome;
            now.Some? && now != was ==> a.Publish? && w.ranks[r].d == d && now == Some(w.ranks[r].stage.o)
  {
  }

  /** If a later collection is explained after a step, it is explained before it. */
  lemma ExplainedBefore(w: World, r: nat, a: Action, c: Combiner, x: World, e: Record)
    requires Inv(w, c) && Can(w, r, a) && w.poison.Some? && x == Do(w, r, a, c) && OldOrFailure(x, e)
    ensures OldOrFailure(w, e)
  {
    PoisonedAction(w, r, a, c);
    PoisonStays(w, r, a, c);
    SidesStay(w, r, a, c);
    OutcomesCome(w, r, a, c, e.d);
    if x.sides[e.d].number != w.sides[e.d].number {
      RoundsEndCollected(w, r, a, c, e.d);
    }
    if x.sides[e.d].round.outcome != Some(e.reply.o) {
      var p: nat :| Failing(x, p) && x.ranks[p].d == e.d;
      FailingStays(w, r, a, c, x, p);
      FailingHasNoOutcome(w, p, c);
    }
  }

  /** A step that returns an outcome returns the one that is there. */
  lemma CollectsWhatIsThere(w: World, r: nat, a: Action, c: Combiner)
    requires Can(w, r, a) && w.poison.Some?
    requires |Do(w, r, a, c).log| > |w.log| && Do(w, r, a, c).log[|w.log|].reply.Collected?
    ensures OldOrFailure(w, Do(w, r, a, c).log[|w.log|])
  {
  }

  /**
   Every outcome collected from a poisoned world on was there when it was poisoned, or is the failure that
   was then about to be published.
   */
  lemma {:induction false} OnlyOldOutcomesAreCollected(w: World, steps: seq<Step>, c: Combiner, i: nat)
    requires Inv(w, c) && w.poison.Some? && Runs(w, steps, c)
    requires |w.log| <= i < |Run(w, steps, c).log| && Run(w, steps, c).log[i].reply.Collected?
    ensures OldOrFailure(w, Run(w, steps, c).log[i])
    decreases |steps|
  {
    if steps != [] {
      var r, a := steps[0].rank, steps[0].action;
      var y := Do(w, r, a, c);
      StepLogsOnly(w, r, a, c);
      LogGrows(y, steps[1..], c);
      if i < |y.log| {
        CollectsWhatIsThere(w, r, a, c);
      } else {
        StepKeeps(w, r, a, c);
        PoisonStays(w, r, a, c);
        OnlyOldOutcomesAreCollected(y, steps[1..], c, i);
        ExplainedBefore(w, r, a, c, y, Run(w, steps, c).log[i]);
      }
    }
  }

  lemma {:induction false} LogGrows(w: World, steps: seq<Step>, c: Combiner)
    requires Runs(w, steps, c)
    ensures w.log <= Run(w, steps, c).log
    decreases |steps|
  {
    if steps != [] {
      StepLogsOnly(w, steps[0].rank, steps[0].action, c);
      LogGrows(Do(w, steps[0].rank, steps[0].action, c), steps[1..], c);
    }
  }

  /** A call begun in a poisoned world fails with the first message and deposits nothing, whatever else runs. */
  lemma {:induction false} CallsAfterPoisonFail(w: World, steps: seq<Step>, c: Combiner, r: nat)
    requires w.poison.Some? && r < |w.ranks| && w.ranks[r].Idle? && Runs(w, steps, c)
    ensures var x := Run(w, steps, c);
            && w.log <= x.log && r < |x.ranks| && x.ranks[r].Idle?
            && forall i :: |w.log| <= i < |x.log| && x.log[i].rank == r ==>
                             x.log[i].round.None? && x.log[i].reply == PoisonedBy(w.poison.value)
    decreases |steps|
  {
    if steps != [] {
      PoisonStays(w, steps[0].rank, steps[0].action, c);
      StepOfIdle(w, steps[0].rank, steps[0].action, c, r);
      CallsAfterPoisonFail(Do(w, steps[0].rank, steps[0].action, c), steps[1..], c, r);
    }
  }

  predicate LogsOnly(w: World, x: World, s: nat) {
    && w.log <= x.log && |x.log| <= |w.log| + 1 && |x.ranks| == |w.ranks|
    && (|x.log| > |w.log| ==> x.log[|w.log|].rank == s)
    && (forall q :: 0 <= q < |w.ranks| && q != s ==> x.ranks[q] == w.ranks[q])
  }

  lemma StepLogsOnly(w: World, s: nat, a: Action, c: Combiner)
    requires Can(w, s, a)
    ensures LogsOnly(w, Do(w, s, a, c), s)
  {
  }

  lemma StepOfIdle(w: World, s: nat, a: Action, c: Combiner, r: nat)
    requires w.poison.Some? && r < |w.ranks| && w.ranks[r].Idle? && Can(w, s, a)
    ensures var x := Do(w, s, a, c);
            && LogsOnly(w, x, s) && x.ranks[r].Idle?
             && (|x.log| > |w.log| && s == r ==>
                  x.log[|w.log|].round.None? && x.log[|w.log|].reply == PoisonedBy(w.poison.value))
  {
    if s != r {
      StepLogsOnly(w, s, a, c);
    }
  }

  // ---------------------------------------------------------------------------
  // Deposits can still happen after the poisoning, but never complete a round
  // ---------------------------------------------------------------------------

  lemma {:induction false} RunsOn(w: World, steps: seq<Step>, s: Step, c: Combiner)
    requires Runs(w, steps, c) && Can(Run(w, steps, c), s.rank, s.action)
    ensures Runs(w, steps + [s], c) && Run(w, steps + [s], c) == Do(Run(w, steps, c), s.rank, s.action, c)
    decreases |steps|
  {
    if steps == [] {
      assert [s][1..] == [];
    } else {
      assert (steps + [s])[1..] == steps[1..] + [s];
      RunsOn(Do(w, steps[0].rank, steps[0].action, c), steps[1..], s, c);
    }
  }

  /** `steps` leads from a fresh world of two ranks and two rendezvous to `w`. */
  ghost predicate Leads(steps: seq<Step>, w: World, c: Combiner) {
    Runs(Start(2, 2), steps, c) && Run(Start(2, 2), steps, c) == w
  }

  lemma Then(steps: seq<Step>, w: World, r: nat, a: Action, c: Combiner) returns (more: seq<Step>)
    requires Leads(steps, w, c) && Can(w, r, a)
    ensures Leads(more, Do(w, r, a, c), c)
  {
    RunsOn(Start(2, 2), steps, Step(r, a), c);
    more := steps + [Step(r, a)];
  }

  function Asked(v: Value): World {
    World([At(0, v, OpenChecked), Idle], [FreshSide(2).(lock := Some(0)), FreshSide(2)], None, [])
  }

  function AskedTwice(v: Value): World {
    Asked(v).(ranks := [At(0, v, OpenChecked), At(1, v, OpenChecked)],
              sides := [FreshSide(2).(lock := Some(0)), FreshSide(2).(lock := Some(1))])
  }

  lemma FirstAsks(v: Value, c: Combiner) returns (steps: seq<Step>)
    ensures Leads(steps, Asked(v), c)
  {
    steps := Then([], Start(2, 2), 0, Begin(0, v), c);
    var w1 := DoBegin(Start(2, 2), 0, 0, v);
    steps := Then(steps, w1, 0, Lock, c);
    var w2 := DoLock(w1, 0);
    steps := Then(steps, w2, 0, ReadPoison, c);
    assert DoReadPoison(w2, 0) == Asked(v);
  }

  lemma SecondAsks(before: seq<Step>, v: Value, c: Combiner) returns (steps: seq<Step>)
    requires Leads(before, Asked(v), c)
    ensures Leads(steps, AskedTwice(v), c)
  {
    steps := Then(before, Asked(v), 1, Begin(1, v), c);
    var w1 := DoBegin(Asked(v), 1, 1, v);
    steps := Then(steps, w1, 1, Lock, c);
    var w2 := DoLock(w1, 1);
    steps := Then(steps, w2, 1, ReadPoison, c);
    assert DoReadPoison(w2, 1) == AskedTwice(v);
  }

  function Waiting(v: Value): World {
    var slots := Empty(2)[1 := Some(v)];
    var side := Side(Round(slots, 1, 0, None), Some(1), {}, 0, [slots], {});
    AskedTwice(v).(ranks := [At(0, v, OpenChecked), At(1, v, WaitChecked)],
                   sides := [FreshSide(2).(lock := Some(0)), side])
  }

  lemma SecondWaits(before: seq<Step>, v: Value, c: Combiner) returns (steps: seq<Step>)
    requires Leads(before, AskedTwice(v), c)
    ensures Leads(steps, Waiting(v), c)
  {
    steps := Then(before, AskedTwice(v), 1, Look(false), c);
    var w1 := DoDeposit(AskedTwice(v), 1);
    steps := Then(steps, w1, 1, ReadPoison, c);
    var slots := Empty(2)[1 := Some(v)];
    assert [Empty(2)][0 := slots] == [slots];
    assert DoReadPoison(w1, 1) == Waiting(v);
  }

  /** A rank that read a clear cell on one rendezvous deposits although the other one has timed out since. */
  lemma DepositsCanFollowPoison(v: Value, c: Combiner) returns (steps: seq<Step>, w: World)
    ensures Leads(steps, w, c) && w.poison == Some(TIMEOUT)
    ensures Can(w, 0, Look(false)) && |w.sides| == 2 && SideShape(w.sides[0], 2) && Current(w.sides[0])[0].None?
    ensures var x := Do(w, 0, Look(false), c);
            |x.sides| == 2 && SideShape(x.sides[0], 2) && Current(x.sides[0])[0] == Some(v)
  {
    steps := FirstAsks(v, c);
    steps := SecondAsks(steps, v, c);
    steps := SecondWaits(steps, v, c);
    steps := Then(steps, Waiting(v), 1, Look(true), c);
    w := DoLook(Waiting(v), 1, true);
  }

  /** Such a deposit is never the last of its round, so it never combines. */
  lemma LateDepositsNeverComplete(w: World, r: nat, c: Combiner)
    requires Inv(w, c) && Can(w, r, Look(false)) && w.poison.Some?
    requires w.ranks[r].stage.OpenChecked? && w.sides[w.ranks[r].d].round.outcome.None?
    ensures var x := DoDeposit(w, r); x.ranks[r].stage.WaitTop? && !Full(Current(x.sides[w.ranks[r].d]))
  {
    var d := w.ranks[r].d;
    var x := DoDeposit(w, r);
    assert SideInv(w.ranks, d, w.sides[d], w.poison, c) && StageInv(w.ranks[r], w.sides[d], |w.ranks|, w.poison, c);
    DepositCount(Current(w.sides[d]), r, w.ranks[r].v);
    FullCount(Current(x.sides[d]));
  }

  /** Rank `r` read a clear cell, holds its lock and finds the round open: its next step deposits. */
  predicate AboutToDeposit(w: World, r: nat) {
    Stands(w, r) && w.ranks[r].stage.OpenChecked? && w.sides[w.ranks[r].d].round.outcome.None?
  }

  /** Some step of the run deposits. */
  ghost predicate Deposits(w: World, steps: seq<Step>, c: Combiner)
    requires Runs(w, steps, c)
    decreases |steps|
  {
    steps != [] &&
    (|| (steps[0].action.Look? && AboutToDeposit(w, steps[0].rank))
     || Deposits(Do(w, steps[0].rank, steps[0].action, c), steps[1..], c))
  }

  /** In a poisoned world no step of a rank brings it to the point of depositing. */
  lemma NobodyGetsToDeposit(w: World, r: nat, a: Action, c: Combiner)
    requires Can(w, r, a) && w.poison.Some?
    ensures !AboutToDeposit(Do(w, r, a, c), r)
  {
  }

  lemma CollectClears(w: World, r: nat, a: Action, c: Combiner, d: nat)
    requires Can(w, r, a) && d < |w.sides| && w.sides[d].round.outcome.Some?
    requires Do(w, r, a, c).sides[d].round.outcome.None?
    ensures a.Collect? && w.ranks[r].d == d
  {
  }

  /** Nor does a step of another rank, since the lock keeps the round as it is. */
  lemma NobodyLetsDeposit(w: World, r: nat, a: Action, c: Combiner, q: nat)
    requires Inv(w, c) && Can(w, r, a) && q != r && AboutToDeposit(Do(w, r, a, c), q)
    ensures AboutToDeposit(w, q)
  {
    StepLogsOnly(w, r, a, c);
    var d := w.ranks[q].d;
    if w.sides[d].round.outcome.Some? {
      CollectClears(w, r, a, c, d);
      assert SideInv(w.ranks, d, w.sides[d], w.poison, c);
      assert Holds(w.ranks[q], d) && Holds(w.ranks[r], d);
    }
  }

  lemma {:induction false} LateDepositorsWereThere(w: World, steps: seq<Step>, c: Combiner) returns (r: nat)
    requires Inv(w, c) && w.poison.Some? && Runs(w, steps, c) && Deposits(w, steps, c)
    ensures AboutToDeposit(w, r)
    decreases |steps|
  {
    if steps[0].action.Look? && AboutToDeposit(w, steps[0].rank) {
      r := steps[0].rank;
    } else {
      StepKeeps(w, steps[0].rank, steps[0].action, c);
      PoisonStays(w, steps[0].rank, steps[0].action, c);
      r := LateDepositorsWereThere(Do(w, steps[0].rank, steps[0].action, c), steps[1..], c);
      NobodyGetsToDeposit(w, steps[0].rank, steps[0].action, c);
      NobodyLetsDeposit(w, steps[0].rank, steps[0].action, c, r);
    }
  }

  ghost predicate RunDeposits(w: World, steps: seq<Step>, c: Combiner) {
    Runs(w, steps, c) && Deposits(w, steps, c)
  }

  lemma DepositsNow(w: World, r: nat, c: Combiner)
    requires Inv(w, c) && AboutToDeposit(w, r)
    ensures RunDeposits(w, [Step(r, Look(false))], c)
  {
    assert SideShape(w.sides[w.ranks[r].d], |w.ranks|);
    RunsOn(w, [], Step(r, Look(false)), c);
    assert [] + [Step(r, Look(false))] == [Step(r, Look(false))];
  }

  /**
   A deposit can follow the poisoning exactly if some rank, when the world is poisoned, has already read a
   clear cell and holds the lock of an open round.
   */
  lemma DepositsFollowPoisonExactly(w: World, c: Combiner)
    requires Inv(w, c) && w.poison.Some?
    ensures (exists steps :: RunDeposits(w, steps, c)) <==> exists r: nat :: AboutToDeposit(w, r)
  {
    if steps :| RunDeposits(w, steps, c) {
      var r := LateDepositorsWereThere(w, steps, c);
    }
    if r: nat :| AboutToDeposit(w, r) {
      DepositsNow(w, r, c);
    }
  }
}
