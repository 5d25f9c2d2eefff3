/**
 How calls of a rendezvous fail: every reply that is not a sum has set the poison cell, every message in
 the cell has a cause, and after a timeout no call of any rank gets anywhere again. Stated on the finished
 calls and the cell only.
 */
module RendezvousFailures {
  import opened Common
  import opened Rendezvous
  import opened RendezvousAgreement

  // ---------------------------------------------------------------------------
  // Every failure is in the cell
  // ---------------------------------------------------------------------------

  /** A call that did not return a sum has left the cell set: to what it says, or before that to something else. */
  predicate Explained(e: Record, poison: Option<Message>) {
    match e.reply
    case TimedOut(m) => m == TIMEOUT && poison.Some?
    case PoisonedBy(m) => poison == Some(m)
    case Collected(Bad(m)) => poison == Some(m)
    case Collected(Sum(_)) => true
  }

  ghost predicate FailuresExplained(w: World) {
    && (forall i :: 0 <= i < |w.log| ==> Explained(w.log[i], w.poison))
    && (forall d :: 0 <= d < |w.sides| && w.sides[d].round.outcome.Some? && w.sides[d].round.outcome.value.Bad? ==>
          w.poison == Some(w.sides[d].round.outcome.value.msg))
  }

  /** A step returns at most one call, and what it returns is explained. */
  lemma ReturnExplained(w: World, r: nat, a: Action, c: Combiner, x: World)
    requires Inv(w, c) && Can(w, r, a) && FailuresExplained(w) && x == Do(w, r, a, c)
    ensures |x.log| > |w.log| ==> Explained(x.log[|w.log|], x.poison)
  {
  }

  lemma PublishedExplained(w: World, r: nat, a: Action, c: Combiner, x: World, d: nat)
    requires Inv(w, c) && Can(w, r, a) && FailuresExplained(w) && x == Do(w, r, a, c) && d < |x.sides|
    requires x.sides[d].round.outcome.Some? && x.sides[d].round.outcome.value.Bad?
    ensures x.poison == Some(x.sides[d].round.outcome.value.msg)
  {
    SidesStay(w, r, a, c);
    OutcomesCome(w, r, a, c, d);
    if w.poison.Some? {
      PoisonStays(w, r, a, c);
    }
    if a.Publish? {
      assert StageInv(w.ranks[r], w.sides[w.ranks[r].d], |w.ranks|, w.poison, c);
    }
  }

  lemma StepExplained(w: World, r: nat, a: Action, c: Combiner, x: World)
    requires Inv(w, c) && Can(w, r, a) && FailuresExplained(w) && x == Do(w, r, a, c)
    ensures FailuresExplained(x)
  {
    StepLogsOnly(w, r, a, c);
    ReturnExplained(w, r, a, c, x);
    if w.poison.Some? {
      PoisonStays(w, r, a, c);
    }
    forall d | 0 <= d < |x.sides| && x.sides[d].round.outcome.Some? && x.sides[d].round.outcome.value.Bad?
      ensures x.poison == Some(x.sides[d].round.outcome.value.msg)
    {
      PublishedExplained(w, r, a, c, x, d);
    }
  }

  lemma {:induction false} RunExplained(w: World, steps: seq<Step>, c: Combiner)
    requires Inv(w, c) && FailuresExplained(w) && Runs(w, steps, c)
    ensures FailuresExplained(Run(w, steps, c))
    decreases |steps|
  {
    if steps != [] {
      var x := Do(w, steps[0].rank, steps[0].action, c);
      StepKeeps(w, steps[0].rank, steps[0].action, c);
      StepExplained(w, steps[0].rank, steps[0].action, c, x);
      RunExplained(x, steps[1..], c);
    }
  }

  /**
   Over every run of a fresh world: a call that timed out has poisoned the world, a call that was turned
   away or collected a failed combine names the message in the cell.
   */
  lemma EveryFailureIsExplained(n: nat, m: nat, steps: seq<Step>, c: Combiner, i: nat)
    requires n > 0 && Runs(Start(n, m), steps, c) && i < |Run(Start(n, m), steps, c).log|
    ensures Explained(Run(Start(n, m), steps, c).log[i], Run(Start(n, m), steps, c).poison)
  {
    StartsWell(n, m, c);
    RunExplained(Start(n, m), steps, c);
  }

  // ---------------------------------------------------------------------------
  // Every message has a cause
  // ---------------------------------------------------------------------------

  /** Call `i` timed out, or collected the combine that failed, with this message. */
  predicate CausedBy(log: seq<Record>, i: nat, m: Message) {
    i < |log| && (log[i].reply == TimedOut(m) || log[i].reply == Collected(Bad(m)))
  }

  /** The failure is published on `d` and not collected by everybody yet. */
  predicate Shown(w: World, d: nat) {
    && d < |w.sides| && w.poison.Some?
    && w.sides[d].round.outcome == Some(Bad(w.poison.value))
  }

  /** A poisoned world has a call that failed first, or the failed combine is about to reach the first one. */
  ghost predicate HasCause(w: World) {
    w.poison.Some? ==>
      || (exists i: nat :: CausedBy(w.log, i, w.poison.value))
      || (exists r: nat :: Failing(w, r))
      || (exists d: nat :: Shown(w, d))
  }

  lemma CausesStay(log: seq<Record>, more: seq<Record>, i: nat, m: Message)
    requires log <= more && CausedBy(log, i, m)
    ensures CausedBy(more, i, m)
  {
  }

  lemma PoisonAppears(w: World, r: nat, a: Action, c: Combiner, x: World)
    requires Can(w, r, a) && x == Do(w, r, a, c) && w.poison.None? && x.poison.Some?
    ensures CausedBy(x.log, |w.log|, x.poison.value) || Failing(x, r)
  {
  }

  lemma FailingMovesOn(w: World, r: nat, a: Action, c: Combiner, x: World, p: nat)
    requires Inv(w, c) && Can(w, r, a) && x == Do(w, r, a, c) && w.poison.Some? && Failing(w, p)
    ensures Failing(x, p) || Shown(x, w.ranks[p].d)
  {
    PoisonStays(w, r, a, c);
    StepLogsOnly(w, r, a, c);
    SidesStay(w, r, a, c);
  }

  lemma ShownMovesOn(w: World, r: nat, a: Action, c: Combiner, x: World, d: nat)
    requires Inv(w, c) && Can(w, r, a) && x == Do(w, r, a, c) && w.poison.Some? && Shown(w, d)
    ensures Shown(x, d) || CausedBy(x.log, |w.log|, x.poison.value)
  {
    PoisonStays(w, r, a, c);
    SidesStay(w, r, a, c);
    if x.sides[d].round.outcome.None? {
      CollectClears(w, r, a, c, d);
    } else if x.sides[d].round.outcome != w.sides[d].round.outcome {
      OutcomesCome(w, r, a, c, d);
      FailureIsPublishedLast(w, r, c);
    }
  }

  lemma StepHasCause(w: World, r: nat, a: Action, c: Combiner, x: World)
    requires Inv(w, c) && Can(w, r, a) && HasCause(w) && x == Do(w, r, a, c)
    ensures HasCause(x)
  {
    if w.poison.None? {
      if x.poison.Some? {
        PoisonAppears(w, r, a, c, x);
      }
    } else {
      PoisonStays(w, r, a, c);
      StepLogsOnly(w, r, a, c);
      if i: nat :| CausedBy(w.log, i, w.poison.value) {
        CausesStay(w.log, x.log, i, w.poison.value);
      } else if p: nat :| Failing(w, p) {
        FailingMovesOn(w, r, a, c, x, p);
      } else {
        var d: nat :| Shown(w, d);
        ShownMovesOn(w, r, a, c, x, d);
      }
    }
  }

  lemma {:induction false} RunHasCause(w: World, steps: seq<Step>, c: Combiner)
    requires Inv(w, c) && HasCause(w) && Runs(w, steps, c)
    ensures HasCause(Run(w, steps, c))
    decreases |steps|
  {
    if steps != [] {
      var x := Do(w, steps[0].rank, steps[0].action, c);
      StepKeeps(w, steps[0].rank, steps[0].action, c);
      StepHasCause(w, steps[0].rank, steps[0].action, c, x);
      RunHasCause(x, steps[1..], c);
    }
  }

  /**
   Over every run of a fresh world: a set cell holds the message of a call that timed out or collected a
   failed combine, or of a failed combine on its way to the first rank.
   */
  lemma PoisonHasCause(n: nat, m: nat, steps: seq<Step>, c: Combiner)
    requires n > 0 && Runs(Start(n, m), steps, c)
    ensures HasCause(Run(Start(n, m), steps, c))
  {
    StartsWell(n, m, c);
    RunHasCause(Start(n, m), steps, c);
  }

  // ---------------------------------------------------------------------------
  // After a timeout
  // ---------------------------------------------------------------------------

  /** Step `r`, `a` of `w` returns a call that timed out. */
  ghost predicate Expires(w: World, r: nat, a: Action, c: Combiner) {
    && Can(w, r, a)
    && |Do(w, r, a, c).log| == |w.log| + 1 && Do(w, r, a, c).log[|w.log|].reply.TimedOut?
  }

  /** A timeout sets a clear cell to what it returns. */
  lemma TimeoutPoisons(w: World, r: nat, a: Action, c: Combiner, x: World)
    requires Expires(w, r, a, c) && x == Do(w, r, a, c)
    ensures x.log[|w.log|].reply == TimedOut(TIMEOUT) && x.log[|w.log|].rank == r
    ensures x.poison == if w.poison.Some? then w.poison else Some(TIMEOUT)
  {
  }

  /** It also wakes every rank that sleeps on its rendezvous. */
  lemma TimeoutWakes(w: World, r: nat, a: Action, c: Combiner, x: World, q: nat)
    requires Expires(w, r, a, c) && x == Do(w, r, a, c) && q < |x.ranks|
    ensures x.log[|w.log|].d < |x.sides| && q in x.sides[x.log[|w.log|].d].woken
  {
  }

  /** The call that logged record `k` is not one that rank `q` was inside of in `w`. */
  ghost predicate BegunLater(w: World, log: seq<Record>, k: nat) {
    && |w.log| <= k < |log|
    && ((log[k].rank < |w.ranks| && w.ranks[log[k].rank].Idle?)
        || exists j :: |w.log| <= j < k && log[j].rank == log[k].rank)
  }

  lemma IdleAfterReturn(w: World, r: nat, a: Action, c: Combiner, x: World)
    requires Can(w, r, a) && x == Do(w, r, a, c) && |x.log| > |w.log|
    ensures |x.log| == |w.log| + 1 && x.log[|w.log|].rank == r && r < |x.ranks| && x.ranks[r].Idle?
  {
  }

  /** From a poisoned world on, no call begun later by any rank deposits; each names the first message. */
  lemma {:induction false} LaterCallsFail(w: World, steps: seq<Step>, c: Combiner, k: nat)
    requires w.poison.Some? && Runs(w, steps, c) && BegunLater(w, Run(w, steps, c).log, k)
    ensures var e := Run(w, steps, c).log[k]; e.round.None? && e.reply == PoisonedBy(w.poison.value)
    decreases |steps|
  {
    var log := Run(w, steps, c).log;
    var q := log[k].rank;
    if q < |w.ranks| && w.ranks[q].Idle? {
      CallsAfterPoisonFail(w, steps, c, q);
    } else {
      var x := Do(w, steps[0].rank, steps[0].action, c);
      PoisonStays(w, steps[0].rank, steps[0].action, c);
      StepLogsOnly(w, steps[0].rank, steps[0].action, c);
      LogGrows(x, steps[1..], c);
      if |x.log| > |w.log| {
        IdleAfterReturn(w, steps[0].rank, steps[0].action, c, x);
        assert x.log[|w.log|] == log[|w.log|];
      }
      assert BegunLater(x, log, k);
      LaterCallsFail(x, steps[1..], c, k);
    }
  }

  /**
   Over every run: from the step at which a call times out, the cell keeps its message, or the earlier one,
   and every call begun later by any rank fails with it and deposits nothing.
   */
  lemma TimeoutEndsTheWorld(w: World, s: Step, steps: seq<Step>, c: Combiner, k: nat)
    requires Expires(w, s.rank, s.action, c)
    requires Runs(Do(w, s.rank, s.action, c), steps, c)
    requires BegunLater(Do(w, s.rank, s.action, c), Run(Do(w, s.rank, s.action, c), steps, c).log, k)
    ensures var y := Run(Do(w, s.rank, s.action, c), steps, c);
            && y.poison == (if w.poison.Some? then w.poison else Some(TIMEOUT))
            && y.log[k].round.None? && y.log[k].reply == PoisonedBy(y.poison.value)
  {
    var x := Do(w, s.rank, s.action, c);
    TimeoutPoisons(w, s.rank, s.action, c, x);
    FirstMessageIsKept(x, steps, c);
    LaterCallsFail(x, steps, c, k);
  }

  // ---------------------------------------------------------------------------
  // Calls in a poisoned world end
  // ---------------------------------------------------------------------------

  /** At most how many more steps of its own a call takes to return, once the world is poisoned. */
  function StepsLeft(p: Place): nat {
    match p
    case Idle => 0
    case At(_, _, stage) =>
      match stage
      case OpenTop => 1
      case Leaving => 1
      case Enter => 2
      case OpenSleep => 2
      case WaitTop => 2
      case Publishing(_) => 2
      case WaitSleep => 3
      case Combining => 3
      case OpenChecked => 4
      case WaitChecked => 4
  }

  /** In a poisoned world each step of a rank inside a call brings it nearer to its return. */
  lemma OwnStepsRunOut(w: World, r: nat, a: Action, c: Combiner, x: World)
    requires w.poison.Some? && Can(w, r, a) && x == Do(w, r, a, c) && w.ranks[r].At?
    ensures |x.ranks| == |w.ranks| && StepsLeft(x.ranks[r]) < StepsLeft(w.ranks[r])
    ensures x.ranks[r].Idle? ==> |x.log| == |w.log| + 1 && x.log[|w.log|].rank == r
  {
  }

  lemma OthersStay(w: World, r: nat, a: Action, c: Combiner, x: World, q: nat)
    requires Can(w, r, a) && x == Do(w, r, a, c) && q < |w.ranks| && q != r
    ensures |x.ranks| == |w.ranks| && x.ranks[q] == w.ranks[q]
  {
  }

  function OwnSteps(steps: seq<Step>, r: nat): nat {
    if steps == [] then 0 else (if steps[0].rank == r then 1 else 0) + OwnSteps(steps[1..], r)
  }

  /**
   Over every run from a poisoned world: a rank inside a call has returned from it by its fourth own step at
   the latest, whatever the others do.
   */
  lemma {:induction false} PoisonedCallsEnd(w: World, steps: seq<Step>, c: Combiner, r: nat) returns (k: nat)
    requires w.poison.Some? && Runs(w, steps, c) && r < |w.ranks| && w.ranks[r].At?
    requires OwnSteps(steps, r) >= StepsLeft(w.ranks[r])
    ensures StepsLeft(w.ranks[r]) <= 4
    ensures |w.log| <= k < |Run(w, steps, c).log| && Run(w, steps, c).log[k].rank == r
    decreases |steps|
  {
    var s := steps[0];
    var x := Do(w, s.rank, s.action, c);
    PoisonStays(w, s.rank, s.action, c);
    StepLogsOnly(w, s.rank, s.action, c);
    LogGrows(x, steps[1..], c);
    if s.rank != r {
      OthersStay(w, s.rank, s.action, c, x, r);
      k := PoisonedCallsEnd(x, steps[1..], c, r);
    } else {
      OwnStepsRunOut(w, r, s.action, c, x);
      if x.ranks[r].Idle? {
        k := |w.log|;
      } else {
        k := PoisonedCallsEnd(x, steps[1..], c, r);
      }
    }
  }

  /** And no call is ever stuck: its rank can take its next step, or else the rank that holds the lock it needs can. */
  lemma NobodyIsStuck(w: World, c: Combiner, r: nat) returns (q: nat, a: Action)
    requires Inv(w, c) && r < |w.ranks| && w.ranks[r].At?
    ensures Can(w, q, a) && (q == r || (w.ranks[r].d < |w.sides| && w.sides[w.ranks[r].d].lock == Some(q)))
  {
    var d := w.ranks[r].d;
    assert d < |w.sides|;
    assert SideInv(w.ranks, d, w.sides[d], w.poison, c);
    if Holds(w.ranks[r], d) {
      q := r;
      a := LockHolderMoves(w, c, r);
    } else if w.sides[d].lock.None? {
      q, a := r, Lock;
    } else {
      q := w.sides[d].lock.value;
      a := LockHolderMoves(w, c, q);
    }
  }
}
