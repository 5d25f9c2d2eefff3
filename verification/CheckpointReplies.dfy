/**
 Which plans of faults make a save of the ordinary checkpoint writer succeed, fail plainly or end ambiguous
 (`crates/ferrl/src/checkpoint.rs`, `write_staged` and everything below it). `WriteStaged` replies by the
 predicates `Saves`, `Refuses` and `Undoes`; here is what they amount to.
 */
module CheckpointReplies {
  import opened Common
  import opened Disk
  import opened CheckpointWriter

  /** Neither success nor a plain error. */
  predicate Doubtful(plan: Plan, n: Names) {
    !Saves(plan, n) && !Refuses(plan, n) && !Undoes(plan, n)
  }

  /** After the stage is open, something fails and so does what should undo or finish it. */
  predicate Unsure(plan: Plan, hadPrior: bool) {
    || (!plan.fate(Write).Works? && !Drops(plan))
    || (plan.fate(Write).Works? && !Seals(plan) && !RollsBack(plan, false, false))
    || (plan.fate(Write).Works? && Seals(plan) && hadPrior && !MovesAside(plan) && !MovesBack(plan))
    || (&& plan.fate(Write).Works? && Seals(plan) && (hadPrior ==> MovesAside(plan))
        && (|| (!plan.fate(BeforePublish).Works? && !RollsBack(plan, hadPrior, false))
            || (plan.fate(BeforePublish).Works? && !Shows(plan))
            || (plan.fate(BeforePublish).Works? && Shows(plan) && !FencesNew(plan) && !RollsBack(plan, hadPrior, true))
            || (&& plan.fate(BeforePublish).Works? && Shows(plan) && FencesNew(plan)
                && hadPrior && !DropsPrior(plan))))
  }

  /**
   The reply is ambiguous exactly if recovery fails, or a later step fails together with what should undo
   it, or the publishing rename cannot be proved, or the prior package cannot be cleaned away.
   */
  lemma AmbiguousExactly(plan: Plan, n: Names)
    ensures Doubtful(plan, n) <==>
              && plan.fate(Lock).Works? && plan.fate(List).Works?
              && (!Recovers(plan, n) || (Stages(plan) && Unsure(plan, HasPrior(n))))
  {
  }

  lemma RepliesExclude(plan: Plan, n: Names)
    ensures !(Saves(plan, n) && Refuses(plan, n)) && !(Saves(plan, n) && Undoes(plan, n))
    ensures !(Refuses(plan, n) && Undoes(plan, n))
  {
  }

  /** Every step that undoes something works. */
  ghost predicate UndoWorks(plan: Plan) {
    && plan.fate(CheckPrior).Works? && plan.fate(PriorSync).Works? && plan.fate(PriorFence).Works?
    && plan.fate(BeforeReturn).Works? && plan.fate(Return).Works? && plan.fate(BeforeReturnSync).Works?
    && plan.fate(ReturnSync).Works? && plan.fate(BeforeReturnFence).Works? && plan.fate(ReturnFence).Works?
    && Drops(plan)
  }

  /** A step between opening the stage and the publishing rename fails. */
  predicate FailsBeforePublication(plan: Plan, hadPrior: bool) {
    || !plan.fate(Write).Works? || !Seals(plan) || (hadPrior && !MovesAside(plan))
    || !plan.fate(BeforePublish).Works?
  }

  /**
   Whatever fails before the publishing rename, with or without effect: if the steps that undo it work, the
   reply is a plain error and everything is as it was.
   */
  lemma FailuresBeforePublicationAreUndone(plan: Plan, n: Names)
    requires plan.fate(Lock).Works? && plan.fate(List).Works? && Recovers(plan, n) && Stages(plan)
    requires UndoWorks(plan) && FailsBeforePublication(plan, HasPrior(n))
    ensures Undoes(plan, n)
  {
  }

  /** Only step `s` fails. */
  ghost predicate OnlyFails(plan: Plan, s: Step) {
    !plan.fate(s).Works? && forall t :: t != s ==> plan.fate(t).Works?
  }

  /** The steps from opening the stage to the publishing rename. */
  predicate IsEarly(s: Step) {
    s in {Write, Seal, SealFence, BeforeAside, MoveAside, AsideFence, BeforePublish}
  }

  /** The steps that make the new package durable. */
  predicate IsFencing(s: Step) {
    s in {BeforeNewSync, NewSync, BeforeNewFence, NewFence}
  }

  /** The steps that clean the prior package away. */
  predicate IsDropping(s: Step) {
    s in {BeforeDrop, DropAside, DropFence}
  }

  lemma EarlyFault(plan: Plan, n: Names, s: Step)
    requires OnlyFails(plan, s) && IsEarly(s) && Recovers(plan, n)
    ensures !Doubtful(plan, n)
  {
    UndoingWorks(plan, s);
    if FailsBeforePublication(plan, HasPrior(n)) {
      FailuresBeforePublicationAreUndone(plan, n);
    } else {
      assert Saves(plan, n);
    }
  }

  /** The save gets as far as the publishing rename. */
  predicate GetsToPublish(plan: Plan, n: Names) {
    && GetsPastRecovery(plan, n) && Stages(plan) && plan.fate(Write).Works? && Seals(plan)
    && (HasPrior(n) ==> MovesAside(plan)) && plan.fate(BeforePublish).Works?
  }

  lemma PublishingDecides(plan: Plan, n: Names)
    requires GetsToPublish(plan, n)
    ensures Saves(plan, n) <==> Shows(plan) && FencesNew(plan) && (HasPrior(n) ==> DropsPrior(plan))
    ensures Undoes(plan, n) <==> Shows(plan) && !FencesNew(plan) && RollsBack(plan, HasPrior(n), true)
    ensures !Refuses(plan, n)
  {
  }

  predicate IsLate(s: Step) {
    s == PublishStage || IsFencing(s) || IsDropping(s)
  }

  /** What publication comes to when only step `s` of it goes wrong. */
  predicate GoesWrongAt(plan: Plan, s: Step) {
    && (Shows(plan) <==> s != PublishStage || plan.fate(PublishStage).Late?)
    && (FencesNew(plan) <==> !IsFencing(s))
    && (DropsPrior(plan) <==> !IsDropping(s))
    && RollsBack(plan, true, true) && RollsBack(plan, false, true)
  }

  lemma LateFaultGetsThere(plan: Plan, n: Names, s: Step)
    requires OnlyFails(plan, s) && Recovers(plan, n) && IsLate(s)
    ensures GetsToPublish(plan, n)
  {
  }

  lemma LateFaultGoesWrong(plan: Plan, s: Step)
    requires OnlyFails(plan, s) && IsLate(s)
    ensures GoesWrongAt(plan, s) && !plan.fate(s).Works?
  {
  }

  /** A publishing rename without effect leaves doubt, an unfenced package is undone, a prior aside must go. */
  lemma LateFault(plan: Plan, n: Names, s: Step)
    requires GetsToPublish(plan, n) && IsLate(s) && GoesWrongAt(plan, s) && !plan.fate(s).Works?
    ensures Doubtful(plan, n) <==> (s == PublishStage && plan.fate(s).Fails?) || (HasPrior(n) && IsDropping(s))
  {
    PublishingDecides(plan, n);
  }

  /** Any other step that fails alone is one the save does without, or one before there is anything to undo. */
  lemma OtherFault(plan: Plan, n: Names, s: Step)
    requires OnlyFails(plan, s) && !IsEarly(s) && !IsLate(s) && Recovers(plan, n)
    ensures !Doubtful(plan, n)
  {
    assert Seals(plan) && MovesAside(plan) && Publishes(plan, HasPrior(n));
  }

  /**
   On a destination without residue a single fault is ambiguous exactly if it is a publishing rename
   without effect, or hits the cleaning away of the prior package.
   */
  lemma OneFaultIsAmbiguousExactly(plan: Plan, canon: Option<Ino>, s: Step)
    requires OnlyFails(plan, s)
    ensures Doubtful(plan, Names(canon, map[], map[])) <==>
              || (s == PublishStage && plan.fate(s).Fails?)
              || (canon.Some? && (s == BeforeDrop || s == DropAside || s == DropFence))
  {
    var n := Names(canon, map[], map[]);
    assert Recovers(plan, n);
    if IsEarly(s) {
      EarlyFault(plan, n, s);
    } else if IsLate(s) {
      LateFaultGetsThere(plan, n, s);
      LateFaultGoesWrong(plan, s);
      LateFault(plan, n, s);
    } else {
      OtherFault(plan, n, s);
    }
  }

  lemma UndoingWorks(plan: Plan, s: Step)
    requires OnlyFails(plan, s) && IsEarly(s)
    ensures UndoWorks(plan)
  {
  }

  /** No fault at all: the save succeeds, whatever residue it finds. */
  lemma NoFaultSaves(plan: Plan, n: Names)
    requires AllWork(plan)
    ensures Saves(plan, n)
  {
  }
}
