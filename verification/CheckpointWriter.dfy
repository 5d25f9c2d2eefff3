/**
 The ordinary checkpoint writer (`crates/ferrl/src/checkpoint.rs`, `write_staged`, `prepare_stage`,
 `reconcile_staged_siblings`, `commit_stage` and the rollback helpers).

 How every step of a call ends is an argument of the call: each may fail, and renames, removals and
 creations also after taking effect. A ghost field watches a run: `safe` records whether a crash at any
 moment so far would have left one of the packages in `watch`.
 */
module CheckpointWriter {
  import opened Common
  import opened Disk

  /** `Ok`, an error that promises the old package, or `PublicationAmbiguous`. */
  datatype Outcome = Done | Failed | Ambiguous

  /** The steps of one save, in the order of the source; each is taken at most once. */
  datatype Step =
    | Lock | List | CheckAside | Restore | RestoreSync | RestoreFence
    | CheckCanon | CanonSync | CanonFence | Clear(op: NameOp) | ClearFence
    | Create | CreateFence | Write | Seal | SealFence
    | BeforeAside | MoveAside | AsideFence | CheckPrior | PriorSync | PriorFence
    | BeforePublish | PublishStage | CheckPublished | PublishedSync | PublishedFence
    | BeforeNewSync | NewSync | BeforeNewFence | NewFence | BeforeDrop | DropAside | DropFence
    | Hide | HideFence | BeforeReturn | Return | BeforeReturnSync | ReturnSync | BeforeReturnFence | ReturnFence
    | DropStage | DropStageFence

  /** How each step ends, and whether a removal that stops half way has unlinked the name as well. */
  datatype Plan = Plan(fate: Step -> Fate, unlinked: Step -> bool)

  ghost predicate AllWork(plan: Plan) {
    forall s :: plan.fate(s).Works?
  }

  // What a plan lets happen. The names `n` are the ones visible when the save begins.

  /** A sole aside becomes canonical again. */
  predicate Restores(plan: Plan) {
    && plan.fate(CheckAside).Works? && plan.fate(Restore).Works?
    && plan.fate(RestoreSync).Works? && plan.fate(RestoreFence).Works?
  }

  /** Every hidden name is removed. */
  predicate Clears(plan: Plan, stages: map<nat, Ino>, asides: map<nat, Ino>) {
    && (forall id :: id in stages ==> plan.fate(Clear(RmStage(id))).Works?)
    && (forall id :: id in asides ==> plan.fate(Clear(RmAside(id))).Works?)
  }

  /** The hidden names of an earlier save are dealt with, the visible package fenced before they go. */
  predicate Recovers(plan: Plan, n: Names) {
    var restore := n.canon.None? && n.asides != map[];
    var asides := if restore then map[] else n.asides;
    var residue := n.stages != map[] || asides != map[];
    && (restore ==> Restores(plan))
    && (residue && (restore || n.canon.Some?) ==> plan.fate(CheckCanon).Works?)
    && (residue && n.canon.Some? ==> plan.fate(CanonSync).Works? && plan.fate(CanonFence).Works?)
    && Clears(plan, n.stages, asides)
    && (residue ==> plan.fate(ClearFence).Works?)
  }

  predicate Stages(plan: Plan) {
    plan.fate(Create).Works? && plan.fate(CreateFence).Works?
  }

  predicate Drops(plan: Plan) {
    plan.fate(DropStage).Works? && plan.fate(DropStageFence).Works?
  }

  /** The rollback of a publication with or without a prior package aside and the new one visible. */
  predicate RollsBack(plan: Plan, hadPrior: bool, newVisible: bool) {
    && (newVisible ==> plan.fate(Hide).Works? && plan.fate(HideFence).Works?)
    && (hadPrior ==> && plan.fate(BeforeReturn).Works? && plan.fate(Return).Works?
                     && plan.fate(BeforeReturnSync).Works? && plan.fate(ReturnSync).Works?)
    && (!hadPrior ==> plan.fate(BeforeReturnFence).Works?)
    && plan.fate(ReturnFence).Works? && Drops(plan)
  }

  predicate Seals(plan: Plan) {
    plan.fate(Seal).Works? && plan.fate(SealFence).Works?
  }

  predicate MovesAside(plan: Plan) {
    plan.fate(BeforeAside).Works? && plan.fate(MoveAside).Works? && plan.fate(AsideFence).Works?
  }

  /** A move aside that went wrong is undone: the prior never moved, or it is moved back. */
  predicate MovesBack(plan: Plan) {
    if !plan.fate(BeforeAside).Works? || plan.fate(MoveAside).Fails? then
      && plan.fate(CheckPrior).Works? && plan.fate(PriorSync).Works? && plan.fate(PriorFence).Works? && Drops(plan)
    else
      (plan.fate(MoveAside).Late? ==> plan.fate(CheckPrior).Works?) && RollsBack(plan, true, false)
  }

  /** The new package becomes visible, and the writer knows. */
  predicate Shows(plan: Plan) {
    || plan.fate(PublishStage).Works?
    || (&& plan.fate(PublishStage).Late? && plan.fate(CheckPublished).Works?
        && plan.fate(PublishedSync).Works? && plan.fate(PublishedFence).Works?)
  }

  predicate FencesNew(plan: Plan) {
    && plan.fate(BeforeNewSync).Works? && plan.fate(NewSync).Works?
    && plan.fate(BeforeNewFence).Works? && plan.fate(NewFence).Works?
  }

  predicate DropsPrior(plan: Plan) {
    plan.fate(BeforeDrop).Works? && plan.fate(DropAside).Works? && plan.fate(DropFence).Works?
  }

  predicate Publishes(plan: Plan, hadPrior: bool) {
    plan.fate(BeforePublish).Works? && Shows(plan) && FencesNew(plan) && (hadPrior ==> DropsPrior(plan))
  }

  /** The publication fails before or after the new package is visible, and is undone. */
  predicate Unpublishes(plan: Plan, hadPrior: bool) {
    || (!plan.fate(BeforePublish).Works? && RollsBack(plan, hadPrior, false))
    || (plan.fate(BeforePublish).Works? && Shows(plan) && !FencesNew(plan) && RollsBack(plan, hadPrior, true))
  }

  predicate Commits(plan: Plan, hadPrior: bool) {
    Seals(plan) && (hadPrior ==> MovesAside(plan)) && Publishes(plan, hadPrior)
  }

  /** The commit fails and leaves exactly what was there. */
  predicate Uncommits(plan: Plan, hadPrior: bool) {
    || (!Seals(plan) && RollsBack(plan, false, false))
    || (Seals(plan) && hadPrior && !MovesAside(plan) && MovesBack(plan))
    || (Seals(plan) && (hadPrior ==> MovesAside(plan)) && Unpublishes(plan, hadPrior))
  }

  /** The publication cannot be fenced, and what takes it back is carried out but not fenced either. */
  predicate HidesUnfenced(plan: Plan) {
    !FencesNew(plan) && plan.fate(Hide).Works? && !plan.fate(HideFence).Works?
  }

  /** The new package is published and taken back, and neither is fenced. */
  predicate Strands(plan: Plan) {
    && Seals(plan) && plan.fate(BeforePublish).Works? && plan.fate(PublishStage).Works? && HidesUnfenced(plan)
  }

  /** The destination is locked, listed and recovered. */
  predicate GetsPastRecovery(plan: Plan, n: Names) {
    plan.fate(Lock).Works? && plan.fate(List).Works? && Recovers(plan, n)
  }

  predicate HasPrior(n: Names) {
    n.canon.Some? || n.asides != map[]
  }

  /** The save succeeds. */
  predicate Saves(plan: Plan, n: Names) {
    && plan.fate(Lock).Works? && plan.fate(List).Works? && Recovers(plan, n) && Stages(plan)
    && plan.fate(Write).Works? && Commits(plan, HasPrior(n))
  }

  /** The save gets past its stage and is undone completely. */
  predicate Undoes(plan: Plan, n: Names) {
    && plan.fate(Lock).Works? && plan.fate(List).Works? && Recovers(plan, n) && Stages(plan)
    && (if plan.fate(Write).Works? then Uncommits(plan, HasPrior(n)) else Drops(plan))
  }

  /** The save does not get as far as its stage. */
  predicate Refuses(plan: Plan, n: Names) {
    !plan.fate(Lock).Works? || !plan.fate(List).Works? || (Recovers(plan, n) && !Stages(plan))
  }

  /**
   The corner in which the writer destroys a stage that a crash could still make canonical: nothing
   visible to keep, but the name changes that hid the stage's directory are not fenced.
   */
  ghost predicate Exposed(d: Disk) {
    && Visible(d).canon.None? && Visible(d).asides == map[]
    && exists s :: s in Visible(d).stages && !NeverBacks(d, Visible(d).stages[s])
  }

  class Destination {
    var disk: Disk
    var sequence: nat
    ghost var watch: set<Logic>
    ghost var safe: bool

    constructor (disk: Disk, ghost watch: set<Logic>)
      ensures this.disk == disk && this.watch == watch && safe
    {
      this.disk := disk;
      this.watch := watch;
      sequence, safe := 0, true;
    }

    ghost function Shown(): Names
      reads this
    {
      Visible(disk)
    }

    ghost function Holds(): Logic
      reads this
    {
      Logical(Visible(disk), disk.contents)
    }

    ghost predicate GoodNow()
      reads this
    {
      Good(Visible(disk), disk.contents)
    }

    ghost predicate SafeNow()
      reads this
    {
      SafeFor(disk, watch)
    }

    // -------------------------------------------------------------------------
    // Primitives
    // -------------------------------------------------------------------------

    /** A rename: carried out or not, and possibly reported as failed although carried out. */
    method Rename(plan: Plan, step: Step, op: NameOp) returns (ok: bool)
      requires op.CanonToAside? || op.AsideToCanon? || op.StageToCanon? || op.CanonToStage?
      modifies this`disk, this`safe
      ensures ok <==> Applies(old(Shown()), op) && plan.fate(step).Works?
      ensures disk == if Applies(old(Shown()), op) && !plan.fate(step).Fails? then Push(old(disk), op) else old(disk)
      ensures safe == (old(safe) && SafeNow())
    {
      ok := Applies(Visible(disk), op) && plan.fate(step).Works?;
      if Applies(Visible(disk), op) && !plan.fate(step).Fails? {
        disk := Push(disk, op);
      }
      safe := safe && SafeNow();
    }

    /** `sync_directory` on the parent. */
    method SyncParent(plan: Plan, step: Step) returns (ok: bool)
      modifies this`disk, this`safe
      ensures ok <==> plan.fate(step).Works?
      ensures disk == if ok then Fenced(old(disk)) else old(disk)
      ensures safe == (old(safe) && SafeNow())
    {
      ok := plan.fate(step).Works?;
      if ok {
        disk := Fenced(disk);
      }
      safe := safe && SafeNow();
    }

    /** `sync_directory` on a package directory: its files and entries become crash-proof. */
    method SyncDirectory(plan: Plan, step: Step, ino: Option<Ino>) returns (ok: bool)
      modifies this`disk, this`safe
      ensures ok <==> plan.fate(step).Works? && ino.Some?
      ensures disk == if ok && ino.value in old(disk).contents && old(disk).contents[ino.value].Written?
                      then Put(old(disk), ino.value, Sealed(old(disk).contents[ino.value].p))
                      else old(disk)
      ensures safe == (old(safe) && SafeNow())
    {
      ok := plan.fate(step).Works? && ino.Some?;
      if ok && ino.value in disk.contents && disk.contents[ino.value].Written? {
        disk := Put(disk, ino.value, Sealed(disk.contents[ino.value].p));
      }
      safe := safe && SafeNow();
    }

    /** The full self-consistency check: passes only complete packages, and may fail on I/O. */
    method Validate(plan: Plan, step: Step, ino: Option<Ino>) returns (ok: bool)
      ensures ok <==> && plan.fate(step).Works? && ino.Some?
                      && ino.value in disk.contents && !disk.contents[ino.value].Partial?
    {
      ok := plan.fate(step).Works? && ino.Some? && ino.value in disk.contents && !disk.contents[ino.value].Partial?;
    }

    /** `remove_dir_all` on a stage or an aside: contents first, then the name. */
    method RemoveDirAll(plan: Plan, step: Step, op: NameOp, ino: Ino) returns (ok: bool)
      requires op.RmStage? || op.RmAside?
      requires Applies(Shown(), op)
      requires ino == if op.RmStage? then Shown().stages[op.id] else Shown().asides[op.id]
      modifies this`disk, this`safe
      ensures ok <==> plan.fate(step).Works?
      ensures plan.fate(step).Fails? ==> disk == old(disk)
      ensures !plan.fate(step).Fails? ==>
                var gone := Put(old(disk), ino, Partial);
                disk == if ok || plan.unlinked(step) then Push(gone, op) else gone
      ensures safe ==> old(safe) && SafeFor(old(disk), watch) && SafeNow()
      ensures safe && !plan.fate(step).Fails? ==> SafeFor(Put(old(disk), ino, Partial), watch)
      ensures && old(safe) && SafeFor(old(disk), watch) && SafeNow()
              && (plan.fate(step).Fails? || SafeFor(Put(old(disk), ino, Partial), watch))
              ==> safe
    {
      safe := safe && SafeNow();
      ok := plan.fate(step).Works?;
      if !plan.fate(step).Fails? {
        disk := Put(disk, ino, Partial);
        safe := safe && SafeNow();
        if ok || plan.unlinked(step) {
          disk := Push(disk, op);
        }
      }
      safe := safe && SafeNow();
    }

    /** `create_dir` of a new stage. */
    method CreateStage(plan: Plan, step: Step, id: nat) returns (ok: bool, ino: Ino)
      modifies this`disk, this`safe
      ensures ino !in old(disk).contents
      ensures ok <==> plan.fate(step).Works? && id !in old(Shown()).stages
      ensures disk == if id !in old(Shown()).stages && !plan.fate(step).Fails? then
                        Push(Put(old(disk), ino, Partial), MkStage(id, ino))
                      else
                        old(disk)
      ensures safe == (old(safe) && SafeNow())
    {
      ino := FreshIno(disk.contents.Keys);
      ok := plan.fate(step).Works? && id !in Visible(disk).stages;
      if id !in Visible(disk).stages && !plan.fate(step).Fails? {
        disk := Push(Put(disk, ino, Partial), MkStage(id, ino));
      }
      safe := safe && SafeNow();
    }

    /** The payload writer: every file written and synced, or an incomplete stage. */
    method WriteContents(plan: Plan, step: Step, ino: Ino, p: Package) returns (ok: bool)
      modifies this`disk, this`safe
      ensures ok <==> plan.fate(step).Works?
      ensures disk == if plan.fate(step).Fails? then old(disk) else Put(old(disk), ino, Written(p))
      ensures safe == (old(safe) && SafeNow())
    {
      ok := plan.fate(step).Works?;
      if !plan.fate(step).Fails? {
        disk := Put(disk, ino, Written(p));
      }
      safe := safe && SafeNow();
    }

    // -------------------------------------------------------------------------
    // Recovery of crash residue
    // -------------------------------------------------------------------------

    /** Rename the sole aside to the canonical name; the package held stays the same. */
    method MoveBack(plan: Plan, id: nat) returns (ok: bool)
      requires GoodNow() && Shown().canon.None? && id in Shown().asides
      modifies this`disk, this`safe
      ensures GoodNow() && Holds() == old(Holds())
      ensures ok <==> plan.fate(Restore).Works?
      ensures ok ==> Shown() == Apply(old(Shown()), AsideToCanon(id)) && Shown().canon.Some? && Shown().asides == map[]
      ensures old(SafeNow()) ==> SafeNow() && (old(safe) ==> safe)
    {
      ghost var before := disk;
      RestoreIsGood(before, id);
      PushedNames(before, AsideToCanon(id));
      if SafeFor(before, watch) {
        SafeVisible(before, watch);
        PushSafe(before, AsideToCanon(id), watch);
      }
      ok := Rename(plan, Restore, AsideToCanon(id));
    }

    /** Make the sole prior aside canonical again and fence it. */
    method RestoreSoleAside(plan: Plan) returns (ok: bool)
      requires GoodNow() && Shown().canon.None? && Shown().asides != map[]
      modifies this`disk, this`safe
      ensures GoodNow() && Holds() == old(Holds())
      ensures ok ==>
                && disk.queue == [] && Shown().canon.Some? && Shown().asides == map[]
                && Shown().stages == old(Shown().stages)
      ensures old(SafeNow()) ==> SafeNow() && (old(safe) ==> safe)
      ensures ok <==> Restores(plan)
      ensures forall id :: id in old(Shown()).asides && ok ==> Shown().canon == Some(old(Shown()).asides[id])
    {
      GoodIsNotBroken(Shown(), disk.contents);
      var id :| id in Visible(disk).asides;
      ok := Validate(plan, CheckAside, Some(Visible(disk).asides[id]));
      if ok {
        ok := MoveBack(plan, id);
      }
      if ok {
        ok := FenceCanonical(plan, RestoreSync, RestoreFence);
      }
    }

    /** A parent sync changes no name and no package, and keeps a safe disk safe. */
    method Fence(plan: Plan, step: Step) returns (ok: bool)
      requires GoodNow()
      modifies this`disk, this`safe
      ensures disk == if ok then Fenced(old(disk)) else old(disk)
      ensures GoodNow() && Shown() == old(Shown()) && Holds() == old(Holds())
      ensures old(SafeNow()) ==> SafeNow() && (old(safe) ==> safe)
      ensures (ok <==> plan.fate(step).Works?) && (safe ==> old(safe))
    {
      FenceVisible(disk);
      if SafeFor(disk, watch) {
        SafeVisible(disk, watch);
        FenceSafe(disk, watch);
      }
      ok := SyncParent(plan, step);
    }

    /** Sync the canonical directory, then its parent. */
    method FenceCanonical(plan: Plan, sync: Step, fence: Step) returns (ok: bool)
      requires GoodNow() && Shown().canon.Some?
      modifies this`disk, this`safe
      ensures disk == if ok then Fenced(old(disk)) else old(disk)
      ensures GoodNow() && Shown() == old(Shown()) && Holds() == old(Holds())
      ensures old(SafeNow()) ==> SafeNow() && (old(safe) ==> safe)
      ensures ok <==> plan.fate(sync).Works? && plan.fate(fence).Works?
    {
      ok := SyncDirectory(plan, sync, Visible(disk).canon);
      if ok {
        ok := Fence(plan, fence);
      }
    }

    /** Remove one hidden directory. */
    method SweepOne(plan: Plan, op: NameOp) returns (ok: bool)
      requires GoodNow() && (op.RmStage? || op.RmAside?) && Applies(Shown(), op)
      requires op.RmAside? ==> Shown().canon.Some?
      modifies this`disk, this`safe
      ensures GoodNow() && Holds() == old(Holds()) && Shown().canon == old(Shown().canon)
      ensures ok ==> Shown() == Apply(old(Shown()), op)
      ensures old(SafeNow()) && Removable(old(disk)) ==> SafeNow() && (ok ==> Removable(disk)) && (old(safe) ==> safe)
      ensures ok <==> plan.fate(Clear(op)).Works?
      ensures Remembers(old(disk), disk) && (safe ==> old(safe))
      ensures ok && safe ==> NeverBacks(old(disk), HiddenIno(old(Shown()), op))
    {
      ghost var before := disk;
      var ino := if op.RmStage? then Visible(disk).stages[op.id] else Visible(disk).asides[op.id];
      ok := RemoveDirAll(plan, Clear(op), op, ino);
      ClearingOne(before, op, ino, disk, watch);
    }

    /** Remove every stage and then every aside. */
    method Sweep(plan: Plan) returns (ok: bool)
      requires GoodNow() && (Shown().asides != map[] ==> Shown().canon.Some?)
      modifies this`disk, this`safe
      ensures GoodNow() && Holds() == old(Holds()) && Shown().canon == old(Shown().canon)
      ensures ok ==> Shown().asides == map[] && Shown().stages == map[]
      ensures old(SafeNow()) && Removable(old(disk)) ==> SafeNow() && (old(safe) ==> safe)
      ensures ok <==> Clears(plan, old(Shown()).stages, old(Shown()).asides)
      ensures ok && safe ==> forall s :: s in old(Shown()).stages ==> NeverBacks(old(disk), old(Shown()).stages[s])
    {
      ghost var calm := SafeNow() && Removable(disk);
      while Visible(disk).stages != map[] || Visible(disk).asides != map[]
        invariant GoodNow() && Holds() == old(Holds()) && Shown().canon == old(Shown().canon)
        invariant Shown().asides != map[] ==> Shown().canon.Some?
        invariant calm ==> SafeNow() && Removable(disk) && (old(safe) ==> safe)
        invariant Remembers(old(disk), disk)
        invariant Cleared(plan, old(Shown()), Shown())
        invariant safe ==> forall s :: s in old(Shown()).stages ==>
                    || (s in Shown().stages && Shown().stages[s] == old(Shown()).stages[s])
                    || NeverBacks(old(disk), old(Shown()).stages[s])
        decreases Shown().stages.Keys, Shown().asides.Keys
      {
        var op: NameOp;
        if Visible(disk).stages != map[] {
          var id :| id in Visible(disk).stages;
          op := RmStage(id);
        } else {
          var id :| id in Visible(disk).asides;
          op := RmAside(id);
        }
        ghost var before := disk;
        ok := SweepOne(plan, op);
        if !ok {
          return;
        }
        ClearedNext(plan, old(Shown()), Visible(before), op);
        RemembersFurther(old(disk), before, disk);
      }
      ok := true;
    }

    /** `reconcile_staged_siblings` */
    method Reconcile(plan: Plan) returns (r: Outcome)
      requires GoodNow()
      modifies this`disk, this`safe
      ensures GoodNow() && Holds() == old(Holds())
      ensures r == Done ==> Shown().asides == map[] && Shown().stages == map[]
      ensures r == Failed ==> disk == old(disk)
      ensures old(SafeNow()) && !Exposed(old(disk)) ==> SafeNow() && (old(safe) ==> safe)
      ensures r == Done && Exposed(old(disk)) ==> !safe
      ensures r == Failed <==> !plan.fate(List).Works?
      ensures r == Done <==> plan.fate(List).Works? && Recovers(plan, old(Shown()))
      ensures r == Done ==> Shown().canon == Backing(old(Shown()))
    {
      if !plan.fate(List).Works? {
        return Failed;
      }
      GoodIsNotBroken(Shown(), disk.contents);
      var fenced := false;
      if Visible(disk).canon.None? && Visible(disk).asides != map[] {
        AtMostOneAside(Shown(), disk.contents);
        if |Visible(disk).asides| > 1 {
          assert false;
        }
        var restored := RestoreSoleAside(plan);
        if !restored {
          return Ambiguous;
        }
        fenced := true;
      }
      var canon := Visible(disk).canon;
      var residue := Visible(disk).stages != map[] || Visible(disk).asides != map[];
      if canon.Some? && residue {
        var ok := Validate(plan, CheckCanon, canon);
        if !ok {
          return Ambiguous;
        }
        if !fenced {
          ok := FenceCanonical(plan, CanonSync, CanonFence);
          if !ok {
            return Ambiguous;
          }
        }
        FencedIsRemovable(disk);
      }
      var swept := Sweep(plan);
      if !swept {
        return Ambiguous;
      }
      if residue {
        var ok := Fence(plan, ClearFence);
        if !ok {
          return Ambiguous;
        }
      }
      r := Done;
    }

    // -------------------------------------------------------------------------
    // Staging
    // -------------------------------------------------------------------------

    /** Nothing is pending and the only hidden name is the stage `id`, directory `ino`. */
    ghost predicate Staged(id: nat, ino: Ino, canon: Option<Ino>)
      reads this
    {
      && disk.queue == [] && GoodNow()
      && Shown() == Names(canon, map[], map[id := ino])
    }

    /** Create the stage; it is the only hidden name and cannot decide anything. */
    method AddStage(plan: Plan, id: nat) returns (ok: bool, ino: Ino)
      requires GoodNow() && Shown().asides == map[] && Shown().stages == map[]
      modifies this`disk, this`safe
      ensures GoodNow() && Holds() == old(Holds())
      ensures ok ==>
                && Shown() == Names(Shown().canon, map[], map[id := ino])
                && ino in disk.contents && disk.contents[ino] == Partial
      ensures old(SafeNow()) ==> SafeNow() && (old(safe) ==> safe) && !Exposed(disk)
      ensures safe ==> old(safe)
      ensures ok <==> plan.fate(Create).Works?
      ensures || Shown() == Names(old(Shown().canon), map[], map[])
              || Shown() == Names(old(Shown().canon), map[], map[id := ino])
    {
      ghost var before := disk;
      ok, ino := CreateStage(plan, Create, id);
      if id !in Visible(before).stages && !plan.fate(Create).Fails? {
        NewStageIsGood(before, id, ino, watch);
        assert Shown() == Names(Visible(before).canon, map[], map[id := ino]);
        if SafeFor(before, watch) {
          OnlyStageNotExposed(disk, id, ino);
        }
      }
    }

    /** Create the stage and fence its name. */
    method OpenStage(plan: Plan, id: nat) returns (ok: bool, ino: Ino)
      requires GoodNow() && Shown().asides == map[] && Shown().stages == map[]
      modifies this`disk, this`safe
      ensures GoodNow() && Holds() == old(Holds())
      ensures ok ==> Staged(id, ino, Shown().canon) && ino in disk.contents && disk.contents[ino] == Partial
      ensures old(SafeNow()) ==> SafeNow() && (old(safe) ==> safe) && (!ok ==> !Exposed(disk))
      ensures safe ==> old(safe)
      ensures ok <==> Stages(plan)
      ensures || Shown() == Names(old(Shown().canon), map[], map[])
              || Shown() == Names(old(Shown().canon), map[], map[id := ino])
    {
      ok, ino := AddStage(plan, id);
      if ok {
        ok := Fence(plan, CreateFence);
      }
    }

    /** `prepare_stage` */
    method PrepareStage(plan: Plan) returns (r: Outcome, id: nat, ino: Ino)
      requires GoodNow()
      modifies this`disk, this`sequence, this`safe
      ensures GoodNow() && Holds() == old(Holds())
      ensures r == Done ==> Staged(id, ino, Shown().canon) && ino in disk.contents && disk.contents[ino] == Partial
      ensures old(SafeNow()) && !Exposed(old(disk)) ==>
                SafeNow() && (old(safe) ==> safe) && (r == Failed ==> !Exposed(disk))
      ensures r != Ambiguous && plan.fate(List).Works? && Exposed(old(disk)) ==> !safe
      ensures r == Done <==> plan.fate(List).Works? && Recovers(plan, old(Shown())) && Stages(plan)
      ensures r == Ambiguous <==> plan.fate(List).Works? && !Recovers(plan, old(Shown()))
      ensures !plan.fate(List).Works? ==> disk == old(disk)
      ensures r == Done ==> Shown().canon == Backing(old(Shown()))
      ensures plan.fate(List).Works? && r == Failed ==>
                Shown() == Names(Backing(old(Shown())), map[], Shown().stages) && |Shown().stages| <= 1
    {
      id, ino := 0, 0;
      r := Reconcile(plan);
      if r != Done {
        return;
      }
      id := sequence;
      sequence := sequence + 1;
      var ok;
      ok, ino := OpenStage(plan, id);
      if !ok {
        r := Failed;
      }
    }

    /** `remove_hidden_directory_durable` on the stage, once nothing else is hidden. */
    method RemoveStage(plan: Plan, id: nat, ino: Ino) returns (ok: bool)
      requires disk.queue == [] && SafeNow()
      requires Shown() == Names(Shown().canon, map[], map[id := ino])
      modifies this`disk, this`safe
      ensures SafeNow() && safe == old(safe) && Holds() == old(Holds())
      ensures ok ==> disk.queue == [] && Shown() == Names(old(Shown().canon), map[], map[])
      ensures ok <==> Drops(plan)
    {
      SafeVisible(disk, watch);
      FencedIsRemovable(disk);
      RemovalKeepsVisible(disk, RmStage(id), ino);
      RemovalSafe(disk, RmStage(id), ino, watch);
      ok := RemoveDirAll(plan, DropStage, RmStage(id), ino);
      if ok {
        assert Shown().stages == map[];
        ok := FenceStep(plan, DropStageFence);
      }
    }

    /** A parent sync in a safe state keeps it safe. */
    method FenceStep(plan: Plan, step: Step) returns (ok: bool)
      requires SafeNow()
      modifies this`disk, this`safe
      ensures disk == if ok then Fenced(old(disk)) else old(disk)
      ensures SafeNow() && safe == old(safe) && Shown() == old(Shown())
      ensures ok <==> plan.fate(step).Works?
    {
      SafeVisible(disk, watch);
      FenceVisible(disk);
      FenceSafe(disk, watch);
      ok := SyncParent(plan, step);
    }

    /** A rename towards good names that hold an allowed package keeps the disk safe. */
    method RenameStep(plan: Plan, step: Step, op: NameOp) returns (ok: bool)
      requires op.CanonToAside? || op.AsideToCanon? || op.StageToCanon? || op.CanonToStage?
      requires SafeNow() && Applies(Shown(), op)
      requires var n := Apply(Shown(), op); Good(n, disk.contents) && Logical(n, disk.contents) in watch
      modifies this`disk, this`safe
      ensures SafeNow() && safe == old(safe) && disk.contents == old(disk).contents
      ensures Shown() == if plan.fate(step).Fails? then old(Shown()) else Apply(old(Shown()), op)
      ensures ok ==> disk == Push(old(disk), op)
      ensures ok <==> plan.fate(step).Works?
    {
      PushedNames(disk, op);
      PushSafe(disk, op, watch);
      ok := Rename(plan, step, op);
    }

    /** The package `l` is the one in directory `o`, complete and crash-proof, or there is none. */
    ghost predicate Kept(o: Option<Ino>, l: Logic)
      reads this
    {
      && l in watch
      && (o.None? ==> l == Absent)
      && (o.Some? ==>
            && o.value in disk.contents && disk.contents[o.value].Sealed?
            && l == Present(disk.contents[o.value].p))
    }

    // -------------------------------------------------------------------------
    // Rollback
    // -------------------------------------------------------------------------

    /** Take the new package out of sight again, and fence that. */
    method HideNew(plan: Plan, id: nat, a: nat, ino: Ino, ghost o: Option<Ino>, ghost l: Logic, ghost hadPrior: bool)
      returns (ok: bool)
      requires SafeNow() && Kept(o, l) && o != Some(ino) && ino in disk.contents && hadPrior == o.Some?
      requires Shown() == Names(Some(ino), if hadPrior then map[a := o.value] else map[], map[])
      modifies this`disk, this`safe
      ensures SafeNow() && safe == old(safe) && disk.contents == old(disk).contents
      ensures ok <==> plan.fate(Hide).Works? && plan.fate(HideFence).Works?
      ensures ok ==> Shown() == Names(None, if hadPrior then map[a := o.value] else map[], map[id := ino])
      ensures Holds() == l || Holds() == old(Holds())
      ensures plan.fate(Hide).Works? && !plan.fate(HideFence).Works? ==> disk == Push(old(disk), CanonToStage(id))
    {
      ghost var hidden := Names(None, if hadPrior then map[a := o.value] else map[], map[id := ino]);
      assert Apply(Shown(), CanonToStage(id)) == hidden;
      SafeVisible(disk, watch);
      assert hadPrior ==> a in hidden.asides && hidden.asides[a] == o.value;
      GoodIsNotBroken(hidden, disk.contents);
      ok := RenameStep(plan, Hide, CanonToStage(id));
      if ok {
        ok := FenceStep(plan, HideFence);
      }
    }

    /** Give the prior package its name back and sync its directory. */
    method ReturnPrior(plan: Plan, id: nat, a: nat, ino: Ino, ghost o: Option<Ino>, ghost l: Logic)
      returns (ok: bool)
      requires SafeNow() && Kept(o, l) && o.Some? && o != Some(ino) && ino in disk.contents
      requires Shown() == Names(None, map[a := o.value], map[id := ino]) && Holds() == l
      modifies this`disk, this`safe
      ensures SafeNow() && safe == old(safe) && Holds() == l
      ensures ok <==> && plan.fate(BeforeReturn).Works? && plan.fate(Return).Works?
                      && plan.fate(BeforeReturnSync).Works? && plan.fate(ReturnSync).Works?
      ensures ok ==> Shown() == Names(o, map[], map[id := ino])
    {
      ok := plan.fate(BeforeReturn).Works?;
      if ok {
        assert map[a := o.value] - {a} == map[];
        assert Apply(Shown(), AsideToCanon(a)) == Names(o, map[], map[id := ino]);
        SafeVisible(disk, watch);
        ok := RenameStep(plan, Return, AsideToCanon(a));
      }
      if ok {
        ok := plan.fate(BeforeReturnSync).Works?;
      }
      if ok {
        ok := SyncDirectory(plan, ReturnSync, Visible(disk).canon);
      }
    }

    /** `rollback_staged_replacement`: put the prior package back, or its absence, and drop the stage. */
    method Rollback(plan: Plan, id: nat, a: nat, ino: Ino, ghost o: Option<Ino>, ghost l: Logic,
                    hadPrior: bool, newVisible: bool)
      returns (ok: bool)
      requires SafeNow() && Kept(o, l) && o != Some(ino) && ino in disk.contents
      requires hadPrior ==> o.Some?
      requires newVisible ==> disk.contents[ino].Sealed? && (!hadPrior ==> o.None?)
      requires Shown() == Names(if newVisible then Some(ino) else if hadPrior then None else o,
                                if hadPrior then map[a := o.value] else map[],
                                if newVisible then map[] else map[id := ino])
      modifies this`disk, this`safe
      ensures SafeNow() && safe == old(safe)
      ensures ok ==> disk.queue == [] && Shown() == Names(o, map[], map[]) && Holds() == l
      ensures !ok ==> Holds() == l || Holds() == old(Holds())
      ensures ok <==> RollsBack(plan, hadPrior, newVisible)
      ensures newVisible && plan.fate(Hide).Works? && !plan.fate(HideFence).Works? ==>
                !ok && disk == Push(old(disk), CanonToStage(id))
    {
      if newVisible {
        ok := HideNew(plan, id, a, ino, o, l, hadPrior);
        if !ok {
          return;
        }
      }
      SafeVisible(disk, watch);
      GoodIsNotBroken(Shown(), disk.contents);
      assert hadPrior ==> a in Shown().asides && Shown().asides[a] == o.value;
      assert Holds() == l;
      if hadPrior {
        ok := ReturnPrior(plan, id, a, ino, o, l);
      } else {
        ok := plan.fate(BeforeReturnFence).Works?;
      }
      if ok {
        ok := FenceStep(plan, ReturnFence);
      }
      if ok {
        ok := RemoveStage(plan, id, ino);
      }
    }

    /** `rollback_publication_error` */
    method RollbackError(plan: Plan, id: nat, a: nat, ino: Ino, ghost o: Option<Ino>, ghost l: Logic,
                         hadPrior: bool, newVisible: bool)
      returns (r: Outcome)
      requires SafeNow() && Kept(o, l) && o != Some(ino) && ino in disk.contents
      requires hadPrior ==> o.Some?
      requires newVisible ==> disk.contents[ino].Sealed? && (!hadPrior ==> o.None?)
      requires Shown() == Names(if newVisible then Some(ino) else if hadPrior then None else o,
                                if hadPrior then map[a := o.value] else map[],
                                if newVisible then map[] else map[id := ino])
      modifies this`disk, this`safe
      ensures SafeNow() && safe == old(safe)
      ensures r == Failed ==> disk.queue == [] && Shown() == Names(o, map[], map[]) && Holds() == l
      ensures r == Ambiguous ==> Holds() == l || Holds() == old(Holds())
      ensures r != Done
      ensures newVisible && plan.fate(Hide).Works? && !plan.fate(HideFence).Works? ==>
                r == Ambiguous && disk == Push(old(disk), CanonToStage(id))
      ensures r == Failed <==> RollsBack(plan, hadPrior, newVisible)
    {
      var restored := Rollback(plan, id, a, ino, o, l, hadPrior, newVisible);
      r := if restored then Failed else Ambiguous;
    }

    // -------------------------------------------------------------------------
    // Commit
    // -------------------------------------------------------------------------

    /** `reconcile_prior_aside_rename_error`: the rename aside failed, before or after taking effect. */
    method ReconcilePriorAside(plan: Plan, id: nat, a: nat, ino: Ino, ghost o: Option<Ino>, ghost l: Logic)
      returns (r: Outcome)
      requires SafeNow() && Kept(o, l) && o.Some? && o != Some(ino) && ino in disk.contents
      requires || Shown() == Names(o, map[], map[id := ino])
               || Shown() == Names(None, map[a := o.value], map[id := ino])
      modifies this`disk, this`safe
      ensures SafeNow() && safe == old(safe)
      ensures r == Failed ==> disk.queue == [] && Shown() == Names(o, map[], map[]) && Holds() == l
      ensures r == Ambiguous ==> Holds() == l
      ensures r != Done
      ensures r == Failed <==>
                if old(Shown()).canon.Some? then
                  && plan.fate(CheckPrior).Works? && plan.fate(PriorSync).Works? && plan.fate(PriorFence).Works?
                  && Drops(plan)
                else
                  plan.fate(CheckPrior).Works? && RollsBack(plan, true, false)
    {
      SafeVisible(disk, watch);
      GoodIsNotBroken(Shown(), disk.contents);
      var canon := Visible(disk).canon;
      if canon.None? && a in Visible(disk).asides {
        var ok := Validate(plan, CheckPrior, Some(Visible(disk).asides[a]));
        if !ok {
          return Ambiguous;
        }
        r := RollbackError(plan, id, a, ino, o, l, true, false);
      } else if canon.Some? && a !in Visible(disk).asides {
        var ok := Validate(plan, CheckPrior, canon);
        if !ok {
          return Ambiguous;
        }
        ok := SyncDirectory(plan, PriorSync, canon);
        if !ok {
          return Ambiguous;
        }
        ok := FenceStep(plan, PriorFence);
        if !ok {
          return Ambiguous;
        }
        ok := RemoveStage(plan, id, ino);
        r := if ok then Failed else Ambiguous;
      } else {
        r := Ambiguous;
      }
    }

    /** `reconcile_publish_rename_error`: carry on only if the rename provably took effect. */
    method ReconcilePublish(plan: Plan, id: nat) returns (ok: bool)
      requires SafeNow()
      modifies this`disk, this`safe
      ensures SafeNow() && safe == old(safe)
      ensures Shown() == old(Shown()) && disk.contents == old(disk).contents
      ensures ok ==> disk.queue == [] && Shown().canon.Some? && id !in Shown().stages
      ensures Shown().canon.Some? && id !in Shown().stages ==>
                (ok <==> && plan.fate(CheckPublished).Works? && plan.fate(PublishedSync).Works?
                         && plan.fate(PublishedFence).Works?)
    {
      SafeVisible(disk, watch);
      var canon := Visible(disk).canon;
      ok := canon.Some? && id !in Visible(disk).stages;
      if ok {
        ok := Validate(plan, CheckPublished, canon);
      }
      if ok {
        ok := SyncDirectory(plan, PublishedSync, canon);
      }
      if ok {
        ok := FenceStep(plan, PublishedFence);
      }
    }

    /** Publish a sealed stage over the names left by the aside rename. */
    method Publish(plan: Plan, id: nat, a: nat, ino: Ino, ghost o: Option<Ino>, ghost l: Logic,
                   p: Package, hadPrior: bool)
      returns (r: Outcome)
      requires SafeNow() && Kept(o, l) && o != Some(ino) && hadPrior == o.Some?
      requires ino in disk.contents && disk.contents[ino] == Sealed(p) && Present(p) in watch
      requires Shown() == Names(None, if hadPrior then map[a := o.value] else map[], map[id := ino])
      modifies this`disk, this`safe
      ensures SafeNow() && safe == old(safe)
      ensures r == Done ==> disk.queue == [] && Shown() == Names(Some(ino), map[], map[]) && Holds() == Present(p)
      ensures r == Failed ==> disk.queue == [] && Shown() == Names(o, map[], map[]) && Holds() == l
      ensures r == Ambiguous ==> Holds() == l || Holds() == Present(p)
      ensures plan.fate(BeforePublish).Works? && plan.fate(PublishStage).Works? && HidesUnfenced(plan) && !hadPrior ==>
                r == Ambiguous && disk == Push(Push(old(disk), StageToCanon(id)), CanonToStage(id))
      ensures (r == Done <==> Publishes(plan, hadPrior)) && (r == Failed <==> Unpublishes(plan, hadPrior))
    {
      SafeVisible(disk, watch);
      GoodIsNotBroken(Shown(), disk.contents);
      ghost var asides := if hadPrior then map[a := o.value] else map[];
      assert hadPrior ==> a in Shown().asides && Shown().asides[a] == o.value;
      assert Holds() == l;
      if !plan.fate(BeforePublish).Works? {
        r := RollbackError(plan, id, a, ino, o, l, hadPrior, false);
        return;
      }
      assert map[id := ino] - {id} == map[];
      assert Apply(Shown(), StageToCanon(id)) == Names(Some(ino), asides, map[]);
      var ok := RenameStep(plan, PublishStage, StageToCanon(id));
      if !ok {
        ok := ReconcilePublish(plan, id);
        if !ok {
          return Ambiguous;
        }
      }
      assert Shown() == Names(Some(ino), asides, map[]) && Holds() == Present(p);
      r := FencePublished(plan, id, a, ino, o, l, p, hadPrior);
    }

    /** With the new package visible: sync it, fence its name, then drop the aside. */
    method FencePublished(plan: Plan, id: nat, a: nat, ino: Ino, ghost o: Option<Ino>, ghost l: Logic,
                          p: Package, hadPrior: bool)
      returns (r: Outcome)
      requires SafeNow() && Kept(o, l) && o != Some(ino) && hadPrior == o.Some?
      requires ino in disk.contents && disk.contents[ino] == Sealed(p) && Present(p) in watch && Holds() == Present(p)
      requires Shown() == Names(Some(ino), if hadPrior then map[a := o.value] else map[], map[])
      modifies this`disk, this`safe
      ensures SafeNow() && safe == old(safe)
      ensures r == Done ==> disk.queue == [] && Shown() == Names(Some(ino), map[], map[]) && Holds() == Present(p)
      ensures r == Failed ==> disk.queue == [] && Shown() == Names(o, map[], map[]) && Holds() == l
      ensures r == Ambiguous ==> Holds() == l || Holds() == Present(p)
      ensures HidesUnfenced(plan) ==> r == Ambiguous && disk == Push(old(disk), CanonToStage(id))
      ensures r == Done <==> FencesNew(plan) && (hadPrior ==> DropsPrior(plan))
      ensures r == Failed <==> !FencesNew(plan) && RollsBack(plan, hadPrior, true)
    {
      var ok := plan.fate(BeforeNewSync).Works?;
      if ok {
        ok := SyncDirectory(plan, NewSync, Visible(disk).canon);
      }
      if ok {
        ok := plan.fate(BeforeNewFence).Works?;
      }
      if ok {
        ok := FenceStep(plan, NewFence);
      }
      if !ok {
        r := RollbackError(plan, id, a, ino, o, l, hadPrior, true);
        return;
      }
      if hadPrior {
        ok := DropPrior(plan, a, ino, p);
        if !ok {
          return Ambiguous;
        }
      }
      r := Done;
    }

    /** Remove the prior aside beside a fenced new package. */
    method DropPrior(plan: Plan, a: nat, ino: Ino, p: Package) returns (ok: bool)
      requires disk.queue == [] && SafeNow() && a in Shown().asides
      requires Shown() == Names(Some(ino), map[a := Shown().asides[a]], map[]) && Holds() == Present(p)
      modifies this`disk, this`safe
      ensures SafeNow() && safe == old(safe) && Holds() == Present(p)
      ensures ok ==> disk.queue == [] && Shown() == Names(Some(ino), map[], map[])
      ensures ok <==> DropsPrior(plan)
    {
      SafeVisible(disk, watch);
      ok := plan.fate(BeforeDrop).Works?;
      if !ok {
        return;
      }
      var old_ := Visible(disk).asides[a];
      FencedIsRemovable(disk);
      RemovalKeepsVisible(disk, RmAside(a), old_);
      RemovalSafe(disk, RmAside(a), old_, watch);
      ok := RemoveDirAll(plan, DropAside, RmAside(a), old_);
      if ok {
        assert Shown().asides == map[];
        ok := FenceStep(plan, DropFence);
      }
    }

    /** Move the prior package aside and fence that before anything takes its name. */
    method MovePriorAside(plan: Plan, id: nat, a: nat, ino: Ino, prior: Option<Ino>, ghost l: Logic)
      returns (r: Outcome)
      requires SafeNow() && Kept(prior, l) && prior.Some? && prior != Some(ino) && ino in disk.contents
      requires Shown() == Names(prior, map[], map[id := ino]) && Holds() == l
      modifies this`disk, this`safe
      ensures SafeNow() && safe == old(safe)
      ensures r == Done ==> ino in disk.contents && disk.contents[ino] == old(disk).contents[ino] && Kept(prior, l)
      ensures r == Done ==> Shown() == Names(None, map[a := prior.value], map[id := ino]) && Holds() == l
      ensures r == Failed ==> disk.queue == [] && Shown() == Names(prior, map[], map[]) && Holds() == l
      ensures r == Ambiguous ==> Holds() == l
      ensures (r == Done <==> MovesAside(plan)) && (r == Failed <==> !MovesAside(plan) && MovesBack(plan))
    {
      SafeVisible(disk, watch);
      var ok := plan.fate(BeforeAside).Works?;
      if ok {
        assert Apply(Shown(), CanonToAside(a)) == Names(None, map[a := prior.value], map[id := ino]);
        GoodIsNotBroken(Apply(Shown(), CanonToAside(a)), disk.contents);
        ok := RenameStep(plan, MoveAside, CanonToAside(a));
      }
      if !ok {
        r := ReconcilePriorAside(plan, id, a, ino, prior, l);
        return;
      }
      ok := FenceStep(plan, AsideFence);
      if !ok {
        r := RollbackError(plan, id, a, ino, prior, l, true, false);
        return;
      }
      r := Done;
    }

    /** `commit_stage` */
    method CommitStage(plan: Plan, id: nat, ino: Ino, p: Package) returns (r: Outcome)
      requires Staged(id, ino, Shown().canon) && SafeNow()
      requires ino in disk.contents && disk.contents[ino] == Written(p) && Present(p) in watch
      modifies this`disk, this`sequence, this`safe
      ensures SafeNow() && safe == old(safe)
      ensures r == Done ==> disk.queue == [] && Shown() == Names(Some(ino), map[], map[]) && Holds() == Present(p)
      ensures r == Failed ==>
                disk.queue == [] && Shown() == Names(old(Shown().canon), map[], map[]) && Holds() == old(Holds())
      ensures r == Ambiguous ==> Holds() == old(Holds()) || Holds() == Present(p)
      ensures Strands(plan) && old(Shown().canon).None? ==> r == Ambiguous && Exposed(disk)
      ensures r == Done <==> Commits(plan, old(Shown().canon).Some?)
      ensures r == Failed <==> Uncommits(plan, old(Shown().canon).Some?)
    {
      SafeVisible(disk, watch);
      GoodIsNotBroken(Shown(), disk.contents);
      var a := sequence;
      sequence := sequence + 1;
      var prior := Visible(disk).canon;
      ghost var l := Holds();
      assert Kept(prior, l);
      SealKeepsSafe(disk, ino, watch);
      var ok := SyncDirectory(plan, Seal, Some(ino));
      if ok {
        ok := FenceStep(plan, SealFence);
      }
      if !ok {
        r := RollbackError(plan, id, a, ino, prior, l, false, false);
        return;
      }
      if prior.Some? {
        var moved := MovePriorAside(plan, id, a, ino, prior, l);
        if moved != Done {
          return moved;
        }
      }
      if prior.None? {
        UnfencedRollbackIsExposed(disk, id, ino);
      }
      r := Publish(plan, id, a, ino, prior, l, p, prior.Some?);
    }

    /** Write the contents of the open stage and commit it, or drop it. */
    method FillStage(plan: Plan, id: nat, ino: Ino, p: Package) returns (r: Outcome)
      requires Staged(id, ino, Shown().canon) && SafeNow()
      requires ino in disk.contents && Present(p) in watch
      modifies this`disk, this`sequence, this`safe
      ensures SafeNow() && safe == old(safe)
      ensures r == Done ==> disk.queue == [] && Shown() == Names(Some(ino), map[], map[]) && Holds() == Present(p)
      ensures r == Failed ==>
                disk.queue == [] && Shown() == Names(old(Shown().canon), map[], map[]) && Holds() == old(Holds())
      ensures r == Ambiguous ==> Holds() == old(Holds()) || Holds() == Present(p)
      ensures r == Done <==> plan.fate(Write).Works? && Commits(plan, old(Shown().canon).Some?)
      ensures r == Failed <==>
                if plan.fate(Write).Works? then Uncommits(plan, old(Shown().canon).Some?) else Drops(plan)
      ensures plan.fate(Write).Works? && Strands(plan) && old(Shown().canon).None? ==> r == Ambiguous && Exposed(disk)
    {
      StageContentIsFree(disk, id, ino, Written(p), watch);
      SafeVisible(disk, watch);
      var written := WriteContents(plan, Write, ino, p);
      if written {
        r := CommitStage(plan, id, ino, p);
      } else {
        var ok := RemoveStage(plan, id, ino);
        r := if ok then Failed else Ambiguous;
      }
    }

    /** `write_staged`, the writer behind `save_adapter` and `save_checkpoint`. */
    method WriteStaged(plan: Plan, p: Package) returns (r: Outcome)
      requires GoodNow() && Holds() in watch && Present(p) in watch
      modifies this`disk, this`sequence, this`safe
      ensures GoodNow() && Holds() in watch
      ensures r == Done ==>
                disk.queue == [] && Shown().asides == map[] && Shown().stages == map[] && Holds() == Present(p)
      ensures r == Failed ==> Holds() == old(Holds())
      ensures r == Ambiguous ==> Holds() == old(Holds()) || Holds() == Present(p)
      ensures old(SafeNow()) && !Exposed(old(disk)) ==> SafeNow() && (old(safe) ==> safe)
      ensures old(SafeNow()) && !Exposed(old(disk)) && (r != Ambiguous || old(Holds()) != Absent) ==>
                !Exposed(disk)
      ensures GetsPastRecovery(plan, old(Shown())) && Exposed(old(disk)) ==> !safe
      ensures GetsPastRecovery(plan, old(Shown())) && Stages(plan) && plan.fate(Write).Works? && Strands(plan) ==>
                (old(SafeNow()) && old(Holds()) == Absent ==> r == Ambiguous && Exposed(disk))
      ensures r == Done <==> Saves(plan, old(Shown()))
      ensures r == Failed <==> Refuses(plan, old(Shown())) || Undoes(plan, old(Shown()))
      ensures Undoes(plan, old(Shown())) ==>
                disk.queue == [] && Shown() == Names(Backing(old(Shown())), map[], map[])
      ensures !plan.fate(Lock).Works? || !plan.fate(List).Works? ==> disk == old(disk)
      ensures Refuses(plan, old(Shown())) && plan.fate(Lock).Works? && plan.fate(List).Works? ==>
                Shown() == Names(Backing(old(Shown())), map[], Shown().stages) && |Shown().stages| <= 1
    {
      if !plan.fate(Lock).Works? {
        return Failed;
      }
      var id, ino;
      r, id, ino := PrepareStage(plan);
      if r != Done {
        return;
      }
      FencedSafe(disk, watch);
      r := FillStage(plan, id, ino, p);
      SafeVisible(disk, watch);
    }
  }

  /** From `was` to `now` only names whose removal works have gone. */
  ghost predicate Cleared(plan: Plan, was: Names, now: Names) {
    && now.stages.Keys <= was.stages.Keys && now.asides.Keys <= was.asides.Keys
    && (forall id :: id in was.stages && id !in now.stages ==> plan.fate(Clear(RmStage(id))).Works?)
    && (forall id :: id in was.asides && id !in now.asides ==> plan.fate(Clear(RmAside(id))).Works?)
  }

  lemma ClearedNext(plan: Plan, was: Names, now: Names, op: NameOp)
    requires Cleared(plan, was, now) && (op.RmStage? || op.RmAside?) && plan.fate(Clear(op)).Works?
    ensures Cleared(plan, was, Apply(now, op))
  {
  }

  /** What a stage holds is nobody's business while no crash can rename it. */
  lemma StageContentIsFree(d: Disk, id: nat, ino: Ino, x: Content, allowed: set<Logic>)
    requires d.queue == [] && SafeFor(d, allowed) && Visible(d) == Names(Visible(d).canon, map[], map[id := ino])
    ensures SafeFor(Put(d, ino, x), allowed)
    ensures Logical(Visible(d), d.contents[ino := x]) == Logical(Visible(d), d.contents)
  {
    SafeVisible(d, allowed);
    assert id in Visible(d).stages && Visible(d).stages[id] == ino;
    PutKeepsGood(Visible(d), d.contents, ino, x);
    FencedSafe(Put(d, ino, x), allowed);
  }

  lemma SealKeepsSafe(d: Disk, ino: Ino, allowed: set<Logic>)
    requires d.queue == [] && SafeFor(d, allowed) && Visible(d).asides == map[]
    requires ino in d.contents && d.contents[ino].Written? && Visible(d).canon != Some(ino)
    ensures var e := Put(d, ino, Sealed(d.contents[ino].p));
            SafeFor(e, allowed) && Logical(Visible(d), e.contents) == Logical(Visible(d), d.contents)
  {
    SafeVisible(d, allowed);
    var e := Put(d, ino, Sealed(d.contents[ino].p));
    PutKeepsGood(Visible(d), d.contents, ino, Sealed(d.contents[ino].p));
    FencedSafe(e, allowed);
  }

  lemma OnlyStageNotExposed(d: Disk, id: nat, ino: Ino)
    requires NeverBacks(d, ino) && Visible(d).stages == map[id := ino]
    ensures !Exposed(d)
  {
  }

  lemma NewStageIsGood(d: Disk, id: nat, ino: Ino, allowed: set<Logic>)
    requires Good(Visible(d), d.contents) && ino !in d.contents && id !in Visible(d).stages
    ensures var e := Push(Put(d, ino, Partial), MkStage(id, ino));
            && Visible(e) == Apply(Visible(d), MkStage(id, ino))
            && Good(Visible(e), e.contents)
            && Logical(Visible(e), e.contents) == Logical(Visible(d), d.contents)
            && (SafeFor(d, allowed) ==> SafeFor(e, allowed) && NeverBacks(e, ino))
  {
    var put := Put(d, ino, Partial);
    var op := MkStage(id, ino);
    PushedNames(put, op);
    if SafeFor(d, allowed) {
      NewIsNeverBacking(d, ino, allowed);
      DestroySafe(d, ino, allowed);
      SafeVisible(d, allowed);
      PushSafe(put, op, allowed);
      var e := Push(put, op);
      forall k | 0 <= k <= |e.queue|
        ensures Backing(NamesAt(e, k)) != Some(ino)
      {
        if k <= |d.queue| {
          assert NamesAt(e, k) == NamesAt(put, k) == NamesAt(d, k);
        }
      }
    }
  }

  lemma NewIsNeverBacking(d: Disk, ino: Ino, allowed: set<Logic>)
    requires SafeFor(d, allowed) && ino !in d.contents
    ensures NeverBacks(d, ino)
  {
    forall k | 0 <= k <= |d.queue|
      ensures Backing(NamesAt(d, k)) != Some(ino)
    {
      assert Good(NamesAt(d, k), d.contents);
      GoodIsNotBroken(NamesAt(d, k), d.contents);
    }
  }

  lemma AtMostOneAside(n: Names, c: map<Ino, Content>)
    requires Good(n, c)
    ensures |n.asides| <= 1
  {
    if n.asides != map[] {
      var a :| a in n.asides;
      assert n.asides.Keys == {a};
    }
  }

  /** Moving the sole aside back shows the same package under the canonical name. */
  lemma RestoreIsGood(d: Disk, id: nat)
    requires Good(Visible(d), d.contents) && Visible(d).canon.None? && id in Visible(d).asides
    ensures var n := Apply(Visible(d), AsideToCanon(id));
            && Good(n, d.contents) && Logical(n, d.contents) == Logical(Visible(d), d.contents)
            && n.canon.Some? && n.asides == map[] && n.stages == Visible(d).stages
  {
    var n := Apply(Visible(d), AsideToCanon(id));
    GoodIsNotBroken(Visible(d), d.contents);
    assert n.asides.Keys == {};
  }

  /** A directory that some crash of `d` makes decide, some crash of `e` does too. */
  ghost predicate Remembers(d: Disk, e: Disk) {
    forall x: Ino :: NeverBacks(e, x) ==> NeverBacks(d, x)
  }

  lemma RemembersFurther(d: Disk, e: Disk, f: Disk)
    requires Remembers(d, e) && Remembers(e, f)
    ensures Remembers(d, f)
  {
  }

  /** What removing one hidden directory, perhaps only half way, does to what is seen and to crashes. */
  lemma ClearingOne(d: Disk, op: NameOp, ino: Ino, x: Disk, allowed: set<Logic>)
    requires Good(Visible(d), d.contents)
    requires (op.RmStage? || op.RmAside?) && Applies(Visible(d), op) && ino == HiddenIno(Visible(d), op)
    requires op.RmAside? ==> Visible(d).canon.Some?
    requires x == d || x == Put(d, ino, Partial) || x == Push(Put(d, ino, Partial), op)
    ensures Good(Visible(x), x.contents) && Logical(Visible(x), x.contents) == Logical(Visible(d), d.contents)
    ensures Visible(x).canon == Visible(d).canon && Remembers(d, x)
    ensures x == Push(Put(d, ino, Partial), op) ==> Visible(x) == Apply(Visible(d), op)
    ensures SafeFor(d, allowed) && Removable(d) ==> SafeFor(Put(d, ino, Partial), allowed) && SafeFor(x, allowed)
    ensures SafeFor(d, allowed) && Removable(d) && x == Push(Put(d, ino, Partial), op) ==> Removable(x)
    ensures SafeFor(d, allowed) && SafeFor(Put(d, ino, Partial), allowed) ==> NeverBacks(d, ino)
  {
    RemovalKeepsVisible(d, op, ino);
    RemovalRemembers(d, op, ino);
    if SafeFor(d, allowed) {
      DestroySafeExactly(d, ino, allowed);
      if Removable(d) {
        RemovalSafe(d, op, ino, allowed);
      }
    }
  }

  lemma RemovalRemembers(d: Disk, op: NameOp, ino: Ino)
    ensures Remembers(d, Put(d, ino, Partial)) && Remembers(d, Push(Put(d, ino, Partial), op))
  {
    var gone := Put(d, ino, Partial);
    forall k | 0 <= k <= |d.queue|
      ensures NamesAt(gone, k) == NamesAt(d, k)
    {
    }
    PushedNames(gone, op);
  }

  /** A publication and its undoing, neither of them fenced, leave the stage exposed. */
  lemma UnfencedRollbackIsExposed(d: Disk, id: nat, ino: Ino)
    requires d.queue == [] && Visible(d) == Names(None, map[], map[id := ino])
    ensures Exposed(Push(Push(d, StageToCanon(id)), CanonToStage(id)))
  {
    var published := Push(d, StageToCanon(id));
    var hidden := Push(published, CanonToStage(id));
    PushedNames(d, StageToCanon(id));
    PushedNames(published, CanonToStage(id));
    assert map[id := ino] - {id} == map[];
    assert Backing(NamesAt(hidden, 1)) == Some(ino);
    assert id in Visible(hidden).stages;
  }

  method FreshIno(used: set<Ino>) returns (ino: Ino)
    ensures ino !in used
  {
    var rest, bound := used, 0;
    while rest != {}
      invariant rest <= used
      invariant forall i :: i in used && i !in rest ==> i < bound
      decreases rest
    {
      var i :| i in rest;
      if i >= bound {
        bound := i + 1;
      }
      rest := rest - {i};
    }
    ino := bound;
  }
}
