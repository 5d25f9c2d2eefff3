/**
 Whole histories of ordinary checkpoint writers and crashes on one destination.

 `RunHistory` performs any sequence of saves and crashes and records what each did; the lemmas state
 what such a record guarantees to a reader. The one rule it follows is that an ambiguous *first*
 publication is remounted before the next save. `RecoveryCanBreakAFirstSave` shows why: without that rule
 crash safety fails. A process that never crashes needs no rule (`RunLive`).
 */
module CheckpointHistory {
  import opened Common
  import opened Disk
  import opened CheckpointReplies
  import opened CheckpointWriter

  datatype Event = Save(p: Package, plan: Plan) | Crash

  /**
   What one event did: the package logically held before and after, and every package that a crash
   at that moment could have left. `calm` says that no crash during the event could have left
   anything but a previously possible package or the one being saved.
   */
  datatype Entry = Entry(event: Event, outcome: Outcome, before: Logic, after: Logic,
                         crashBefore: set<Logic>, crashAfter: set<Logic>, calm: bool)

  /** An entry behaves like an operation on an atomic register. */
  predicate Atomic(e: Entry) {
    && e.before in e.crashBefore && e.after in e.crashAfter
    && Broken !in e.crashAfter
    && match e.event
       case Save(p, _) =>
         && e.calm && e.crashAfter <= e.crashBefore + {Present(p)}
         && (e.outcome == Done ==> e.after == Present(p) && e.crashAfter == {Present(p)})
         && (e.outcome == Failed ==> e.after == e.before)
         && (e.outcome == Ambiguous ==> e.after == e.before || e.after == Present(p))
       case Crash =>
         e.after in e.crashBefore && e.crashAfter == {e.after}
  }

  /** Each entry starts where the previous one ended. */
  predicate Chained(log: seq<Entry>) {
    && (forall i :: 0 <= i < |log| ==> Atomic(log[i]))
    && (forall i :: 0 < i < |log| ==>
                      log[i].before == log[i - 1].after && log[i].crashBefore == log[i - 1].crashAfter)
  }

  ghost predicate Healthy(d: Disk) {
    SafeFor(d, CrashLogics(d))
  }

  lemma HealthyIsNotBroken(d: Disk)
    requires Healthy(d)
    ensures Broken !in CrashLogics(d)
    ensures Logical(Visible(d), d.contents) in CrashLogics(d)
  {
    SafeVisible(d, CrashLogics(d));
    forall k | 0 <= k <= |d.queue|
      ensures Logical(NamesAt(d, k), d.contents) != Broken
    {
      GoodIsNotBroken(NamesAt(d, k), d.contents);
    }
  }

  /** Save once; `remount` asks for a remount before the next save. */
  method SaveOnce(dest: Destination, plan: Plan, p: Package)
    returns (r: Outcome, remount: bool, ghost e: Entry)
    requires Healthy(dest.disk) && !Exposed(dest.disk)
    modifies dest
    ensures Healthy(dest.disk)
    ensures remount <==> r == Ambiguous && e.before == Absent
    ensures !remount ==> !Exposed(dest.disk)
    ensures Atomic(e) && e.event == Save(p, plan) && e.outcome == r
    ensures e.before == Logical(Visible(old(dest.disk)), old(dest.disk).contents)
    ensures e.after == Logical(Visible(dest.disk), dest.disk.contents)
    ensures e.crashBefore == CrashLogics(old(dest.disk)) && e.crashAfter == CrashLogics(dest.disk)
  {
    ghost var before := dest.disk;
    ghost var watch := CrashLogics(before) + {Present(p)};
    HealthyIsNotBroken(before);
    SafeVisible(before, CrashLogics(before));
    SafeForMonotone(before, watch);
    dest.watch := watch;
    dest.safe := true;
    var empty := Visible(dest.disk).canon.None? && Visible(dest.disk).asides == map[];
    GoodIsNotBroken(Visible(before), before.contents);
    assert empty <==> Logical(Visible(before), before.contents) == Absent;
    r := dest.WriteStaged(plan, p);
    remount := r == Ambiguous && empty;
    SafeForMonotone(dest.disk, watch);
    HealthyIsNotBroken(dest.disk);
    if r == Done {
      FencedCrashLogics(dest.disk);
    }
    e := Entry(Save(p, plan), r, Logical(Visible(before), before.contents),
               Logical(Visible(dest.disk), dest.disk.contents),
               CrashLogics(before), CrashLogics(dest.disk), dest.safe);
  }

  method CrashOnce(dest: Destination) returns (ghost e: Entry)
    requires Healthy(dest.disk)
    modifies dest
    ensures Healthy(dest.disk) && !Exposed(dest.disk)
    ensures Atomic(e) && e.event == Crash
    ensures e.before == Logical(Visible(old(dest.disk)), old(dest.disk).contents)
    ensures e.after == Logical(Visible(dest.disk), dest.disk.contents)
    ensures e.crashBefore == CrashLogics(old(dest.disk)) && e.crashAfter == CrashLogics(dest.disk)
  {
    ghost var before := dest.disk;
    var k: nat :| k <= |dest.disk.queue|;
    dest.disk := Crashed(dest.disk, k);
    CrashIsSafe(before, k, CrashLogics(before));
    SafeForMonotone(dest.disk, CrashLogics(before));
    SafeVisible(dest.disk, CrashLogics(before));
    FencedCrashLogics(dest.disk);
    HealthyIsNotBroken(dest.disk);
    HealthyIsNotBroken(before);
    FencedIsNotExposed(dest.disk);
    e := Entry(Crash, Done, Logical(Visible(before), before.contents), Logical(Visible(dest.disk), dest.disk.contents),
               CrashLogics(before), CrashLogics(dest.disk), true);
  }

  lemma FencedIsNotExposed(d: Disk)
    requires d.queue == []
    ensures !Exposed(d)
  {
    assert forall k :: 0 <= k <= |d.queue| ==> NamesAt(d, k) == Visible(d);
  }

  lemma Extend(log: seq<Entry>, e: Entry)
    requires Chained(log) && Atomic(e)
    requires log != [] ==> e.before == log[|log| - 1].after && e.crashBefore == log[|log| - 1].crashAfter
    ensures Chained(log + [e])
  {
  }

  ghost predicate LogFits(log: seq<Entry>, start: Disk, now: Disk) {
    && Chained(log)
    && (log == [] ==> now == start)
    && (log != [] ==>
          && log[0].before == Logical(Visible(start), start.contents)
          && log[0].crashBefore == CrashLogics(start)
          && log[|log| - 1].after == Logical(Visible(now), now.contents)
          && log[|log| - 1].crashAfter == CrashLogics(now))
  }

  /** Any history of saves and crashes, with any faults, remounting after an ambiguous first publication. */
  method RunHistory(dest: Destination, events: seq<Event>) returns (ghost log: seq<Entry>)
    requires Healthy(dest.disk) && !Exposed(dest.disk)
    modifies dest
    ensures Healthy(dest.disk) && LogFits(log, old(dest.disk), dest.disk)
  {
    log := [];
    var remount := false;
    for i := 0 to |events|
      invariant Healthy(dest.disk) && (!remount ==> !Exposed(dest.disk))
      invariant LogFits(log, old(dest.disk), dest.disk)
    {
      if remount || events[i].Crash? {
        ghost var e := CrashOnce(dest);
        Extend(log, e);
        log := log + [e];
        remount := false;
      }
      if events[i].Save? {
        var r;
        ghost var e;
        r, remount, e := SaveOnce(dest, events[i].plan, events[i].p);
        Extend(log, e);
        log := log + [e];
      }
    }
  }

  /** Under the names `n` directory `ino` decides what is held. */
  predicate Decides(n: Names, ino: Ino) {
    n.canon == Some(ino) || (n.canon.None? && exists a :: a in n.asides && n.asides[a] == ino)
  }

  /** `Exposed`, looked up in the disk and its queue. */
  predicate LooksExposed(d: Disk) {
    && Visible(d).canon.None? && Visible(d).asides == map[]
    && exists s :: s in Visible(d).stages
                   && exists k :: 0 <= k <= |d.queue| && Decides(NamesAt(d, k), Visible(d).stages[s])
  }

  lemma DecidesIsBacking(n: Names, c: map<Ino, Content>, ino: Ino)
    requires Good(n, c)
    ensures Decides(n, ino) <==> Backing(n) == Some(ino)
  {
    GoodIsNotBroken(n, c);
  }

  lemma LooksExposedIsExposed(d: Disk)
    requires Healthy(d)
    ensures LooksExposed(d) <==> Exposed(d)
  {
    forall s | s in Visible(d).stages
      ensures (exists k :: 0 <= k <= |d.queue| && Decides(NamesAt(d, k), Visible(d).stages[s]))
              <==> !NeverBacks(d, Visible(d).stages[s])
    {
      forall k | 0 <= k <= |d.queue|
        ensures Decides(NamesAt(d, k), Visible(d).stages[s]) <==> Backing(NamesAt(d, k)) == Some(Visible(d).stages[s])
      {
        DecidesIsBacking(NamesAt(d, k), d.contents, Visible(d).stages[s]);
      }
    }
  }

  ghost predicate EventOf(e: Entry, event: Event) {
    e.event == event
  }

  /** Any history without remounts, up to the first save that would start its recovery from an exposed disk. */
  method RunUntilExposed(dest: Destination, events: seq<Event>) returns (done: nat, ghost log: seq<Entry>)
    requires Healthy(dest.disk) && !Exposed(dest.disk)
    modifies dest
    ensures Healthy(dest.disk) && LogFits(log, old(dest.disk), dest.disk)
    ensures done <= |events| && |log| == done
    ensures forall i :: 0 <= i < done ==> EventOf(log[i], events[i])
    ensures done < |events| ==> events[done].Save? && Exposed(dest.disk)
  {
    log, done := [], 0;
    while done < |events|
      invariant Healthy(dest.disk) && LogFits(log, old(dest.disk), dest.disk)
      invariant done <= |events| && |log| == done
      invariant forall i :: 0 <= i < done ==> EventOf(log[i], events[i])
    {
      LooksExposedIsExposed(dest.disk);
      ghost var e;
      if events[done].Crash? {
        e := CrashOnce(dest);
      } else if LooksExposed(dest.disk) {
        return;
      } else {
        var r, remount;
        r, remount, e := SaveOnce(dest, events[done].plan, events[done].p);
      }
      Extend(log, e);
      log := log + [e];
      done := done + 1;
    }
  }

  // ---------------------------------------------------------------------------
  // What a record guarantees
  // ---------------------------------------------------------------------------

  /** The packages a reader may see after a history: what was possible before it, or something saved. */
  lemma {:induction false} OnlySavedPackagesAppear(log: seq<Entry>, i: nat, l: Logic)
    requires Chained(log) && i < |log| && l in log[i].crashAfter
    ensures l != Broken
    ensures l in log[0].crashBefore || exists j :: 0 <= j <= i && log[j].event.Save? && l == Present(log[j].event.p)
  {
    if l !in log[i].crashBefore {
      assert log[i].event.Save?;
    } else if i > 0 {
      OnlySavedPackagesAppear(log, i - 1, l);
    }
  }

  /** A successful save survives everything except later saves. */
  lemma {:induction false} SuccessfulSaveIsDurable(log: seq<Entry>, i: nat, j: nat)
    requires Chained(log) && i <= j < |log|
    requires log[i].event.Save? && log[i].outcome == Done
    requires forall k :: i < k <= j ==> log[k].event == Crash
    ensures log[j].after == Present(log[i].event.p) && log[j].crashAfter == {Present(log[i].event.p)}
  {
    if i < j {
      SuccessfulSaveIsDurable(log, i, j - 1);
    }
  }

  /** A plain error is invisible: the held package stays what it was. */
  lemma {:induction false} FailedSavesChangeNothing(log: seq<Entry>, i: nat, j: nat)
    requires Chained(log) && i <= j < |log|
    requires forall k :: i <= k <= j ==> log[k].event.Save? && log[k].outcome == Failed
    ensures log[j].after == log[i].before
  {
    if i < j {
      FailedSavesChangeNothing(log, i, j - 1);
    }
  }

  /** Once something is held, no history of saves and crashes loses everything. */
  lemma {:induction false} NeverLost(log: seq<Entry>, i: nat)
    requires Chained(log) && i < |log| && Absent !in log[0].crashBefore
    ensures Absent !in log[i].crashAfter && log[i].after.Present?
  {
    if i > 0 {
      NeverLost(log, i - 1);
    }
  }

  // ---------------------------------------------------------------------------
  // A process that never crashes
  // ---------------------------------------------------------------------------

  /** What one save did to the package held, as a running process sees it. */
  datatype LiveEntry = LiveEntry(p: Package, outcome: Outcome, before: Logic, after: Logic)

  predicate Register(e: LiveEntry) {
    && e.after != Broken
    && (e.outcome == Done ==> e.after == Present(e.p))
    && (e.outcome == Failed ==> e.after == e.before)
    && (e.outcome == Ambiguous ==> e.after == e.before || e.after == Present(e.p))
  }

  predicate LiveChain(log: seq<LiveEntry>) {
    && (forall i :: 0 <= i < |log| ==> Register(log[i]))
    && (forall i :: 0 < i < |log| ==> log[i].before == log[i - 1].after)
  }

  predicate LiveFits(log: seq<LiveEntry>, start: Logic, now: Logic) {
    && LiveChain(log)
    && (log == [] ==> now == start)
    && (log != [] ==> log[0].before == start && log[|log| - 1].after == now)
  }

  lemma LiveExtend(log: seq<LiveEntry>, start: Logic, e: LiveEntry)
    requires LiveFits(log, start, e.before) && Register(e)
    ensures LiveFits(log + [e], start, e.after)
  {
  }

  /** One save, as a running process sees it. */
  method LiveSave(dest: Destination, plan: Plan, p: Package) returns (ghost e: LiveEntry)
    requires dest.GoodNow()
    modifies dest
    ensures dest.GoodNow()
    ensures Register(e) && e.p == p && e.before == old(dest.Holds()) && e.after == dest.Holds()
    ensures e.outcome == Done <==> Saves(plan, old(dest.Shown()))
  {
    ghost var before := dest.Holds();
    dest.watch := {before, Present(p)};
    var r := dest.WriteStaged(plan, p);
    GoodIsNotBroken(dest.Shown(), dest.disk.contents);
    e := LiveEntry(p, r, before, dest.Holds());
  }

  /** Any number of saves without a crash, with any faults: no remount is needed. */
  method RunLive(dest: Destination, plans: seq<Plan>, packages: seq<Package>) returns (ghost log: seq<LiveEntry>)
    requires dest.GoodNow() && |plans| == |packages|
    modifies dest
    ensures dest.GoodNow() && |log| == |packages|
    ensures LiveFits(log, old(dest.Holds()), dest.Holds())
    ensures forall i :: 0 <= i < |log| ==> log[i].p == packages[i] && (AllWork(plans[i]) ==> log[i].outcome == Done)
  {
    log := [];
    for i := 0 to |packages|
      invariant dest.GoodNow() && |log| == i
      invariant LiveFits(log, old(dest.Holds()), dest.Holds())
      invariant forall k :: 0 <= k < i ==> log[k].p == packages[k] && (AllWork(plans[k]) ==> log[k].outcome == Done)
    {
      ghost var names := dest.Shown();
      ghost var e := LiveSave(dest, plans[i], packages[i]);
      if AllWork(plans[i]) {
        NoFaultSaves(plans[i], names);
      }
      LiveExtend(log, old(dest.Holds()), e);
      log := log + [e];
    }
  }

  /** The package held was saved by entry `j`, and nothing after it is known to have succeeded. */
  predicate HeldFrom(log: seq<LiveEntry>, i: nat, j: nat) {
    && j <= i < |log|
    && log[i].after == Present(log[j].p) && log[j].outcome != Failed
    && forall k :: j < k <= i ==> log[k].outcome != Done
  }

  /**
   What a running process holds is what it held at the start, if no save succeeded, or what the last
   successful save or an ambiguous one after it wrote.
   */
  lemma {:induction false} LiveReads(log: seq<LiveEntry>, start: Logic, i: nat)
    requires LiveChain(log) && log != [] && log[0].before == start && i < |log|
    ensures || (log[i].after == start && forall k :: 0 <= k <= i ==> log[k].outcome != Done)
            || exists j: nat :: HeldFrom(log, i, j)
  {
    if log[i].outcome == Done || (log[i].outcome == Ambiguous && log[i].after == Present(log[i].p)) {
      assert HeldFrom(log, i, i);
    } else if i > 0 {
      var earlier := i - 1;
      LiveReads(log, start, earlier);
      if j: nat :| HeldFrom(log, earlier, j) {
        assert HeldFrom(log, i, j);
      }
    }
  }

  // ---------------------------------------------------------------------------
  // Why the rule is needed
  // ---------------------------------------------------------------------------

  /**
   With nothing visible to keep, the reconciler removes stages without fencing first. Destroying a
   stage's contents then keeps crashes safe exactly if no crash makes that stage's directory decide.
   */
  lemma CleaningExposesExactly(d: Disk, allowed: set<Logic>)
    requires SafeFor(d, allowed) && Visible(d).canon.None? && Visible(d).asides == map[]
    ensures Exposed(d)
            <==> exists s :: s in Visible(d).stages && !SafeFor(Put(d, Visible(d).stages[s], Partial), allowed)
  {
    forall s | s in Visible(d).stages
      ensures SafeFor(Put(d, Visible(d).stages[s], Partial), allowed) <==> NeverBacks(d, Visible(d).stages[s])
    {
      DestroySafeExactly(d, Visible(d).stages[s], allowed);
    }
  }

  /** Everything works but the given steps, which fail without effect. */
  function FailAt(failing: set<Step>): Plan {
    Plan(s => if s in failing then Fails else Works, s => false)
  }

  /** From no names at all, everything gets past recovery. */
  lemma NothingToRecover(plan: Plan)
    requires plan.fate(Lock).Works? && plan.fate(List).Works?
    ensures GetsPastRecovery(plan, Names(None, map[], map[]))
  {
  }

  lemma TwoFencesStrand(plan: Plan)
    requires plan == FailAt({NewFence, HideFence})
    ensures GetsPastRecovery(plan, Names(None, map[], map[]))
    ensures Stages(plan) && plan.fate(Write).Works? && Strands(plan)
  {
    NothingToRecover(plan);
  }

  /** A first save that is published and taken back, neither of them fenced. */
  method StrandFirstSave(p: Package) returns (dest: Destination, first: Outcome)
    ensures fresh(dest) && first == Ambiguous && dest.safe && dest.GoodNow() && Exposed(dest.disk)
  {
    dest := new Destination(Disk(Names(None, map[], map[]), [], map[]), {Absent, Present(p)});
    FencedSafe(dest.disk, dest.watch);
    FencedIsNotExposed(dest.disk);
    TwoFencesStrand(FailAt({NewFence, HideFence}));
    first := dest.WriteStaged(FailAt({NewFence, HideFence}), p);
  }

  lemma NothingFails(n: Names)
    ensures FailAt({}).fate(List).Works? && Recovers(FailAt({}), n)
  {
  }

  /**
   A first save whose publication can be fenced as little as its undoing, and a recovery in which every
   step works: up to the recovery no crash could have shown anything but absence or the saved package,
   during the recovery one could have shown destroyed contents.
   */
  method RecoveryCanBreakAFirstSave(p: Package)
    returns (dest: Destination, first: Outcome, ghost calm: bool, ghost exposed: bool)
    ensures first == Ambiguous && calm && exposed && !dest.safe
  {
    dest, first := StrandFirstSave(p);
    calm, exposed := dest.safe, Exposed(dest.disk);
    NothingFails(dest.Shown());
    var second := dest.Reconcile(FailAt({}));
  }
}
