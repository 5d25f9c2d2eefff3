/**
 The part of a file system that one checkpoint destination sees
 (`crates/ferrl/src/checkpoint.rs`): the canonical name, its `.old-*` asides and its `.tmp-*` stages.

 Name changes reach the disk in order but late: they queue up until the parent directory is synced,
 and a crash keeps an arbitrary prefix of the queue. Destroying the contents of a directory is
 immediately durable. A rename or a removal may report an error after it took effect.
 */
module Disk {
  import opened Common

  type Package = nat
  type Ino = nat

  /** What a package directory holds. `Written` is complete to readers but not yet crash-proof. */
  datatype Content = Partial | Written(p: Package) | Sealed(p: Package)

  /** The names of one destination. */
  datatype Names = Names(canon: Option<Ino>, asides: map<nat, Ino>, stages: map<nat, Ino>)

  datatype NameOp =
    | MkStage(id: nat, ino: Ino)
    | RmStage(id: nat)
    | RmAside(id: nat)
    | CanonToAside(id: nat)
    | AsideToCanon(id: nat)
    | StageToCanon(id: nat)
    | CanonToStage(id: nat)

  /** Whether a name change can be carried out. */
  predicate Applies(n: Names, op: NameOp) {
    match op
    case MkStage(id, ino) => id !in n.stages
    case RmStage(id) => id in n.stages
    case RmAside(id) => id in n.asides
    case CanonToAside(id) => n.canon.Some? && id !in n.asides
    case AsideToCanon(id) => n.canon.None? && id in n.asides
    case StageToCanon(id) => n.canon.None? && id in n.stages
    case CanonToStage(id) => n.canon.Some? && id !in n.stages
  }

  function Apply(n: Names, op: NameOp): Names {
    if !Applies(n, op) then n
    else match op
      case MkStage(id, ino) => n.(stages := n.stages[id := ino])
      case RmStage(id) => n.(stages := n.stages - {id})
      case RmAside(id) => n.(asides := n.asides - {id})
      case CanonToAside(id) => n.(canon := None, asides := n.asides[id := n.canon.value])
      case AsideToCanon(id) => n.(canon := Some(n.asides[id]), asides := n.asides - {id})
      case StageToCanon(id) => n.(canon := Some(n.stages[id]), stages := n.stages - {id})
      case CanonToStage(id) => n.(canon := None, stages := n.stages[id := n.canon.value])
  }

  function ApplyAll(n: Names, ops: seq<NameOp>): Names {
    if ops == [] then n else Apply(ApplyAll(n, ops[..|ops| - 1]), ops[|ops| - 1])
  }

  datatype Disk = Disk(durable: Names, queue: seq<NameOp>, contents: map<Ino, Content>)

  /** The names left by a crash that keeps the first `k` queued changes. */
  function NamesAt(d: Disk, k: nat): Names
    requires k <= |d.queue|
  {
    ApplyAll(d.durable, d.queue[..k])
  }

  function Visible(d: Disk): Names {
    ApplyAll(d.durable, d.queue)
  }

  lemma VisibleIsLast(d: Disk)
    ensures NamesAt(d, |d.queue|) == Visible(d)
  {
    assert d.queue[..|d.queue|] == d.queue;
  }

  function Push(d: Disk, op: NameOp): Disk {
    d.(queue := d.queue + [op])
  }

  lemma PushedNames(d: Disk, op: NameOp)
    ensures Visible(Push(d, op)) == Apply(Visible(d), op)
    ensures forall k :: 0 <= k <= |d.queue| ==> NamesAt(Push(d, op), k) == NamesAt(d, k)
    ensures NamesAt(Push(d, op), |d.queue| + 1) == Visible(Push(d, op))
  {
    var q := d.queue + [op];
    assert q[..|q| - 1] == d.queue;
    assert forall k :: 0 <= k <= |d.queue| ==> q[..k] == d.queue[..k];
    VisibleIsLast(Push(d, op));
  }

  function Fenced(d: Disk): Disk {
    d.(durable := Visible(d), queue := [])
  }

  /** A crash: some prefix of the name changes survives, and nothing unsynced stays complete. */
  function Crashed(d: Disk, k: nat): Disk
    requires k <= |d.queue|
  {
    Disk(NamesAt(d, k), [], map i | i in d.contents :: if d.contents[i].Written? then Partial else d.contents[i])
  }

  // ---------------------------------------------------------------------------
  // What a set of names means
  // ---------------------------------------------------------------------------

  /** The package a destination logically holds. */
  datatype Logic = Absent | Present(p: Package) | Broken

  /** The directory that decides: the canonical one, else the aside. */
  ghost function Backing(n: Names): Option<Ino> {
    if n.canon.Some? then n.canon
    else if n.asides == map[] then None
    else
      var id :| id in n.asides;
      Some(n.asides[id])
  }

  ghost function Logical(n: Names, c: map<Ino, Content>): Logic {
    var b := Backing(n);
    if b.None? then Absent
    else if b.value in c && c[b.value].Sealed? then Present(c[b.value].p)
    else Broken
  }

  /**
   The shape every writer keeps: at most one aside, a complete canonical package, and a corrupt aside
   only beside a canonical package. No directory has two of these names.
   */
  ghost predicate Good(n: Names, c: map<Ino, Content>) {
    && (n.canon.Some? ==> n.canon.value in c && c[n.canon.value].Sealed?)
    && (forall a, b :: a in n.asides && b in n.asides ==> a == b)
    && (forall a :: a in n.asides ==>
                      && n.asides[a] in c && n.canon != Some(n.asides[a])
                      && (c[n.asides[a]].Sealed? || (c[n.asides[a]].Partial? && n.canon.Some?)))
    && (forall s :: s in n.stages ==>
                      && n.stages[s] in c && n.canon != Some(n.stages[s])
                      && forall a :: a in n.asides ==> n.asides[a] != n.stages[s])
  }

  lemma GoodIsNotBroken(n: Names, c: map<Ino, Content>)
    requires Good(n, c)
    ensures Logical(n, c) != Broken
    ensures n.canon.None? && n.asides != map[] ==>
              forall a :: a in n.asides ==> Backing(n) == Some(n.asides[a]) && c[n.asides[a]].Sealed?
  {
  }

  /** Whatever prefix a crash keeps, the names are good and hold one of the packages in `allowed`. */
  ghost predicate SafeFor(d: Disk, allowed: set<Logic>) {
    forall k :: 0 <= k <= |d.queue| ==>
                  Good(NamesAt(d, k), d.contents) && Logical(NamesAt(d, k), d.contents) in allowed
  }

  lemma SafeVisible(d: Disk, allowed: set<Logic>)
    requires SafeFor(d, allowed)
    ensures Good(Visible(d), d.contents) && Logical(Visible(d), d.contents) in allowed
  {
    VisibleIsLast(d);
  }

  lemma PushSafe(d: Disk, op: NameOp, allowed: set<Logic>)
    requires SafeFor(d, allowed)
    requires Good(Apply(Visible(d), op), d.contents) && Logical(Apply(Visible(d), op), d.contents) in allowed
    ensures SafeFor(Push(d, op), allowed)
  {
    PushedNames(d, op);
    var e := Push(d, op);
    forall k | 0 <= k <= |e.queue|
      ensures Good(NamesAt(e, k), e.contents) && Logical(NamesAt(e, k), e.contents) in allowed
    {
      if k <= |d.queue| {
        assert NamesAt(e, k) == NamesAt(d, k);
      }
    }
  }

  lemma FenceVisible(d: Disk)
    ensures Visible(Fenced(d)) == Visible(d)
  {
  }

  lemma FenceSafe(d: Disk, allowed: set<Logic>)
    requires Good(Visible(d), d.contents) && Logical(Visible(d), d.contents) in allowed
    ensures SafeFor(Fenced(d), allowed) && Visible(Fenced(d)) == Visible(d)
  {
    forall k | 0 <= k <= |Fenced(d).queue|
      ensures NamesAt(Fenced(d), k) == Visible(d)
    {
    }
  }

  lemma FencedSafe(d: Disk, allowed: set<Logic>)
    requires d.queue == [] && Good(Visible(d), d.contents) && Logical(Visible(d), d.contents) in allowed
    ensures SafeFor(d, allowed)
  {
    assert forall k :: 0 <= k <= |d.queue| ==> NamesAt(d, k) == Visible(d);
  }

  /** Replace the contents of one directory. */
  function Put(d: Disk, ino: Ino, c: Content): Disk {
    d.(contents := d.contents[ino := c])
  }

  /** No crash makes `ino` the deciding directory. */
  ghost predicate NeverBacks(d: Disk, ino: Ino) {
    forall k :: 0 <= k <= |d.queue| ==> Backing(NamesAt(d, k)) != Some(ino)
  }

  lemma PutKeepsGood(n: Names, c: map<Ino, Content>, ino: Ino, x: Content)
    requires Good(n, c) && Backing(n) != Some(ino)
    requires x.Partial? || (forall a :: a in n.asides ==> n.asides[a] != ino)
    ensures Good(n, c[ino := x]) && Logical(n, c[ino := x]) == Logical(n, c)
  {
    GoodIsNotBroken(n, c);
  }

  /** Destroying contents that no crash can bring back into view changes nothing that counts. */
  lemma DestroySafe(d: Disk, ino: Ino, allowed: set<Logic>)
    requires SafeFor(d, allowed) && NeverBacks(d, ino)
    ensures SafeFor(Put(d, ino, Partial), allowed)
  {
    var e := Put(d, ino, Partial);
    forall k | 0 <= k <= |e.queue|
      ensures Good(NamesAt(e, k), e.contents) && Logical(NamesAt(e, k), e.contents) in allowed
    {
      assert NamesAt(e, k) == NamesAt(d, k);
      PutKeepsGood(NamesAt(d, k), d.contents, ino, Partial);
    }
  }

  /** Removing any hidden directory now is harmless: no crash makes one of them decide. */
  ghost predicate Removable(d: Disk) {
    && (forall s :: s in Visible(d).stages ==> NeverBacks(d, Visible(d).stages[s]))
    && (forall a :: a in Visible(d).asides ==> NeverBacks(d, Visible(d).asides[a]))
  }

  ghost function HiddenIno(n: Names, op: NameOp): Ino
    requires Applies(n, op) && (op.RmStage? || op.RmAside?)
  {
    if op.RmStage? then n.stages[op.id] else n.asides[op.id]
  }

  /** One removal, as seen: the deciding directory and its package stay. */
  lemma RemovalKeepsVisible(d: Disk, op: NameOp, ino: Ino)
    requires Good(Visible(d), d.contents)
    requires (op.RmStage? || op.RmAside?) && Applies(Visible(d), op) && ino == HiddenIno(Visible(d), op)
    requires op.RmAside? ==> Visible(d).canon.Some?
    ensures var gone := Put(d, ino, Partial);
            var e := Push(gone, op);
            && Visible(gone) == Visible(d) && Visible(e) == Apply(Visible(d), op)
            && Visible(e).canon == Visible(d).canon
            && Good(Visible(d), gone.contents) && Good(Visible(e), e.contents)
            && Logical(Visible(d), gone.contents) == Logical(Visible(d), d.contents)
            && Logical(Visible(e), e.contents) == Logical(Visible(d), d.contents)
  {
    var gone := Put(d, ino, Partial);
    GoodIsNotBroken(Visible(d), d.contents);
    PutKeepsGood(Visible(d), d.contents, ino, Partial);
    PushedNames(gone, op);
  }

  /** One removal, as a crash sees it. */
  lemma RemovalSafe(d: Disk, op: NameOp, ino: Ino, allowed: set<Logic>)
    requires SafeFor(d, allowed) && Removable(d)
    requires (op.RmStage? || op.RmAside?) && Applies(Visible(d), op) && ino == HiddenIno(Visible(d), op)
    requires op.RmAside? ==> Visible(d).canon.Some?
    ensures var gone := Put(d, ino, Partial);
            SafeFor(gone, allowed) && SafeFor(Push(gone, op), allowed) && Removable(Push(gone, op))
  {
    SafeVisible(d, allowed);
    RemovalKeepsVisible(d, op, ino);
    DestroySafe(d, ino, allowed);
    var gone := Put(d, ino, Partial);
    var e := Push(gone, op);
    PushSafe(gone, op, allowed);
    PushedNames(gone, op);
    forall x: Ino, k: nat | NeverBacks(d, x) && 0 <= k <= |e.queue| && Backing(Visible(e)) != Some(x)
      ensures Backing(NamesAt(e, k)) != Some(x)
    {
      if k <= |d.queue| {
        assert NamesAt(e, k) == NamesAt(gone, k) == NamesAt(d, k);
      }
    }
    assert Good(Visible(e), e.contents);
    forall s | s in Visible(e).stages
      ensures NeverBacks(e, Visible(e).stages[s])
    {
      GoodIsNotBroken(Visible(e), e.contents);
      assert Visible(e).stages[s] == Visible(d).stages[s];
    }
    forall a | a in Visible(e).asides
      ensures NeverBacks(e, Visible(e).asides[a])
    {
      assert Visible(e).asides[a] == Visible(d).asides[a];
      GoodIsNotBroken(Visible(d), d.contents);
      VisibleIsLast(d);
      assert Backing(Visible(e)) == Visible(d).canon;
    }
  }

  /** Once everything is fenced, the names beside the deciding one are removable. */
  lemma FencedIsRemovable(d: Disk)
    requires d.queue == [] && Good(Visible(d), d.contents)
    requires Visible(d).asides != map[] ==> Visible(d).canon.Some?
    ensures Removable(d)
  {
    assert forall k :: 0 <= k <= |d.queue| ==> NamesAt(d, k) == Visible(d);
    GoodIsNotBroken(Visible(d), d.contents);
  }

  /** Conversely, destroying contents that some crash would bring back breaks that crash. */
  lemma DestroySafeExactly(d: Disk, ino: Ino, allowed: set<Logic>)
    requires SafeFor(d, allowed)
    ensures SafeFor(Put(d, ino, Partial), allowed) <==> NeverBacks(d, ino)
  {
    if NeverBacks(d, ino) {
      DestroySafe(d, ino, allowed);
    } else {
      var k: nat :| k <= |d.queue| && Backing(NamesAt(d, k)) == Some(ino);
      var e := Put(d, ino, Partial);
      assert NamesAt(e, k) == NamesAt(d, k);
      assert Good(NamesAt(d, k), d.contents);
      assert !Good(NamesAt(e, k), e.contents);
    }
  }

  /** Everything a crash right now may leave. */
  ghost function CrashLogics(d: Disk): set<Logic> {
    set k | 0 <= k <= |d.queue| :: Logical(NamesAt(d, k), d.contents)
  }

  lemma SafeForMonotone(d: Disk, allowed: set<Logic>)
    ensures SafeFor(d, CrashLogics(d)) && CrashLogics(d) <= allowed ==> SafeFor(d, allowed)
    ensures SafeFor(d, allowed) ==> SafeFor(d, CrashLogics(d)) && CrashLogics(d) <= allowed
  {
    assert forall k :: 0 <= k <= |d.queue| ==> Logical(NamesAt(d, k), d.contents) in CrashLogics(d);
  }

  lemma FencedCrashLogics(d: Disk)
    requires d.queue == []
    ensures CrashLogics(d) == {Logical(Visible(d), d.contents)}
  {
    assert forall k :: 0 <= k <= |d.queue| ==> NamesAt(d, k) == Visible(d);
    assert Logical(NamesAt(d, 0), d.contents) in CrashLogics(d);
  }

  /** After a crash, the names are good, fenced, and hold one of the allowed packages. */
  lemma CrashIsSafe(d: Disk, k: nat, allowed: set<Logic>)
    requires SafeFor(d, allowed) && k <= |d.queue|
    ensures SafeFor(Crashed(d, k), allowed)
  {
    var e := Crashed(d, k);
    assert Good(NamesAt(d, k), d.contents);
    assert e.contents.Keys == d.contents.Keys;
    forall j | 0 <= j <= |e.queue|
      ensures Good(NamesAt(e, j), e.contents) && Logical(NamesAt(e, j), e.contents) in allowed
    {
      assert NamesAt(e, j) == NamesAt(d, k);
    }
  }
}
