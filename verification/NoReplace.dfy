/**
 The no-replace checkpoint writer (`crates/ferrl/src/checkpoint.rs`, `save_checkpoint_no_replace`,
 `cleanup_uncommitted_claim`, `verify_visible_owned_package`): `create_dir` is the claim, a private
 marker proves ownership, renaming the manifest into place is the commit.

 Coordinated writers hold one lock and run one after the other. A hostile process may in addition
 replace or edit the destination between any two steps, also between the marker read and the file reads
 of a verification. How every step of a save ends, and what an outsider does before it, are arguments of
 the save; creations, renames and removals may fail after taking effect, and a removal may stop half way.
 */
module NoReplace {
  import opened Common

  type File(==, !new, 0)
  type Print(==, !new)
  type Token = nat

  datatype Name = Adapter | Optimizer | Temp | Manifest

  datatype Dir = Dir(owner: Option<Token>, files: map<Name, File>)

  datatype Package = Package(adapter: File, optimizer: File, manifest: File)

  /** The fingerprints of the three files of a package. */
  datatype Prints = Prints(adapter: Print, optimizer: Print, manifest: Print)

  datatype Reply = Saved | Plain | Ambiguous

  /** The destination, and which of its entries are synced. */
  datatype Snap = Snap(dest: Option<Dir>, durable: set<Name>)

  /** The steps of one save, each taken at most once. */
  datatype Step =
    | Create | Marker | ClaimSync | ClaimParentSync | Put(name: Name) | ReadBack(name: Name) | PayloadSync
    | Rename | FenceSync(again: bool) | FenceParentSync(again: bool) | VisibleMarker | ReadVisible(name: Name)
    | CleanupMarker | Remove | RemovalSync

  /** What a failed removal leaves: nothing, or all but some files and perhaps the marker. */
  datatype Debris = Nothing | Remnant(gone: set<Name>, unmarked: bool)

  /**
   How the steps of one save end, what those leave that fail half way, and what an outsider makes of the
   destination before each of them, if anything.
   */
  datatype Plan = Plan(fate: Step -> Fate, garbage: Name -> File, debris: Debris, outsider: Step -> Option<Snap>)

  predicate HasPayload(d: Dir) {
    Adapter in d.files && Optimizer in d.files
  }

  function PackageFiles(p: Package): map<Name, File> {
    map[Adapter := p.adapter, Optimizer := p.optimizer, Manifest := p.manifest]
  }

  /** Everything in place but the manifest, which is still under its temporary name. */
  function StagedFiles(p: Package): map<Name, File> {
    map[Adapter := p.adapter, Optimizer := p.optimizer, Temp := p.manifest]
  }

  function PrintsOf(digest: File -> Print, p: Package): Prints {
    Prints(digest(p.adapter), digest(p.optimizer), digest(p.manifest))
  }

  lemma RenamedFiles(p: Package)
    ensures (StagedFiles(p) - {Temp})[Manifest := p.manifest] == PackageFiles(p)
    ensures StagedFiles(p)[Temp] == p.manifest
  {
  }

  /** Readers never see a manifest whose payload is missing or could still be lost in a crash. */
  ghost predicate Whole(s: Snap) {
    s.dest.Some? && Manifest in s.dest.value.files ==> HasPayload(s.dest.value) && {Adapter, Optimizer} <= s.durable
  }

  /** What a crash may leave of a directory: its synced entries, and any of the others. */
  ghost predicate CrashLeaves(d: Dir, durable: set<Name>, u: Dir) {
    && (forall n :: n in u.files ==> n in d.files && u.files[n] == d.files[n])
    && (forall n :: n in d.files && n in durable ==> n in u.files)
  }

  /** If the payload was synced before the manifest became visible, a surviving manifest has its payload. */
  lemma ManifestSurvivesWithPayload(d: Dir, durable: set<Name>, u: Dir)
    requires Whole(Snap(Some(d), durable)) && CrashLeaves(d, durable, u)
    requires Manifest in u.files
    ensures HasPayload(u) && u.files[Adapter] == d.files[Adapter] && u.files[Optimizer] == d.files[Optimizer]
    ensures u.files[Manifest] == d.files[Manifest]
  {
    assert Adapter in durable && Optimizer in durable;
  }

  // ---------------------------------------------------------------------------
  // What a verification has seen
  // ---------------------------------------------------------------------------

  ghost predicate Owned(s: Snap, token: Token) {
    s.dest.Some? && s.dest.value.owner == Some(token)
  }

  ghost predicate FileIs(s: Snap, name: Name, digest: File -> Print, fingerprint: Print) {
    s.dest.Some? && name in s.dest.value.files && digest(s.dest.value.files[name]) == fingerprint
  }

  /** The three files have the given fingerprints, the manifest under the given name. */
  ghost predicate FilesAre(s: Snap, manifest: Name, digest: File -> Print, e: Prints) {
    && FileIs(s, Adapter, digest, e.adapter) && FileIs(s, Optimizer, digest, e.optimizer)
    && FileIs(s, manifest, digest, e.manifest)
  }

  /** Which of the states so far the marker and the three files were read in. */
  datatype Reads = Reads(marker: nat, adapter: nat, optimizer: nat, manifest: nat)

  /** In this order, from state `from` on, each file had its fingerprint when it was read. */
  ghost predicate FilesHeld(seen: seq<Snap>, from: nat, at: Reads, manifest: Name, digest: File -> Print, e: Prints) {
    && from <= at.adapter <= at.optimizer <= at.manifest < |seen|
    && FileIs(seen[at.adapter], Adapter, digest, e.adapter)
    && FileIs(seen[at.optimizer], Optimizer, digest, e.optimizer)
    && FileIs(seen[at.manifest], manifest, digest, e.manifest)
  }

  /** The marker and then each file was what the writer published when it was read. */
  ghost predicate HeldWhenRead(seen: seq<Snap>, from: nat, at: Reads, token: Token, digest: File -> Print, e: Prints) {
    && from <= at.marker < |seen| && Owned(seen[at.marker], token)
    && FilesHeld(seen, at.marker, at, Manifest, digest, e)
  }

  /** One state in which all four parts match. */
  ghost predicate Published(s: Snap, token: Token, digest: File -> Print, e: Prints) {
    Owned(s, token) && FilesAre(s, Manifest, digest, e)
  }

  // ---------------------------------------------------------------------------
  // Plans
  // ---------------------------------------------------------------------------

  predicate Succeeds(plan: Plan, step: Step) {
    plan.fate(step).Works?
  }

  /** All three fingerprints can be read. */
  predicate ReadsWork(plan: Plan, visible: bool) {
    if visible then
      && plan.fate(ReadVisible(Adapter)).Works? && plan.fate(ReadVisible(Optimizer)).Works?
      && plan.fate(ReadVisible(Manifest)).Works?
    else
      && plan.fate(ReadBack(Adapter)).Works? && plan.fate(ReadBack(Optimizer)).Works?
      && plan.fate(ReadBack(Manifest)).Works?
  }

  /** The claim's marker and name are made durable. */
  predicate Anchors(plan: Plan) {
    Succeeds(plan, ClaimSync) && Succeeds(plan, ClaimParentSync)
  }

  /** The payload and the unpublished manifest are written. */
  predicate Writes(plan: Plan) {
    Succeeds(plan, Put(Adapter)) && Succeeds(plan, Put(Optimizer)) && Succeeds(plan, Put(Temp))
  }

  /** What was written is fingerprinted and its names are made durable. */
  predicate Seals(plan: Plan) {
    ReadsWork(plan, false) && Succeeds(plan, PayloadSync)
  }

  /** Everything between the marker and the manifest rename. */
  predicate Stages(plan: Plan) {
    Anchors(plan) && Writes(plan) && Seals(plan)
  }

  predicate FencesAt(plan: Plan, again: bool) {
    Succeeds(plan, FenceSync(again)) && Succeeds(plan, FenceParentSync(again))
  }

  /** What is published is fenced, in one of two attempts, and read back. */
  predicate Confirms(plan: Plan) {
    (FencesAt(plan, false) || FencesAt(plan, true)) && Succeeds(plan, VisibleMarker) && ReadsWork(plan, true)
  }

  predicate Removes(plan: Plan) {
    Succeeds(plan, CleanupMarker) && Succeeds(plan, Remove)
  }

  /** An uncommitted claim is removed for good. */
  predicate CleansUp(plan: Plan) {
    Removes(plan) && Succeeds(plan, RemovalSync)
  }

  /** Reading one file of the visible package, or reading it back before the commit. */
  function ReadStep(visible: bool, name: Name): Step {
    if visible then ReadVisible(name) else ReadBack(name)
  }

  function Left(d: Dir, debris: Debris): Option<Dir> {
    match debris
    case Nothing => None
    case Remnant(gone, unmarked) => Some(Dir(if unmarked then None else d.owner, d.files - gone))
  }

  /** What removing a directory leaves of it. */
  function AfterRemoval(d: Dir, plan: Plan): Option<Dir> {
    match plan.fate(Remove)
    case Works => None
    case Fails => Some(d)
    case Late => Left(d, plan.debris)
  }

  /** The cleanup of a directory that carries the writer's marker, with its reply. */
  function Undone(d: Dir, plan: Plan): (Reply, Option<Dir>) {
    if !plan.fate(CleanupMarker).Works? then (Ambiguous, Some(d))
    else (if plan.fate(Remove).Works? && plan.fate(RemovalSync).Works? then Plain else Ambiguous, AfterRemoval(d, plan))
  }

  /** The directory after a manifest rename that did not succeed. */
  function Unpublished(p: Package, token: Token, plan: Plan): Dir {
    Dir(Some(token), if plan.fate(Rename).Late? then PackageFiles(p) else StagedFiles(p))
  }

  /** Behind a marked claim, everything works. */
  predicate Publishes(plan: Plan) {
    Succeeds(plan, Marker) && Stages(plan) && Succeeds(plan, Rename) && Confirms(plan)
  }

  /** Behind a marked claim, a step before the publication fails, and the claim is removed again. */
  predicate TakesBack(plan: Plan) {
    Succeeds(plan, Marker) && !(Stages(plan) && Succeeds(plan, Rename)) && CleansUp(plan)
  }

  class Destination {
    const hostile: bool
    const digest: File -> Print

    var dest: Option<Dir>
    /** The entries of the directory that are synced, and whether its own name is. */
    var durable: set<Name>
    var anchored: bool
    var nextToken: Token

    /** Every state so far, in order. */
    ghost var seen: seq<Snap>
    /** All of them were whole. */
    ghost var whole: bool
    /** An outsider changed the destination. */
    ghost var tampered: bool
    /** A manifest rename took effect but reported a failure. */
    ghost var lateRename: bool
    /** A removal hit a directory that did not carry the remover's marker. */
    ghost var hitForeign: bool
    /** An outsider changed the destination between the last ownership check and the removal. */
    ghost var swapped: bool

    ghost function Now(): Snap
      reads this
    {
      Snap(dest, durable)
    }

    /** What a state has become when the given step is taken. */
    ghost function After(plan: Plan, step: Step, s: Snap): Snap {
      if hostile && plan.outsider(step).Some? then plan.outsider(step).value else s
    }

    /** The states so far, with what the outsider does before the given step. */
    ghost function Seeing(plan: Plan, step: Step, states: seq<Snap>): seq<Snap> {
      if hostile && plan.outsider(step).Some? then states + [plan.outsider(step).value] else states
    }

    /** Each file, in the state it is read in when the reading starts from `s`, has its fingerprint. */
    ghost predicate FilesPass(plan: Plan, visible: bool, s: Snap, e: Prints) {
      var second := After(plan, ReadStep(visible, Optimizer), s);
      var third := After(plan, ReadStep(visible, Manifest), second);
      && FileIs(s, Adapter, digest, e.adapter) && FileIs(second, Optimizer, digest, e.optimizer)
      && FileIs(third, if visible then Manifest else Temp, digest, e.manifest)
    }

    ghost predicate Valid()
      reads this
    {
      && seen != [] && seen[|seen| - 1] == Now()
      && (!tampered && !lateRename ==> whole && Whole(Now()))
      && (hitForeign ==> swapped) && (swapped ==> tampered) && (tampered ==> hostile)
      && (!tampered && dest.Some? && dest.value.owner.Some? ==> dest.value.owner.value < nextToken)
    }

    constructor (hostile: bool, digest: File -> Print)
      ensures Valid() && dest.None? && this.hostile == hostile && this.digest == digest
      ensures !tampered && !lateRename && !hitForeign && seen == [Snap(None, {})]
    {
      this.hostile, this.digest := hostile, digest;
      dest, durable, anchored, nextToken := None, {}, false, 0;
      tampered, lateRename, hitForeign, swapped := false, false, false, false;
      seen, whole := [Snap(None, {})], true;
    }

    // Primitive steps.

    /** Whatever an outsider does before the given step. */
    method Interfere(plan: Plan, step: Step) returns (changed: bool)
      requires Valid()
      modifies this`dest, this`durable, this`tampered, this`seen, this`whole
      ensures Valid() && old(seen) <= seen
      ensures changed <==> hostile && plan.outsider(step).Some?
      ensures Now() == After(plan, step, old(Now()))
      ensures !changed ==> seen == old(seen) && tampered == old(tampered)
      ensures changed ==> tampered && seen == old(seen) + [Now()]
    {
      changed := hostile && plan.outsider(step).Some?;
      if changed {
        var now := plan.outsider(step).value;
        dest, durable, tampered := now.dest, now.durable, true;
        seen, whole := seen + [Now()], whole && Whole(Now());
      }
    }

    /** Claim an absent destination; an existing one is never touched. */
    method CreateDir(plan: Plan) returns (ok: bool)
      requires Valid()
      modifies this`dest, this`durable, this`anchored, this`seen, this`whole
      ensures Valid() && old(seen) <= seen
      ensures ok <==> old(dest).None? && plan.fate(Create).Works?
      ensures if old(dest).None? && !plan.fate(Create).Fails? then
                dest == Some(Dir(None, map[])) && durable == {}
              else
                dest == old(dest) && durable == old(durable) && anchored == old(anchored) && seen == old(seen)
    {
      ok := dest.None? && plan.fate(Create).Works?;
      if dest.None? && !plan.fate(Create).Fails? {
        dest, durable, anchored := Some(Dir(None, map[])), {}, false;
        seen, whole := seen + [Now()], whole && Whole(Now());
      }
    }

    method CreateMarker(plan: Plan, token: Token) returns (ok: bool)
      requires Valid() && token < nextToken
      modifies this`dest, this`seen, this`whole
      ensures Valid() && old(seen) <= seen
      ensures ok <==> old(dest).Some? && old(dest).value.owner.None? && plan.fate(Marker).Works?
      ensures if old(dest).Some? && old(dest).value.owner.None? && !plan.fate(Marker).Fails? then
                dest == Some(old(dest).value.(owner := Some(token)))
              else
                dest == old(dest)
    {
      var free := dest.Some? && dest.value.owner.None?;
      ok := free && plan.fate(Marker).Works?;
      if free && !plan.fate(Marker).Fails? {
        dest := Some(dest.value.(owner := Some(token)));
        seen, whole := seen + [Now()], whole && Whole(Now());
      }
    }

    method SyncDir(plan: Plan, step: Step) returns (ok: bool)
      requires Valid()
      modifies this`durable, this`seen, this`whole
      ensures Valid() && old(seen) <= seen && old(durable) <= durable
      ensures ok <==> plan.fate(step).Works? && dest.Some?
      ensures ok ==> durable == old(durable) + dest.value.files.Keys
      ensures !ok ==> durable == old(durable)
    {
      ok := plan.fate(step).Works? && dest.Some?;
      if ok {
        durable := durable + dest.value.files.Keys;
        seen, whole := seen + [Now()], whole && Whole(Now());
      }
    }

    method SyncParent(plan: Plan, step: Step) returns (ok: bool)
      requires Valid()
      modifies this`anchored
      ensures Valid()
      ensures (ok <==> plan.fate(step).Works?) && (anchored <==> old(anchored) || ok)
    {
      ok := plan.fate(step).Works?;
      anchored := anchored || ok;
    }

    /** Write and sync one new file; a failed write may leave anything under the name. */
    method WriteFile(plan: Plan, name: Name, f: File) returns (ok: bool)
      requires Valid() && name != Manifest
      modifies this`dest, this`seen, this`whole
      ensures Valid() && old(seen) <= seen
      ensures ok <==> old(dest).Some? && plan.fate(Put(name)).Works?
      ensures ok ==> dest == Some(old(dest).value.(files := old(dest).value.files[name := f]))
      ensures dest.Some? <==> old(dest).Some?
      ensures dest.Some? ==> dest.value.owner == old(dest).value.owner
      ensures dest.Some? ==> (Manifest in dest.value.files <==> Manifest in old(dest).value.files)
    {
      ok := dest.Some? && plan.fate(Put(name)).Works?;
      if dest.Some? && !plan.fate(Put(name)).Fails? {
        var written := if ok then f else plan.garbage(name);
        dest := Some(dest.value.(files := dest.value.files[name := written]));
        seen, whole := seen + [Now()], whole && Whole(Now());
      }
    }

    /** The commit: rename the temporary manifest into place. */
    method RenameManifest(plan: Plan) returns (ok: bool)
      requires Valid()
      requires tampered || (dest.Some? && HasPayload(dest.value) && {Adapter, Optimizer} <= durable)
      modifies this`dest, this`lateRename, this`seen, this`whole
      ensures Valid() && old(seen) <= seen
      ensures ok <==> old(dest).Some? && Temp in old(dest).value.files && plan.fate(Rename).Works?
      ensures if old(dest).Some? && Temp in old(dest).value.files && !plan.fate(Rename).Fails? then
                && lateRename == (old(lateRename) || !ok)
                && var files := (old(dest).value.files - {Temp})[Manifest := old(dest).value.files[Temp]];
                   dest == Some(old(dest).value.(files := files))
              else
                dest == old(dest) && lateRename == old(lateRename)
    {
      var there := dest.Some? && Temp in dest.value.files;
      ok := there && plan.fate(Rename).Works?;
      if there && !plan.fate(Rename).Fails? {
        lateRename := lateRename || !ok;
        var files := (dest.value.files - {Temp})[Manifest := dest.value.files[Temp]];
        dest := Some(dest.value.(files := files));
        seen, whole := seen + [Now()], whole && Whole(Now());
      }
    }

    /** Read the marker; nothing can be said when it cannot be read. */
    method Matches(plan: Plan, step: Step, token: Token) returns (m: Option<bool>)
      ensures m.Some? <==> plan.fate(step).Works? && dest.Some? && dest.value.owner.Some?
      ensures m.Some? ==> (m.value <==> Owned(Now(), token))
    {
      if !plan.fate(step).Works? || dest.None? || dest.value.owner.None? {
        return None;
      }
      m := Some(dest.value.owner.value == token);
    }

    /** Remove the directory; a failure may leave any part of it. */
    method RemoveAll(plan: Plan, token: Token) returns (ok: bool)
      requires Valid()
      requires swapped || dest.None? || dest.value.owner == Some(token)
      requires !tampered && !lateRename && dest.Some? ==> Manifest !in dest.value.files
      modifies this`dest, this`hitForeign, this`seen, this`whole
      ensures Valid() && old(seen) <= seen
      ensures ok <==> old(dest).None? || plan.fate(Remove).Works?
      ensures dest == if old(dest).None? then None else AfterRemoval(old(dest).value, plan)
    {
      if dest.None? {
        return true;
      }
      hitForeign := hitForeign || dest.value.owner != Some(token);
      ok := plan.fate(Remove).Works?;
      dest := AfterRemoval(dest.value, plan);
      seen, whole := seen + [Now()], whole && Whole(Now());
    }

    /** Fingerprint one file. */
    method ReadFile(plan: Plan, step: Step, name: Name) returns (p: Option<Print>)
      ensures p.Some? <==> plan.fate(step).Works? && dest.Some? && name in dest.value.files
      ensures p.Some? ==> FileIs(Now(), name, digest, p.value)
    {
      if !plan.fate(step).Works? || dest.None? || name !in dest.value.files {
        return None;
      }
      p := Some(digest(dest.value.files[name]));
    }

    /** Fingerprint the three files one after the other, with outsiders in between. */
    method Fingerprint(plan: Plan, visible: bool) returns (p: Option<Prints>, ghost at: Reads)
      requires Valid()
      modifies this`dest, this`durable, this`tampered, this`seen, this`whole
      ensures Valid() && old(seen) <= seen && (old(tampered) ==> tampered)
      ensures !tampered || !hostile ==> seen == old(seen)
      ensures seen == old(seen) ==> dest == old(dest) && durable == old(durable) && tampered == old(tampered)
      ensures var manifest := if visible then Manifest else Temp;
              && (p.Some? ==> FilesHeld(seen, |old(seen)| - 1, at, manifest, digest, p.value))
              && (seen == old(seen) ==>
                    && (p.Some? ==> FilesAre(Now(), manifest, digest, p.value))
                    && (p.Some? <==> && dest.Some? && HasPayload(dest.value) && manifest in dest.value.files
                                     && ReadsWork(plan, visible)))
      ensures p.Some? ==> ReadsWork(plan, visible)
      ensures ReadsWork(plan, visible) ==>
                forall e :: p == Some(e) <==> FilesPass(plan, visible, old(Now()), e)
      ensures p.Some? ==>
                seen == Seeing(plan, ReadStep(visible, Manifest), Seeing(plan, ReadStep(visible, Optimizer), old(seen)))
    {
      var manifest := if visible then Manifest else Temp;
      at := Reads(|seen| - 1, |seen| - 1, |seen| - 1, |seen| - 1);
      var adapter := ReadFile(plan, ReadStep(visible, Adapter), Adapter);
      if adapter.None? {
        return None, at;
      }
      assert FileIs(seen[at.adapter], Adapter, digest, adapter.value);
      var changed := Interfere(plan, ReadStep(visible, Optimizer));
      assert FileIs(seen[at.adapter], Adapter, digest, adapter.value);
      var optimizer := ReadFile(plan, ReadStep(visible, Optimizer), Optimizer);
      if optimizer.None? {
        return None, at;
      }
      at := at.(optimizer := |seen| - 1);
      assert FileIs(seen[at.optimizer], Optimizer, digest, optimizer.value);
      changed := Interfere(plan, ReadStep(visible, Manifest));
      assert FileIs(seen[at.adapter], Adapter, digest, adapter.value);
      assert FileIs(seen[at.optimizer], Optimizer, digest, optimizer.value);
      var last := ReadFile(plan, ReadStep(visible, Manifest), manifest);
      if last.None? {
        return None, at;
      }
      at := at.(manifest := |seen| - 1);
      p := Some(Prints(adapter.value, optimizer.value, last.value));
    }

    // The protocol.

    /** Undo a claim that was not committed, but only while the marker still proves ownership. */
    method CleanupUncommittedClaim(plan: Plan, token: Token) returns (r: Reply)
      requires Valid()
      requires !tampered && !lateRename && dest.Some? ==> Manifest !in dest.value.files
      modifies this`dest, this`durable, this`anchored, this`tampered, this`seen, this`whole
      modifies this`hitForeign, this`swapped
      ensures Valid() && old(seen) <= seen && (old(tampered) ==> tampered)
      ensures r == Plain || r == Ambiguous
      ensures r == Plain && !tampered ==> dest.None?
      ensures !tampered && Owned(old(Now()), token) ==> (r, dest) == Undone(old(dest).value, plan)
      ensures !Owned(old(Now()), token) ==> r == Ambiguous && dest == old(dest)
    {
      var mine := Matches(plan, CleanupMarker, token);
      if mine.None? || !mine.value {
        return Ambiguous;
      }
      var changed := Interfere(plan, Remove);
      swapped := swapped || changed;
      var removed := RemoveAll(plan, token);
      if !removed {
        return Ambiguous;
      }
      changed := Interfere(plan, RemovalSync);
      var synced := SyncParent(plan, RemovalSync);
      r := if synced then Plain else Ambiguous;
    }

    /** Anchor the claim, its marker and its name, before anything is written behind it. */
    method AnchorClaim(plan: Plan, token: Token) returns (ok: bool)
      requires Valid() && (tampered || dest == Some(Dir(Some(token), map[])))
      modifies this`dest, this`durable, this`anchored, this`tampered, this`seen, this`whole
      ensures Valid() && old(seen) <= seen && (old(tampered) ==> tampered)
      ensures !tampered ==> dest == old(dest)
      ensures !tampered ==> (ok <==> Anchors(plan))
    {
      var changed := Interfere(plan, ClaimSync);
      ok := SyncDir(plan, ClaimSync);
      if ok {
        changed := Interfere(plan, ClaimParentSync);
        ok := SyncParent(plan, ClaimParentSync);
      }
    }

    /** Fingerprint what has been written and make its names durable. */
    method SealPayload(plan: Plan, token: Token, p: Package) returns (expected: Option<Prints>)
      requires Valid() && (tampered || dest == Some(Dir(Some(token), StagedFiles(p))))
      modifies this`dest, this`durable, this`tampered, this`seen, this`whole
      ensures Valid() && old(seen) <= seen && (old(tampered) ==> tampered)
      ensures !tampered ==> dest == old(dest)
      ensures !tampered ==> (expected.Some? <==> Seals(plan))
      ensures expected.Some? && !tampered ==> {Adapter, Optimizer} <= durable && expected.value == PrintsOf(digest, p)
    {
      var prints, at := Fingerprint(plan, false);
      expected := prints;
      if expected.Some? {
        var changed := Interfere(plan, PayloadSync);
        var ok := SyncDir(plan, PayloadSync);
        if !ok {
          return None;
        }
        changed := Interfere(plan, Rename);
      }
    }

    /** Write the payload, fingerprint it and sync it, all before the manifest can become visible. */
    method WriteBehindClaim(plan: Plan, token: Token, p: Package) returns (expected: Option<Prints>)
      requires Valid() && (tampered || dest == Some(Dir(Some(token), map[])))
      modifies this`dest, this`durable, this`anchored, this`tampered, this`seen, this`whole
      ensures Valid() && old(seen) <= seen && (old(tampered) ==> tampered)
      ensures !tampered ==> dest.Some? && dest.value.owner == Some(token) && Manifest !in dest.value.files
      ensures !tampered ==> (expected.Some? <==> Stages(plan))
      ensures expected.Some? && !tampered ==>
                && dest == Some(Dir(Some(token), StagedFiles(p))) && {Adapter, Optimizer} <= durable
                && expected.value == PrintsOf(digest, p)
    {
      var ok := AnchorClaim(plan, token);
      if ok {
        ok := WritePayload(plan, token, p);
      }
      if ok {
        expected := SealPayload(plan, token, p);
      } else {
        expected := None;
      }
    }

    /** The adapter, the optimizer moments and, last, the manifest under its temporary name. */
    method WritePayload(plan: Plan, token: Token, p: Package) returns (ok: bool)
      requires Valid() && (tampered || dest == Some(Dir(Some(token), map[])))
      modifies this`dest, this`durable, this`tampered, this`seen, this`whole
      ensures Valid() && old(seen) <= seen && (old(tampered) ==> tampered)
      ensures !tampered ==> dest.Some? && dest.value.owner == Some(token) && Manifest !in dest.value.files
      ensures !tampered ==> (ok <==> Writes(plan))
      ensures ok && !tampered ==> dest == Some(Dir(Some(token), StagedFiles(p)))
    {
      var changed := Interfere(plan, Put(Adapter));
      ok := WriteFile(plan, Adapter, p.adapter);
      if !ok { return; }
      changed := Interfere(plan, Put(Optimizer));
      ok := WriteFile(plan, Optimizer, p.optimizer);
      if !ok { return; }
      changed := Interfere(plan, Put(Temp));
      ok := WriteFile(plan, Temp, p.manifest);
      if !ok { return; }
      changed := Interfere(plan, ReadBack(Adapter));
    }

    /** Both fences of a published package. */
    method Fence(plan: Plan, again: bool) returns (ok: bool)
      requires Valid()
      modifies this`dest, this`durable, this`anchored, this`tampered, this`seen, this`whole
      ensures Valid() && old(seen) <= seen && (old(tampered) ==> tampered)
      ensures !tampered ==> dest == old(dest) && old(durable) <= durable
      ensures !tampered && dest.Some? ==> (ok <==> FencesAt(plan, again))
      ensures ok && !tampered ==> dest.Some? && dest.value.files.Keys <= durable && anchored
    {
      ok := SyncDir(plan, FenceSync(again));
      if ok {
        var changed := Interfere(plan, FenceParentSync(again));
        ok := SyncParent(plan, FenceParentSync(again));
      }
    }

    /**
     The marker and then each of the three visible files are read, with outsiders in between. Success means
     that each was what was published when it was read; if nothing changed meanwhile, it means that all of
     them are now, and failure that a read failed or one of them is not.
     */
    method VerifyVisibleOwnedPackage(plan: Plan, token: Token, expected: Prints) returns (r: Reply, ghost at: Reads)
      requires Valid()
      modifies this`dest, this`durable, this`tampered, this`seen, this`whole
      ensures Valid() && old(seen) <= seen && (old(tampered) ==> tampered)
      ensures r == Saved || r == Ambiguous
      ensures r == Saved ==> HeldWhenRead(seen, |old(seen)| - 1, at, token, digest, expected)
      ensures !tampered ==> seen == old(seen)
      ensures seen == old(seen) ==>
                && dest == old(dest) && durable == old(durable) && tampered == old(tampered)
                && (r == Saved <==> && Published(Now(), token, digest, expected)
                                    && plan.fate(VisibleMarker).Works? && ReadsWork(plan, true))
      ensures r == Saved <==> && plan.fate(VisibleMarker).Works? && ReadsWork(plan, true) && Owned(old(Now()), token)
                              && FilesPass(plan, true, After(plan, ReadVisible(Adapter), old(Now())), expected)
      ensures r == Saved ==>
                seen == Seeing(plan, ReadVisible(Manifest),
                               Seeing(plan, ReadVisible(Optimizer), Seeing(plan, ReadVisible(Adapter), old(seen))))
    {
      at := Reads(0, 0, 0, 0);
      var mine := Matches(plan, VisibleMarker, token);
      if mine.None? || !mine.value {
        return Ambiguous, at;
      }
      at := at.(marker := |seen| - 1);
      var changed := Interfere(plan, ReadVisible(Adapter));
      var visible, files := Fingerprint(plan, true);
      at := files.(marker := at.marker);
      r := if visible == Some(expected) then Saved else Ambiguous;
    }

    /** Fence what has been published, once again if that fails. */
    method FenceTwice(plan: Plan) returns (ok: bool)
      requires Valid()
      modifies this`dest, this`durable, this`anchored, this`tampered, this`seen, this`whole
      ensures Valid() && old(seen) <= seen && (old(tampered) ==> tampered)
      ensures !tampered ==> dest == old(dest) && old(durable) <= durable
      ensures !tampered && dest.Some? ==> (ok <==> FencesAt(plan, false) || FencesAt(plan, true))
      ensures ok && !tampered ==> dest.Some? && dest.value.files.Keys <= durable && anchored
    {
      ok := Fence(plan, false);
      if !ok {
        var changed := Interfere(plan, FenceSync(true));
        ok := Fence(plan, true);
      }
    }

    /** After the manifest rename: fence and verify what is visible. */
    method Confirm(plan: Plan, token: Token, expected: Prints) returns (r: Reply, ghost at: Reads)
      requires Valid()
      modifies this`dest, this`durable, this`anchored, this`tampered, this`seen, this`whole
      ensures Valid() && old(seen) <= seen && (old(tampered) ==> tampered)
      ensures r == Saved || r == Ambiguous
      ensures r == Saved ==> HeldWhenRead(seen, |old(seen)| - 1, at, token, digest, expected)
      ensures !tampered ==> dest == old(dest)
      ensures !tampered && Published(old(Now()), token, digest, expected) ==> (r == Saved <==> Confirms(plan))
      ensures r == Saved && !tampered ==>
                Published(Now(), token, digest, expected) && dest.value.files.Keys <= durable && anchored
    {
      at := Reads(0, 0, 0, 0);
      var changed := Interfere(plan, FenceSync(false));
      var fenced := FenceTwice(plan);
      if !fenced {
        return Ambiguous, at;
      }
      changed := Interfere(plan, VisibleMarker);
      r, at := VerifyVisibleOwnedPackage(plan, token, expected);
    }

    /** From the manifest rename on. */
    method Commit(plan: Plan, token: Token, p: Package, expected: Prints) returns (r: Reply, ghost at: Reads)
      requires Valid()
      requires tampered || (dest == Some(Dir(Some(token), StagedFiles(p))) && {Adapter, Optimizer} <= durable)
      modifies this`dest, this`durable, this`anchored, this`tampered, this`seen, this`whole
      modifies this`lateRename, this`hitForeign, this`swapped
      ensures Valid() && old(seen) <= seen && (old(tampered) ==> tampered)
      ensures !tampered && expected == PrintsOf(digest, p) ==>
                (r == Saved <==> Succeeds(plan, Rename) && Confirms(plan))
      ensures r == Saved ==> HeldWhenRead(seen, |old(seen)| - 1, at, token, digest, expected)
      ensures r == Saved && !tampered ==>
                && dest == Some(Dir(Some(token), PackageFiles(p))) && {Adapter, Optimizer, Manifest} <= durable
                && anchored && expected == PrintsOf(digest, p)
      ensures r == Plain && !tampered ==> dest.None?
      ensures !tampered ==> lateRename == (old(lateRename) || plan.fate(Rename).Late?)
      ensures !tampered && Succeeds(plan, Rename) ==> r != Plain && dest == Some(Dir(Some(token), PackageFiles(p)))
      ensures !tampered && !Succeeds(plan, Rename) ==> (r, dest) == Undone(Unpublished(p, token, plan), plan)
    {
      at := Reads(0, 0, 0, 0);
      var renamed := RenameManifest(plan);
      RenamedFiles(p);
      if renamed {
        r, at := Confirm(plan, token, expected);
      } else {
        var changed := Interfere(plan, CleanupMarker);
        r := CleanupUncommittedClaim(plan, token);
      }
    }

    /** Behind the claim: marker, payload, commit. */
    method SaveBehindClaim(plan: Plan, p: Package, token: Token)
      returns (r: Reply, expected: Prints, ghost at: Reads)
      requires Valid() && (tampered || dest == Some(Dir(None, map[]))) && token < nextToken
      modifies this`dest, this`durable, this`anchored, this`tampered, this`seen, this`whole
      modifies this`lateRename, this`hitForeign, this`swapped
      ensures Valid() && old(seen) <= seen && (old(tampered) ==> tampered)
      ensures r == Saved ==> HeldWhenRead(seen, |old(seen)| - 1, at, token, digest, expected)
      ensures r == Saved && !tampered ==>
                && dest == Some(Dir(Some(token), PackageFiles(p))) && {Adapter, Optimizer, Manifest} <= durable
                && anchored && expected == PrintsOf(digest, p)
      ensures r == Plain && !tampered ==> dest.None?
      ensures !tampered ==> (r == Saved <==> Publishes(plan)) && (r == Plain <==> TakesBack(plan))
      ensures !tampered && Succeeds(plan, Marker) && Stages(plan) ==>
                if Succeeds(plan, Rename) then dest == Some(Dir(Some(token), PackageFiles(p)))
                else (r, dest) == Undone(Unpublished(p, token, plan), plan)
      ensures !tampered && Succeeds(plan, Marker) && Stages(plan) && plan.fate(Rename).Late? ==> lateRename
      ensures lateRename && !tampered ==> old(lateRename) || plan.fate(Rename).Late?
      ensures !tampered && Succeeds(plan, Marker) && !Stages(plan) && Removes(plan) ==> dest.None?
    {
      at := Reads(0, 0, 0, 0);
      expected := PrintsOf(digest, p);
      var marked := CreateMarker(plan, token);
      if !marked {
        return Ambiguous, expected, at;
      }
      var prints := WriteBehindClaim(plan, token, p);
      if prints.None? {
        var changed := Interfere(plan, CleanupMarker);
        r := CleanupUncommittedClaim(plan, token);
        return r, expected, at;
      }
      expected := prints.value;
      r, at := Commit(plan, token, p, expected);
    }

    /**
     One writer. Success means that its marker and its fingerprinted files were each visible when they were
     verified, and without an outsider that exactly its files are, durably. An existing destination is
     refused unchanged. A plain error leaves nothing of this writer behind, except that a claim that took
     effect but reported a failure leaves its empty directory; anything else is ambiguous.
     */
    method SaveNoReplace(plan: Plan, p: Package)
      returns (r: Reply, ghost token: Token, ghost expected: Prints, ghost at: Reads)
      requires Valid()
      modifies this
      ensures Valid() && old(seen) <= seen
      ensures old(dest).Some? ==>
                r == Plain && dest == old(dest) && durable == old(durable) && anchored == old(anchored)
      ensures r == Saved ==> HeldWhenRead(seen, |old(seen)| - 1, at, token, digest, expected)
      ensures r == Saved && !tampered ==>
                && dest == Some(Dir(Some(token), PackageFiles(p))) && {Adapter, Optimizer, Manifest} <= durable
                && anchored && expected == PrintsOf(digest, p)
      ensures r == Plain && !tampered ==>
                dest == if plan.fate(Create).Late? && old(dest).None? then Some(Dir(None, map[])) else old(dest)
      ensures old(dest).None? && plan.fate(Create).Late? ==> r == Plain && dest == Some(Dir(None, map[]))
      ensures old(dest).None? && !tampered ==>
                && (r == Saved <==> Succeeds(plan, Create) && Publishes(plan))
                && (r == Plain <==> !Succeeds(plan, Create) || TakesBack(plan))
      ensures old(dest).None? && !tampered && Succeeds(plan, Create) && Succeeds(plan, Marker) ==>
                if !Stages(plan) then
                  Removes(plan) ==> dest.None?
                else if Succeeds(plan, Rename) then
                  dest == Some(Dir(Some(token), PackageFiles(p)))
                else
                  (r, dest) == Undone(Unpublished(p, token, plan), plan) && (plan.fate(Rename).Late? ==> lateRename)
      ensures lateRename && !tampered ==> old(lateRename) || plan.fate(Rename).Late?
      ensures (old(tampered) ==> tampered) && (!hostile ==> tampered == old(tampered))
    {
      at := Reads(0, 0, 0, 0);
      token := nextToken;
      expected := PrintsOf(digest, p);
      var created := CreateDir(plan);
      if !created {
        return Plain, token, expected, at;
      }
      var mine := nextToken;
      nextToken := nextToken + 1;
      var changed := Interfere(plan, Marker);
      var prints;
      r, prints, at := SaveBehindClaim(plan, p, mine);
      expected := prints;
    }

    /** What one writer among others needs to know. */
    method SaveAlone(plan: Plan, p: Package) returns (r: Reply)
      requires Valid() && !hostile
      modifies this
      ensures Valid()
      ensures old(dest).Some? ==> r == Plain && dest == old(dest)
      ensures r == Saved ==> dest.Some? && dest.value.files == PackageFiles(p)
    {
      ghost var token, expected, at;
      r, token, expected, at := SaveNoReplace(plan, p);
    }

    /**
     Any number of coordinated writers, one after the other and without outsiders: at most one of them
     succeeds, and from then on its package stays.
     */
    method RunWriters(plans: seq<Plan>, packages: seq<Package>) returns (log: seq<Reply>)
      requires Valid() && !hostile && |plans| == |packages|
      modifies this
      ensures Valid() && |log| == |packages|
      ensures forall i, j :: 0 <= i < j < |log| ==> !(log[i] == Saved && log[j] == Saved)
      ensures forall i :: 0 <= i < |log| && log[i] == Saved ==>
                dest.Some? && dest.value.files == PackageFiles(packages[i])
      ensures old(dest).Some? ==> dest == old(dest) && forall i :: 0 <= i < |log| ==> log[i] == Plain
    {
      log := [];
      for n := 0 to |packages|
        invariant Valid() && |log| == n
        invariant forall i, j :: 0 <= i < j < n ==> !(log[i] == Saved && log[j] == Saved)
        invariant forall i :: 0 <= i < n && log[i] == Saved ==>
                    dest.Some? && dest.value.files == PackageFiles(packages[i])
        invariant old(dest).Some? ==> dest == old(dest) && forall i :: 0 <= i < n ==> log[i] == Plain
      {
        var r := SaveAlone(plans[n], packages[n]);
        log := log + [r];
      }
    }
  }

  // ---------------------------------------------------------------------------
  // Steps that take effect and report a failure
  // ---------------------------------------------------------------------------

  /** Everything works but the given steps, which take effect and report a failure. */
  function LateAt(late: set<Step>, garbage: Name -> File, debris: Debris): Plan {
    Plan(s => if s in late then Late else Works, garbage, debris, s => None)
  }

  /** A claim that fails after taking effect is a plain error beside an empty directory nobody owns. */
  method EmptyClaimStays(p: Package, digest: File -> Print, garbage: Name -> File)
    returns (d: Destination, r: Reply)
    ensures r == Plain && d.dest == Some(Dir(None, map[]))
  {
    d := new Destination(false, digest);
    ghost var token, expected, at;
    r, token, expected, at := d.SaveNoReplace(LateAt({Create}, garbage, Nothing), p);
  }

  /** A manifest rename that fails after taking effect: the visible package is removed with a plain error. */
  method VisiblePackageRemoved(p: Package, digest: File -> Print, garbage: Name -> File)
    returns (d: Destination, r: Reply)
    ensures r == Plain && d.dest.None? && d.lateRename
  {
    d := new Destination(false, digest);
    ghost var token, expected, at;
    r, token, expected, at := d.SaveNoReplace(LateAt({Rename}, garbage, Nothing), p);
  }

  /** If that removal stops half way, the manifest can stay visible without its payload. */
  method ManifestWithoutPayload(p: Package, digest: File -> Print, garbage: Name -> File)
    returns (d: Destination, r: Reply)
    ensures r == Ambiguous && d.dest.Some? && d.dest.value.files == map[Manifest := p.manifest] && d.lateRename
  {
    d := new Destination(false, digest);
    ghost var token, expected, at;
    var plan := LateAt({Rename, Remove}, garbage, Remnant({Adapter, Optimizer}, false));
    r, token, expected, at := d.SaveNoReplace(plan, p);
  }

  /**
   A verification that passes although no state of the destination ever matched: the outsider shows the
   writer's marker beside another adapter until the marker has been read, and then somebody else's directory
   with the right files.
   */
  method PiecesPassVerification(token: Token, other: File, p: Package, digest: File -> Print, garbage: Name -> File)
    returns (d: Destination, r: Reply, ghost at: Reads)
    requires digest(other) != digest(p.adapter)
    ensures r == Saved && forall s :: s in d.seen ==> !Published(s, token, digest, PrintsOf(digest, p))
  {
    var mine := Snap(Some(Dir(Some(token), PackageFiles(p)[Adapter := other])), {});
    var foreign := Snap(Some(Dir(None, PackageFiles(p))), {});
    var moves := map[VisibleMarker := mine, ReadVisible(Adapter) := foreign];
    var plan := Plan(s => Works, garbage, Nothing, s => if s in moves then Some(moves[s]) else None);
    d := new Destination(true, digest);
    var changed := d.Interfere(plan, VisibleMarker);
    r, at := d.VerifyVisibleOwnedPackage(plan, token, PrintsOf(digest, p));
    assert d.seen == [Snap(None, {}), mine, foreign];
  }
}
