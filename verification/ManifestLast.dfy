/**
 Publishing an artifact with its manifest last (`crates/ferrl/src/artifact.rs`): an exclusive claim of
 the output directory, a private stage, and hard links into the output whose order and syncs make a
 visible manifest mean a complete, durable package.

 Directory entries become durable when their directory is synced; a crash keeps any subset of the
 others. How every step of a call ends is an argument of the call: operations may fail without effect or
 after taking effect.
 */
module ManifestLast {
  import opened Common

  type Data(==, !new)

  /** A path in the output: a file at the top or in one directory below it. */
  datatype Rel = Rel(dir: string, name: string)

  /** What a staged file holds: a failed write leaves part of the data, or all of it but unsynced. */
  datatype Content = Partial | Unsynced(data: Data) | Whole(data: Data)

  /** The output directory: its visible links and subdirectories, and which entries are synced. */
  datatype Tree = Tree(links: map<Rel, Content>, dirs: set<string>, durable: set<Rel>, durableDirs: set<string>)

  datatype Outcome = Done | Failed | Indeterminate

  /** The steps of one call, each taken at most once. */
  datatype Step =
    | ClaimDir | ClaimRest | StageOwner | Write(r: Rel) | PublishOwner
    | SyncStaged(k: nat) | CreateDir(k: nat) | SyncStage | LinkOwner(k: nat) | LinkOf(r: Rel) | SyncOutput(dir: string)
    | SyncParent | CommitOwner | SyncManifest

  /** How each step ends. */
  type Plan = Step -> Fate

  function DirsOf(order: seq<Rel>): set<string> {
    set k | 0 <= k < |order| && order[k].dir != "" :: order[k].dir
  }

  /** Every subdirectory is made, after the sync of its staged counterpart. */
  ghost predicate MakesDirs(plan: Plan, order: seq<Rel>) {
    forall k :: 0 <= k < |order| && order[k].dir != "" ==> plan(SyncStaged(k)).Works? && plan(CreateDir(k)).Works?
  }

  /** Every file but the manifest is linked, each after a check of the claim. */
  ghost predicate LinksAll(plan: Plan, order: seq<Rel>, manifest: Rel) {
    forall k :: 0 <= k < |order| && order[k] != manifest ==>
      plan(LinkOwner(k)).Works? && plan(LinkOf(order[k])).Works?
  }

  /** Every subdirectory, the output itself and the directory it is in are synced. */
  ghost predicate SyncsAll(plan: Plan, dirs: set<string>) {
    && (forall dir :: dir in dirs ==> plan(SyncOutput(dir)).Works?)
    && plan(SyncOutput("")).Works? && plan(SyncParent).Works?
  }

  /** Everything that comes before the manifest link. */
  ghost predicate Prepares(plan: Plan, order: seq<Rel>, manifest: Rel) {
    && MakesDirs(plan, order) && plan(SyncStage).Works? && LinksAll(plan, order, manifest)
    && SyncsAll(plan, DirsOf(order)) && plan(CommitOwner).Works?
  }

  /** The files and the manifest are staged. */
  ghost predicate StagesAll(plan: Plan, files: seq<(string, Data)>, manifest: Rel) {
    && (forall k :: 0 <= k < |files| ==> plan(Write(Rel("", files[k].0))).Works?)
    && plan(Write(manifest)).Works?
  }

  // ---------------------------------------------------------------------------
  // What a visible manifest means
  // ---------------------------------------------------------------------------

  predicate Reaches(dirs: set<string>, r: Rel) {
    r.dir == "" || r.dir in dirs
  }

  ghost predicate Sound(t: Tree) {
    && (forall r :: r in t.durable ==> r in t.links) && t.durableDirs <= t.dirs
    && (forall r :: r in t.links ==> Reaches(t.dirs, r))
  }

  /** The promised files are linked with their content, and no crash can take them away. */
  ghost predicate Holds(t: Tree, promised: map<Rel, Content>) {
    forall r :: r in promised ==>
      r in t.links && t.links[r] == promised[r] && r in t.durable && Reaches(t.durableDirs, r)
  }

  /** A visible manifest implies every promised file. */
  ghost predicate Committed(t: Tree, manifest: Rel, promised: map<Rel, Content>) {
    manifest in t.links ==> Holds(t, promised)
  }

  /** What a crash may make of a file: unsynced data may be lost. */
  predicate Remains(was: Content, now: Content) {
    now == was || (was.Unsynced? && now.Partial?)
  }

  /** What a crash may leave: every synced entry that is still reachable, and any of the others. */
  ghost predicate CrashOf(t: Tree, u: Tree) {
    && t.durableDirs <= u.dirs <= t.dirs
    && (forall r :: r in u.links ==> r in t.links && Remains(t.links[r], u.links[r]) && Reaches(u.dirs, r))
    && (forall r :: r in t.durable && Reaches(u.dirs, r) ==> r in u.links)
  }

  /** The files are visible, with their content as far as it was synced. */
  ghost predicate Carries(t: Tree, files: map<Rel, Content>) {
    forall r :: r in files ==> r in t.links && Remains(files[r], t.links[r])
  }

  /** After every crash a manifest that survived still comes with every promised file. */
  lemma CommitSurvivesCrash(t: Tree, u: Tree, manifest: Rel, promised: map<Rel, Content>)
    requires Sound(t) && Committed(t, manifest, promised) && CrashOf(t, u)
    requires manifest in u.links
    ensures Carries(u, promised)
  {
    forall r | r in promised
      ensures r in u.links && Remains(promised[r], u.links[r])
    {
      assert r in t.durable && Reaches(u.dirs, r);
    }
  }

  /** Whichever of these states a crash interrupts, a manifest that survives comes with all the files. */
  ghost predicate CrashComplete(seen: set<Tree>, manifest: Rel, files: map<Rel, Content>) {
    forall t, u :: t in seen && CrashOf(t, u) && manifest in u.links ==> Carries(u, files)
  }

  /** No crash takes any of the files away. */
  ghost predicate CrashProof(t: Tree, files: map<Rel, Content>) {
    forall u :: CrashOf(t, u) ==> Carries(u, files)
  }

  // ---------------------------------------------------------------------------
  // One output
  // ---------------------------------------------------------------------------

  predicate Distinct(order: seq<Rel>) {
    forall i, j :: 0 <= i < j < |order| ==> order[i] != order[j]
  }

  predicate NamesDiffer(files: seq<(string, Data)>, manifest: string) {
    && (forall i, j :: 0 <= i < j < |files| ==> files[i].0 != files[j].0)
    && (forall i :: 0 <= i < |files| ==> files[i].0 != manifest)
  }

  class ArtifactPublication {
    const manifest: Rel
    var claimed: bool
    var listed: set<Rel>
    var staged: map<Rel, Content>
    var tree: Tree

    /** What the manifest stood for when it was linked. */
    ghost var promised: map<Rel, Content>
    /** Every state the output has been in. */
    ghost var seen: set<Tree>

    ghost predicate Valid()
      reads this
    {
      && manifest.dir == "" && tree in seen && (forall t :: t in seen ==> Kept(t))
      && (!claimed ==> tree.links == map[] && staged == map[] && listed == {})
    }

    /** What holds of every state the output has been in. */
    ghost predicate Kept(t: Tree)
      reads this
    {
      && Sound(t) && Committed(t, manifest, promised) && (manifest in t.links ==> manifest in tree.links)
      && (forall r :: r in t.links ==> r in staged && t.links[r] == staged[r])
    }

    /** What has been listed, as staged. */
    ghost function Package(): map<Rel, Content>
      reads this
    {
      map r | r in listed && r in staged :: staged[r]
    }

    /** What the manifest stands for: every other listed file that is visible, as staged. */
    ghost function Others(): map<Rel, Content>
      reads this
    {
      map r | r in listed && r != manifest && r in tree.links && r in staged :: staged[r]
    }

    /** The manifest is visible only beside every other listed file, and stands for all of them. */
    ghost predicate Complete()
      reads this
    {
      manifest in tree.links ==> promised == Others() && forall r :: r in listed ==> r in tree.links
    }

    lemma PackageSurvives()
      requires Valid() && Complete()
      ensures CrashComplete(seen, manifest, Package())
      ensures manifest in tree.durable ==> CrashProof(tree, Package())
    {
      forall t, u | t in seen && CrashOf(t, u) && manifest in u.links
        ensures Carries(u, Package())
      {
        assert Kept(t);
        CommitSurvivesCrash(t, u, manifest, promised);
      }
    }

    constructor (name: string)
      ensures Valid() && !claimed && manifest == Rel("", name)
    {
      manifest := Rel("", name);
      claimed := false;
      listed := {};
      staged := map[];
      tree := Tree(map[], {}, {}, {});
      promised := map[];
      seen := {Tree(map[], {}, {}, {})};
    }

    /** Every path has been staged. */
    ghost predicate AllStaged(order: seq<Rel>)
      reads this
    {
      forall k :: 0 <= k < |order| ==> order[k] in staged
    }

    /** Sync one directory of the output. */
    method SyncFinal(plan: Plan, step: Step, dir: string) returns (ok: bool)
      requires Valid()
      modifies this`tree, this`seen
      ensures Valid() && old(seen) <= seen
      ensures ok <==> plan(step).Works?
      ensures tree.links == old(tree.links) && tree.dirs == old(tree.dirs)
      ensures old(tree.durable) <= tree.durable && old(tree.durableDirs) <= tree.durableDirs
      ensures ok ==> forall r :: r in tree.links && r.dir == dir ==> r in tree.durable
      ensures ok && dir == "" ==> tree.durableDirs == tree.dirs
    {
      ok := plan(step).Works?;
      if ok {
        var now := set r | r in tree.links && r.dir == dir;
        tree := tree.(durable := tree.durable + now, durableDirs := if dir == "" then tree.dirs else tree.durableDirs);
        seen := seen + {tree};
      }
    }

    method MakeDir(plan: Plan, step: Step, dir: string) returns (ok: bool)
      requires Valid()
      modifies this`tree, this`seen
      ensures Valid() && old(seen) <= seen
      ensures ok <==> plan(step).Works?
      ensures tree.links == old(tree.links)
      ensures tree.durable == old(tree.durable) && tree.durableDirs == old(tree.durableDirs)
      ensures tree.dirs == old(tree.dirs) + if plan(step).Fails? then {} else {dir}
    {
      ok := plan(step).Works?;
      if !plan(step).Fails? {
        tree := tree.(dirs := tree.dirs + {dir});
        seen := seen + {tree};
      }
    }

    /** Hard-link a staged file into the output; an existing name is never replaced. */
    method Link(plan: Plan, r: Rel) returns (ok: bool)
      requires Valid() && claimed && Reaches(tree.dirs, r)
      requires r == manifest && r !in tree.links ==> Holds(tree, promised)
      modifies this`tree, this`seen
      ensures Valid() && old(seen) <= seen
      ensures ok <==> r !in old(tree.links) && r in staged && plan(LinkOf(r)).Works?
      ensures tree.dirs == old(tree.dirs)
      ensures tree.durable == old(tree.durable) && tree.durableDirs == old(tree.durableDirs)
      ensures tree.links == if r !in old(tree.links) && r in staged && !plan(LinkOf(r)).Fails? then
                              old(tree.links)[r := staged[r]]
                            else
                              old(tree.links)
    {
      if r in tree.links || r !in staged {
        return false;
      }
      ok := plan(LinkOf(r)).Works?;
      if !plan(LinkOf(r)).Fails? {
        tree := tree.(links := tree.links[r := staged[r]]);
        seen := seen + {tree};
      }
    }

    /** Create a new file in the stage, write it and sync it; a failed write may leave part of it. */
    method WriteNewSynced(plan: Plan, r: Rel, data: Data) returns (ok: bool)
      requires Valid() && claimed
      modifies this`staged
      ensures Valid()
      ensures ok <==> r !in old(staged) && plan(Write(r)).Works?
      ensures ok ==> staged == old(staged)[r := Whole(data)]
      ensures !ok ==>
                || staged == old(staged)
                || (r !in old(staged) && r in staged && !staged[r].Whole? && staged == old(staged)[r := staged[r]])
    {
      if r in staged {
        return false;
      }
      ok := plan(Write(r)).Works?;
      var all := *;
      if !plan(Write(r)).Fails? {
        staged := staged[r := if ok then Whole(data) else if all then Unsynced(data) else Partial];
      }
    }

    /** Claim the output by creating its directory; whoever comes later fails and changes nothing. */
    method Claim(plan: Plan) returns (ok: bool)
      requires Valid()
      modifies this`claimed
      ensures Valid()
      ensures ok <==> !old(claimed) && plan(ClaimDir).Works? && plan(ClaimRest).Works?
      ensures claimed <==> old(claimed) || !plan(ClaimDir).Fails?
    {
      ok := !claimed && plan(ClaimDir).Works?;
      claimed := claimed || !plan(ClaimDir).Fails?;
      if ok {
        // Every later step of the claim, up to its syncs, may fail and leaves the claim in place.
        ok := plan(ClaimRest).Works?;
      }
    }

    /** Stage one file under a new valid path. The path stays taken even if the write fails. */
    method StageBytes(plan: Plan, r: Rel, data: Data) returns (ok: bool)
      requires Valid() && claimed
      modifies this`staged, this`listed
      ensures Valid()
      ensures ok <==> && (r.dir == "" || r.dir == "verification") && r.name != ""
                      && r !in old(listed) && r !in old(staged)
                      && plan(StageOwner).Works? && plan(Write(r)).Works?
      ensures ok ==> listed == old(listed) + {r} && staged == old(staged)[r := Whole(data)]
      ensures var named := plan(StageOwner).Works? && (r.dir == "" || r.dir == "verification") && r.name != "";
              listed == old(listed) + if named then {r} else {}
      ensures forall q :: q in old(staged) ==> q in staged && staged[q] == old(staged)[q]
    {
      if !plan(StageOwner).Works? {
        return false;
      }
      if r.name == "" || (r.dir != "" && r.dir != "verification") {
        return false;
      }
      if r in listed {
        return false;
      }
      listed := listed + {r};
      ok := WriteNewSynced(plan, r, data);
    }

    /** Create the subdirectories the staged paths need, syncing their staged counterparts. */
    method MakeDirs(plan: Plan, order: seq<Rel>) returns (ok: bool, made: set<string>)
      requires Valid()
      modifies this`tree, this`seen
      ensures Valid() && old(seen) <= seen
      ensures tree.links == old(tree.links)
      ensures ok <==> MakesDirs(plan, order)
      ensures ok ==> made == DirsOf(order) <= tree.dirs && forall k :: 0 <= k < |order| ==> Reaches(made, order[k])
    {
      ok, made := true, {};
      for k := 0 to |order|
        invariant Valid() && tree.links == old(tree.links) && old(seen) <= seen
        invariant MakesDirs(plan, order[..k]) && made == DirsOf(order[..k])
        invariant made <= tree.dirs && forall j :: 0 <= j < k ==> Reaches(made, order[j])
      {
        assert order[..k + 1] == order[..k] + [order[k]];
        if order[k].dir != "" {
          if !plan(SyncStaged(k)).Works? {
            return false, made;
          }
          var created := MakeDir(plan, CreateDir(k), order[k].dir);
          if !created {
            return false, made;
          }
          made := made + {order[k].dir};
        }
      }
      assert order[..|order|] == order;
    }

    /** Link everything but the manifest. */
    method LinkFiles(plan: Plan, order: seq<Rel>) returns (ok: bool)
      requires Valid() && claimed && forall k :: 0 <= k < |order| ==> Reaches(tree.dirs, order[k])
      modifies this`tree, this`seen
      ensures Valid() && old(seen) <= seen
      ensures Distinct(order) && old(tree.links) == map[] && AllStaged(order) ==>
                (ok <==> LinksAll(plan, order, manifest))
      ensures tree.dirs == old(tree.dirs)
      ensures manifest in tree.links <==> manifest in old(tree.links)
      ensures ok ==> forall k :: 0 <= k < |order| && order[k] != manifest ==> order[k] in tree.links
    {
      for k := 0 to |order|
        invariant Valid() && old(seen) <= seen
        invariant tree.dirs == old(tree.dirs)
        invariant manifest in tree.links <==> manifest in old(tree.links)
        invariant forall j :: 0 <= j < k && order[j] != manifest ==> order[j] in tree.links
        invariant old(tree.links) == map[] ==> forall r :: r in tree.links ==> exists j :: 0 <= j < k && order[j] == r
        invariant LinksAll(plan, order[..k], manifest)
      {
        assert order[..k + 1] == order[..k] + [order[k]];
        if order[k] != manifest {
          if !plan(LinkOwner(k)).Works? {
            return false;
          }
          var linked := Link(plan, order[k]);
          if !linked {
            return false;
          }
        }
      }
      assert order[..|order|] == order;
      ok := true;
    }

    /** Sync the subdirectories, then the output and its parent. */
    method SyncLinks(plan: Plan, made: set<string>) returns (ok: bool)
      requires Valid()
      modifies this`tree, this`seen
      ensures Valid() && old(seen) <= seen
      ensures tree.links == old(tree.links) && tree.dirs == old(tree.dirs)
      ensures ok <==> SyncsAll(plan, made)
      ensures ok ==> forall r :: r in tree.links && Reaches(made, r) ==>
                       r in tree.durable && Reaches(tree.durableDirs, r)
    {
      var pending := made;
      while pending != {}
        invariant Valid() && pending <= made
        invariant tree.links == old(tree.links) && tree.dirs == old(tree.dirs) && old(seen) <= seen
        invariant forall r :: r in tree.links && r.dir in made && r.dir !in pending ==> r in tree.durable
        invariant forall dir :: dir in made && dir !in pending ==> plan(SyncOutput(dir)).Works?
        decreases |pending|
      {
        var dir :| dir in pending;
        ok := SyncFinal(plan, SyncOutput(dir), dir);
        if !ok {
          return;
        }
        pending := pending - {dir};
      }
      ok := SyncFinal(plan, SyncOutput(""), "");
      if ok {
        ok := plan(SyncParent).Works?;
      }
    }

    /** What the outcome says when the manifest was not visible before. */
    ghost predicate Reported(plan: Plan, outcome: Outcome)
      reads this
    {
      && (outcome.Done? <==>
            manifest in tree.links && plan(LinkOf(manifest)).Works? && plan(SyncManifest).Works?)
      && (outcome.Indeterminate? <==>
            manifest in tree.links && plan(LinkOf(manifest)).Works? && !plan(SyncManifest).Works?)
      && (outcome.Failed? <==> manifest !in tree.links || plan(LinkOf(manifest)).Late?)
    }

    /**
     The commit. However it ends, and whichever of its states a crash interrupts, a manifest that becomes
     visible comes with every other listed file as staged.
     */
    method LinkStagedManifestLast(plan: Plan, order: seq<Rel>) returns (outcome: Outcome)
      requires Valid() && claimed && manifest in listed && forall r :: r in order <==> r in listed
      modifies this`tree, this`promised, this`seen
      ensures Valid() && old(seen) <= seen
      ensures manifest in old(tree.links) ==> outcome == Failed && promised == old(promised)
      ensures manifest !in old(tree.links) ==>
                && Reported(plan, outcome) && Complete() && CrashComplete(seen, manifest, Package())
      ensures outcome == Done ==> CrashProof(tree, Package())
      ensures Distinct(order) && old(tree.links) == map[] && AllStaged(order) ==>
                (manifest in tree.links <==> Prepares(plan, order, manifest) && !plan(LinkOf(manifest)).Fails?)
    {
      var ok := LinkAndSync(plan, order);
      if ok {
        outcome := CommitManifest(plan);
      } else {
        outcome := Failed;
      }
      if manifest !in old(tree.links) {
        PackageSurvives();
      }
    }

    /** Everything before the commit: directories, links of all files but the manifest, and their syncs. */
    method LinkAndSync(plan: Plan, order: seq<Rel>) returns (ok: bool)
      requires Valid() && claimed
      modifies this`tree, this`seen
      ensures Valid() && old(seen) <= seen
      ensures manifest in tree.links <==> manifest in old(tree.links)
      ensures ok ==> forall r :: r in order && r != manifest ==>
                       r in tree.links && r in tree.durable && Reaches(tree.durableDirs, r)
      ensures Distinct(order) && old(tree.links) == map[] && AllStaged(order) ==>
                (ok && plan(CommitOwner).Works? <==> Prepares(plan, order, manifest))
    {
      var made;
      ok, made := MakeDirs(plan, order);
      if !ok {
        return;
      }
      ok := plan(SyncStage).Works?;
      if !ok {
        return;
      }
      ok := LinkFiles(plan, order);
      if !ok {
        return;
      }
      ok := SyncLinks(plan, made);
    }

    /** The manifest link, and the sync that makes it durable. */
    method CommitManifest(plan: Plan) returns (outcome: Outcome)
      requires Valid() && claimed && manifest in listed
      requires forall r :: r in listed && r != manifest ==>
                 r in tree.links && r in tree.durable && Reaches(tree.durableDirs, r)
      modifies this`tree, this`promised, this`seen
      ensures Valid() && old(seen) <= seen
      ensures manifest in old(tree.links) ==> outcome == Failed && promised == old(promised)
      ensures manifest !in old(tree.links) ==> Reported(plan, outcome) && Complete()
      ensures outcome == Done ==> manifest in tree.durable && manifest !in old(tree.links)
      ensures manifest in staged && manifest !in old(tree.links) ==>
                (manifest in tree.links <==> plan(CommitOwner).Works? && !plan(LinkOf(manifest)).Fails?)
    {
      if !plan(CommitOwner).Works? {
        return Failed;
      }
      if manifest !in tree.links {
        promised := Others();
        assert Holds(tree, promised);
      }
      var ok := Link(plan, manifest);
      assert manifest !in old(tree.links) ==> promised == Others();
      if !ok {
        return Failed;
      }
      ok := SyncFinal(plan, SyncManifest, "");
      outcome := if ok then Done else Indeterminate;
    }

    /** Publish what has been staged; without a staged manifest nothing is published. */
    method PublishManifestLast(plan: Plan, order: seq<Rel>) returns (outcome: Outcome)
      requires Valid() && claimed && forall r :: r in order <==> r in listed
      modifies this`tree, this`promised, this`seen
      ensures Valid() && old(seen) <= seen
      ensures manifest in old(tree.links) ==> outcome == Failed && promised == old(promised)
      ensures manifest !in old(tree.links) ==>
                && Reported(plan, outcome) && Complete() && CrashComplete(seen, manifest, Package())
      ensures outcome == Done ==> CrashProof(tree, Package())
      ensures manifest !in listed ==> outcome == Failed && tree == old(tree)
      ensures outcome != Failed ==> forall r :: r in listed ==> r in tree.links && tree.links[r] == staged[r]
      ensures manifest in listed && Distinct(order) && old(tree.links) == map[] && AllStaged(order) ==>
                (manifest in tree.links <==> && plan(PublishOwner).Works? && Prepares(plan, order, manifest)
                                             && !plan(LinkOf(manifest)).Fails?)
    {
      if !plan(PublishOwner).Works? || manifest !in listed {
        if manifest !in tree.links {
          PackageSurvives();
        }
        return Failed;
      }
      outcome := LinkStagedManifestLast(plan, order);
    }

    /** Whichever state a crash interrupts, a manifest that survives comes with the given bytes. */
    ghost predicate CrashGives(files: seq<(string, Data)>, data: Data)
      reads this
    {
      forall t, u :: t in seen && CrashOf(t, u) && manifest in u.links ==> IsPackage(files, data, u.links)
    }

    lemma PackageGives(files: seq<(string, Data)>, data: Data)
      requires Valid() && CrashComplete(seen, manifest, Package())
      requires manifest in tree.links ==> IsPackage(files, data, Package())
      ensures CrashGives(files, data)
    {
      forall t, u | t in seen && CrashOf(t, u) && manifest in u.links
        ensures IsPackage(files, data, u.links)
      {
        assert Kept(t) && Carries(u, Package());
      }
    }

    /** The given files and the manifest, as a package. */
    ghost predicate IsPackage(files: seq<(string, Data)>, data: Data, p: map<Rel, Content>) {
      && manifest in p && p[manifest] == Whole(data)
      && forall k :: 0 <= k < |files| ==> Rel("", files[k].0) in p && p[Rel("", files[k].0)] == Whole(files[k].1)
    }

    /**
     The whole simple publication. A claimed output is left exactly as it is; otherwise, however it ends
     and whichever of its states a crash interrupts, a visible manifest comes with the given bytes of every
     file.
     */
    method PublishSimple(plan: Plan, files: seq<(string, Data)>, data: Data)
      returns (outcome: Outcome, ghost order: seq<Rel>)
      requires Valid()
      modifies this
      ensures Valid() && old(seen) <= seen
      ensures old(claimed) ==>
                outcome == Failed && claimed && tree == old(tree) && staged == old(staged) && listed == old(listed)
      ensures !old(claimed) ==> Reported(plan, outcome) && CrashComplete(seen, manifest, Package())
      ensures !old(claimed) ==> CrashGives(files, data)
      ensures !old(claimed) && manifest in tree.links ==> IsPackage(files, data, tree.links)
      ensures !old(claimed) && manifest in tree.links ==>
                IsPackage(files, data, Package()) && Carries(tree, Package())
      ensures outcome == Done ==> CrashProof(tree, Package())
      ensures !old(claimed) && NamesDiffer(files, manifest.name) ==>
                (manifest in tree.links <==>
                   && plan(ClaimDir).Works? && plan(ClaimRest).Works? && StagesAll(plan, files, manifest)
                   && Prepares(plan, order, manifest) && !plan(LinkOf(manifest)).Fails?)
      ensures outcome != Failed ==> Distinct(order) && forall r :: r in order <==> r in listed
    {
      order := [];
      var ok := Claim(plan);
      if !ok {
        if !old(claimed) {
          PackageSurvives();
          PackageGives(files, data);
        }
        return Failed, order;
      }
      ok := StageSimple(plan, files, data);
      if !ok {
        PackageSurvives();
        PackageGives(files, data);
        return Failed, order;
      }
      var paths := Enumerate(listed);
      order := paths;
      outcome := LinkStagedManifestLast(plan, paths);
      PackageGives(files, data);
    }

    /** Stage the files in order and the manifest after them. */
    method StageSimple(plan: Plan, files: seq<(string, Data)>, data: Data) returns (ok: bool)
      requires Valid() && claimed && listed == {} && staged == map[] && tree.links == map[]
      modifies this`staged, this`listed
      ensures Valid()
      ensures ok ==> forall r :: r in staged <==> r in listed
      ensures ok ==> IsPackage(files, data, staged)
      ensures NamesDiffer(files, manifest.name) ==> (ok <==> StagesAll(plan, files, manifest))
    {
      for k := 0 to |files|
        invariant Valid()
        invariant forall r :: r in staged <==> r in listed
        invariant forall j :: 0 <= j < k ==>
                    && Rel("", files[j].0) in staged && staged[Rel("", files[j].0)] == Whole(files[j].1)
                    && plan(Write(Rel("", files[j].0))).Works?
        invariant forall r :: r in staged ==> exists j :: 0 <= j < k && r == Rel("", files[j].0)
      {
        ok := WriteNewSynced(plan, Rel("", files[k].0), files[k].1);
        if !ok {
          return;
        }
        listed := listed + {Rel("", files[k].0)};
      }
      ok := WriteNewSynced(plan, manifest, data);
      if ok {
        listed := listed + {manifest};
      }
    }
  }

  /** A manifest link that fails after taking effect is a plain failure beside a visible manifest. */
  method FailureBesideManifest(name: string, files: seq<(string, Data)>, data: Data)
    returns (a: ArtifactPublication, outcome: Outcome)
    requires NamesDiffer(files, name)
    ensures outcome == Failed && a.manifest == Rel("", name) && a.manifest in a.tree.links
  {
    a := new ArtifactPublication(name);
    ghost var order;
    outcome, order := a.PublishSimple(s => if s == LinkOf(Rel("", name)) then Late else Works, files, data);
  }

  /** The listed paths in some order. */
  method Enumerate(s: set<Rel>) returns (order: seq<Rel>)
    ensures forall r :: r in order <==> r in s
    ensures Distinct(order)
  {
    order := [];
    var rest := s;
    while rest != {}
      invariant rest <= s && forall r :: r in order <==> r in s && r !in rest
      invariant Distinct(order)
      decreases |rest|
    {
      var r :| r in rest;
      order := order + [r];
      rest := rest - {r};
    }
  }
}
