/** From an accepted patch to the delivered commit: what the delivery's check of the patch evidence lets
    through, and what the reviewed commit then holds. */
module DeliveredPatch {
  import opened Wrappers
  import opened Paths
  import opened ProviderModel
  import opened Patching
  import opened PatchScripts
  import opened PatchExact
  import opened AcceptanceRuns
  import opened DeliveryAdapter

  /** The files under the names Git lists them by. */
  function Listing(files: map<Path, string>): Tree {
    map s | s in (set p | p in files :: Join(p)) && FileAt(files, s).Some? :: FileAt(files, s).value
  }

  /** The accepted manifest still describes the workspace: the same paths differ, each of them is a file
      with the manifest's content, and the tracked changes are the manifest's. */
  predicate EvidenceHolds(m: Manifest, r: Repository) {
    && m.changed != {} && r.StatusIs(m.changed)
    && m.files.Keys == m.changed
    && (forall s :: s in m.files ==> FileAt(r.files, s) == Some(m.files[s]))
    && r.Diff() == m.diff
  }

  lemma ListingAt(files: map<Path, string>, p: Path)
    requires WellFormed(p) && forall f :: f in files ==> WellFormed(f)
    ensures FileAt(files, Join(p)) == Lookup(files, p)
    ensures Lookup(Listing(files), Join(p)) == Lookup(files, p)
  {
    hide WellFormed, Components;
    ComponentsOfJoin(p);
    JoinIsNotRooted(p);
    if p in files {
      assert Join(p) in set f | f in files :: Join(f);
    }
  }

  lemma ListedName(files: map<Path, string>, s: string) returns (p: Path)
    requires s in Listing(files) && forall f :: f in files ==> WellFormed(f)
    ensures WellFormed(p) && Join(p) == s && p in files
  {
    p :| p in files && Join(p) == s;
  }

  /** Git lists the differences of the two listings. */
  lemma ListingsDiffer(r: Repository)
    requires r.Ok()
    ensures Differs(Listing(r.base), Listing(r.files)) == r.Changed()
  {
    hide WellFormed, Listing;
    var base, files := Listing(r.base), Listing(r.files);
    forall s | s in Differs(base, files) ensures s in r.Changed() {
      var p: Path;
      if s in base {
        p := ListedName(r.base, s);
      } else {
        p := ListedName(r.files, s);
      }
      ListingAt(r.base, p);
      ListingAt(r.files, p);
      assert p in r.base.Keys + r.files.Keys;
    }
    forall s | s in r.Changed() ensures s in Differs(base, files) {
      var p :| p in r.base.Keys + r.files.Keys && Lookup(r.base, p) != Lookup(r.files, p) && Join(p) == s;
      ListingAt(r.base, p);
      ListingAt(r.files, p);
      assert s in base.Keys + files.Keys;
    }
  }

  /** A workspace the evidence describes is the accepted one: listed paths hold the manifest's contents in
      both, and the others hold the base's. */
  lemma EvidenceFixesFiles(op: Operation, accepted: Repository, r: Repository)
    requires accepted.Ok() && r.Ok() && r.base == accepted.base
    requires EvidenceHolds(ManifestOf(op, accepted), r)
    ensures r.files == accepted.files
  {
    hide WellFormed, Repository.Diff;
    var m := ManifestOf(op, accepted);
    forall p: Path ensures Lookup(r.files, p) == Lookup(accepted.files, p) {
      if p in r.base.Keys + r.files.Keys + accepted.files.Keys {
        if Join(p) in m.changed {
          ListingAt(r.files, p);
          ListingAt(accepted.files, p);
        } else {
          UnchangedAt(r, p);
          UnchangedAt(accepted, p);
        }
      }
    }
    SameFiles(r.files, accepted.files);
  }

  lemma ChangedAt(r: Repository, p: Path)
    requires Lookup(r.files, p) != Lookup(r.base, p)
    ensures Join(p) in r.Changed()
  {
    assert p in r.base.Keys + r.files.Keys;
  }

  lemma UnchangedAt(r: Repository, p: Path)
    requires Join(p) !in r.Changed()
    ensures Lookup(r.files, p) == Lookup(r.base, p)
  {
    hide Repository.Changed;
    if Lookup(r.files, p) != Lookup(r.base, p) {
      ChangedAt(r, p);
    }
  }

  lemma SameChanged(r: Repository, s: Repository)
    requires r.base == s.base && r.files == s.files
    ensures r.Changed() == s.Changed()
  {
  }

  lemma SameFiles(f: map<Path, string>, g: map<Path, string>)
    requires forall p: Path :: Lookup(f, p) == Lookup(g, p)
    ensures f == g
  {
    forall p: Path ensures p in f <==> p in g
      ensures p in f ==> f[p] == g[p]
    {
      assert Lookup(f, p) == Lookup(g, p);
    }
  }

  /** The delivery that stands on such evidence: its base commit has the base's tree, and its reviewed
      files are the manifest's. */
  predicate StandsOn(review: Review, m: Manifest, base: map<Path, string>) {
    review.baseCommit.Contents() == Listing(base) && review.files == m.files
  }

  /** Evidence that holds is what the delivery adapter verifies, and the commit it then makes holds the
      accepted workspace, file by file: the base overridden by exactly the reviewed files. */
  lemma EvidenceIsDelivered(op: Operation, accepted: Repository, r: Repository, review: Review)
    requires accepted.Ok() && r.Ok() && r.base == accepted.base
    requires EvidenceHolds(ManifestOf(op, accepted), r) && StandsOn(review, ManifestOf(op, accepted), r.base)
    ensures DeliveryAdapter.Verified(Listing(r.base), Listing(r.base), Listing(r.files), review.files)
    ensures Reviewed(review).Contents() == Listing(accepted.files) && DeliveryAdapter.Effective(review)
  {
    hide WellFormed, Listing, Repository.Diff, Differs, Repository.Changed;
    var base, files := Listing(r.base), Listing(r.files);
    EvidenceFixesFiles(op, accepted, r);
    ListingsDiffer(r);
    NothingDiffers(base);
    forall s | s in review.files ensures Lookup(files, s) == Some(review.files[s]) {
      var p := ChangedName(r, s);
      ListingAt(r.files, p);
    }
    AddedIsReviewed(base, base, files, review.files);
  }

  lemma NothingDiffers(tree: Tree)
    ensures Differs(tree, tree) == {}
  {
  }

  lemma ChangedName(r: Repository, s: string) returns (p: Path)
    requires r.Ok() && s in r.Changed()
    ensures WellFormed(p) && Join(p) == s
  {
    hide WellFormed;
    p :| p in r.base.Keys + r.files.Keys && Lookup(r.base, p) != Lookup(r.files, p) && Join(p) == s;
  }

  /** Every path that some operation is meant for holds something afterwards. */
  ghost predicate LeavesNothingAbsent(ops: seq<FileOperation>) {
    forall p: Path :: LastFor(ops, p).Some? ==> Intended(LastFor(ops, p).value).Some?
  }

  /** The commit holds at every path what the operations ask for. */
  ghost predicate AsAsked(tree: Tree, base: map<Path, string>, ops: seq<FileOperation>) {
    forall p: Path :: WellFormed(p) ==> Lookup(tree, Join(p)) == IntendedAt(base, ops, p)
  }

  /** What was exactly applied is delivered as asked for. */
  lemma ExactIsDelivered(op: Operation, accepted: Repository, ops: seq<FileOperation>, r: Repository, review: Review)
    requires accepted.Ok() && r.Ok() && r.base == accepted.base && accepted.Changed() == PathSet(ops)
    requires ExactlyApplied(accepted.base, accepted.files, ops)
    requires EvidenceHolds(ManifestOf(op, accepted), r) && StandsOn(review, ManifestOf(op, accepted), r.base)
    ensures AsAsked(Reviewed(review).Contents(), accepted.base, ops) && LeavesNothingAbsent(ops)
  {
    hide WellFormed, Listing, EvidenceHolds, StandsOn, Repository.Ok, Repository.Changed, PathSet, ExactlyApplied, AsAsked, LeavesAbsent;
    EvidenceIsDelivered(op, accepted, r, review);
    EvidenceFixesFiles(op, accepted, r);
    SameChanged(r, accepted);
    TreeIsExactIff(r, ops, Reviewed(review).Contents());
    PresentPaths(op, accepted, r, ops);
    ExactLeavesAbsent(accepted.base, accepted.files, ops);
  }

  /** The delivered commit is what an accepted result asks for if and only if the result leaves no path
      absent: a manifest that lists a deleted path is refused as incomplete, and one whose deletion was
      overlooked delivers the file that should be gone. */
  lemma DeliveredAsAskedIff(op: Operation, before: World, accepted: Repository, ops: seq<FileOperation>, r: Repository, review: Review)
    requires accepted.Ok() && r.Ok() && r.base == accepted.base
    requires AcceptedWorkspace(before, accepted, ops)
    requires EvidenceHolds(ManifestOf(op, accepted), r) && StandsOn(review, ManifestOf(op, accepted), r.base)
    ensures AsAsked(Reviewed(review).Contents(), r.base, ops) <==> LeavesNothingAbsent(ops)
  {
    hide WellFormed, Listing, EvidenceHolds, StandsOn, LastFor, Intended, Repository.Ok, ExactlyApplied, Repository.Changed, PathSet, AsAsked;
    EvidenceIsDelivered(op, accepted, r, review);
    EvidenceFixesFiles(op, accepted, r);
    SameChanged(r, accepted);
    TreeIsExactIff(r, ops, Reviewed(review).Contents());
    PresentPaths(op, accepted, r, ops);
  }

  /** Every path of the list is a file of a workspace whose evidence holds. */
  lemma PresentPaths(op: Operation, accepted: Repository, r: Repository, ops: seq<FileOperation>)
    requires accepted.Ok() && accepted.Changed() == PathSet(ops) && r.files == accepted.files && r.base == accepted.base
    requires EvidenceHolds(ManifestOf(op, accepted), r)
    ensures LeavesAbsent(r.files, ops) <==> LeavesNothingAbsent(ops)
  {
    hide WellFormed, Repository.Changed, Repository.Diff, LastFor, Intended, PathSet, Destination, Canonical;
    forall p: Path | LastFor(ops, p).Some? ensures p in r.files {
      var i := LastForIsOne(ops, p);
      ListedAreCanonical(accepted, ops, i);
      DestinationOfCanonical(ops[i]);
      OneOfPaths(ops, i);
      assert ops[i].path in ManifestOf(op, accepted).files;
    }
    NothingIsLeftAbsent(r.files, ops);
  }

  /** When every last operation's path is present, none may be meant to be absent. */
  lemma NothingIsLeftAbsent(files: map<Path, string>, ops: seq<FileOperation>)
    requires forall p: Path :: LastFor(ops, p).Some? ==> p in files
    ensures LeavesAbsent(files, ops) <==> LeavesNothingAbsent(ops)
  {
    if LeavesAbsent(files, ops) {
      forall p: Path | LastFor(ops, p).Some? ensures Intended(LastFor(ops, p).value).Some? {
        assert p in files;
      }
    }
    if !LeavesAbsent(files, ops) {
      var p: Path :| LastFor(ops, p).Some? && Intended(LastFor(ops, p).value).None? && p in files;
      assert !Intended(LastFor(ops, p).value).Some?;
    }
  }

  lemma OneOfPaths(ops: seq<FileOperation>, i: nat)
    requires i < |ops|
    ensures ops[i].path in PathSet(ops)
  {
  }

  /** The listing of the files is what the operations ask for if and only if the files are. */
  lemma TreeIsExactIff(r: Repository, ops: seq<FileOperation>, tree: Tree)
    requires r.Ok() && tree == Listing(r.files) && r.Changed() == PathSet(ops)
    ensures AsAsked(tree, r.base, ops) <==> ExactlyApplied(r.base, r.files, ops)
  {
    hide WellFormed, Listing, IntendedAt, Repository.Changed, PathSet;
    forall p: Path | WellFormed(p) ensures Lookup(tree, Join(p)) == Lookup(r.files, p) {
      ListingAt(r.files, p);
    }
    forall p: Path | !WellFormed(p) ensures Lookup(r.files, p) == IntendedAt(r.base, ops, p) {
      OddNamesStay(r, ops, p);
    }
  }

  lemma OddNamesStay(r: Repository, ops: seq<FileOperation>, p: Path)
    requires r.Ok() && r.Changed() == PathSet(ops) && !WellFormed(p)
    ensures Lookup(r.files, p) == IntendedAt(r.base, ops, p)
  {
    hide WellFormed, Repository.Changed, PathSet, LastFor, Destination;
    if LastFor(ops, p).Some? {
      var i := LastForIsOne(ops, p);
      ListedAreCanonical(r, ops, i);
      DestinationOfCanonical(ops[i]);
      assert false;
    }
  }
}
