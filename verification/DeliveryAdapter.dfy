/** `ControlledCustomerDeliveryAdapter` over an abstract Git repository, its remote and GitHub: one
    reviewed commit, one push, one draft pull request. Commits are values, so their digests are injective. */
module DeliveryAdapter {
  import opened Wrappers

  type Tree = map<string, string>

  datatype Commit = Root(rootTree: Tree, id: string) | Child(parent: Commit, childTree: Tree, message: string)
  {
    function Contents(): Tree {
      match this
      case Root(tree, _) => tree
      case Child(_, tree, _) => tree
    }

    predicate IsAncestorOf(c: Commit)
      decreases c
    {
      this == c || (c.Child? && IsAncestorOf(c.parent))
    }
  }

  /** The reviewed files with their contents; the review record admits no path twice. */
  datatype Review = Review(
    approved: bool, repository: string, base: string, branch: string, baseCommit: Commit, files: Tree, diff: string,
    message: string, title: string, body: string)

  datatype PullRequest = PullRequest(
    number: int, url: string, repository: string, base: string, head: string, title: string, body: string, draft: bool, open: bool)

  /** The external commands of a delivery in the order in which they run. */
  datatype External =
    | ShowBranch | ReadHead | ReadStatus | ReadFiles | RenderPatch | ReadRemoteUrl | ListRemote | ListPulls
    | AddFiles | ReadStaged | MakeCommit | ReadCommit | Push | ListRemoteAgain | CreateDraft | ReadFinalStatus

  /** A command runs, or raises without or after having its effect. */
  datatype Fault = Runs | RaisesBefore | RaisesAfter

  datatype Outcome = Delivered(commit: Commit, tree: Tree, number: int, url: string) | Raised

  /** The paths in which two trees differ. */
  function Differs(a: Tree, b: Tree): set<string> {
    set p | p in a.Keys + b.Keys && Lookup(a, p) != Lookup(b, p)
  }

  /** `git status`: staged or unstaged differences, untracked files included. */
  function StatusOf(head: Tree, index: Tree, work: Tree): set<string> {
    Differs(head, index) + Differs(index, work)
  }

  /** `git add` of files that exist. */
  function Added(index: Tree, work: Tree, paths: set<string>): Tree {
    index + map p | p in paths && p in work :: work[p]
  }

  /** Exactly the reviewed paths changed, and each holds its reviewed content. */
  predicate Verified(head: Tree, index: Tree, work: Tree, files: Tree) {
    && StatusOf(head, index, work) == files.Keys
    && (forall p :: p in files ==> Lookup(work, p) == Some(files[p]))
  }

  /** What is staged after a verified workspace's reviewed paths are added is the base tree overridden
      by exactly the reviewed files, whatever was staged before; and the workspace then shows it. */
  lemma AddedIsReviewed(head: Tree, index: Tree, work: Tree, files: Tree)
    requires Verified(head, index, work, files)
    ensures Added(index, work, files.Keys) == head + files
    ensures work == head + files
    ensures StatusOf(head + files, head + files, work) == {}
  {
    hide Verified;
    UnlistedAgree(head, index, work, files);
    var added := Added(index, work, files.Keys);
    forall p ensures Lookup(added, p) == Lookup(head + files, p) && Lookup(work, p) == Lookup(head + files, p) {
    }
    SameLookups(added, head + files);
    SameLookups(work, head + files);
  }

  lemma UnlistedAgree(head: Tree, index: Tree, work: Tree, files: Tree)
    requires Verified(head, index, work, files)
    ensures forall p :: p !in files ==> Lookup(head, p) == Lookup(index, p) == Lookup(work, p)
    ensures forall p :: p in files ==> Lookup(work, p) == Some(files[p])
  {
    forall p | p !in files ensures Lookup(head, p) == Lookup(index, p) == Lookup(work, p) {
      assert p !in StatusOf(head, index, work);
      assert p !in Differs(head, index) && p !in Differs(index, work);
    }
  }

  lemma SameLookups(a: Tree, b: Tree)
    requires forall p :: Lookup(a, p) == Lookup(b, p)
    ensures a == b
  {
    forall p ensures p in a <==> p in b
      ensures p in a ==> a[p] == b[p]
    {
      assert Lookup(a, p) == Lookup(b, p);
    }
  }

  /** The reviewed commit. */
  function Reviewed(review: Review): Commit {
    Child(review.baseCommit, review.baseCommit.Contents() + review.files, review.message)
  }

  /** What is asked of GitHub; the number and the address are GitHub's. */
  function Requested(review: Review): PullRequest {
    PullRequest(0, "", review.repository, review.base, review.branch, review.title, review.body, true, true)
  }

  /** The checks on the pull request that GitHub shows. */
  predicate AsReviewed(pull: PullRequest, review: Review) {
    && pull.repository == review.repository && pull.base == review.base && pull.head == review.branch
    && pull.title == review.title && pull.draft && pull.open
  }

  class Workspace {
    // The operator's configuration and the environment, all arbitrary.
    const repository: string
    const baseBranch: string
    const expectedUrl: string
    const normalize: string -> string
    const render: (Tree, Tree, Tree) -> string
    const faults: External -> Fault
    const store: PullRequest -> PullRequest   // what GitHub keeps of a requested pull request

    var branch: string
    var head: Commit
    var index: Tree
    var work: Tree
    var remoteUrl: string
    var remote: map<string, Commit>
    var pulls: seq<PullRequest>

    constructor (repository: string, baseBranch: string, expectedUrl: string, normalize: string -> string,
                 render: (Tree, Tree, Tree) -> string, faults: External -> Fault, store: PullRequest -> PullRequest,
                 branch: string, head: Commit, work: Tree, remoteUrl: string)
      ensures this.repository == repository && this.baseBranch == baseBranch && this.branch == branch
      ensures this.head == head && index == head.Contents() && this.work == work && remote == map[] && pulls == []
    {
      this.repository, this.baseBranch, this.expectedUrl := repository, baseBranch, expectedUrl;
      this.normalize, this.render, this.faults, this.store := normalize, render, faults, store;
      this.branch, this.head, this.index, this.work := branch, head, head.Contents(), work;
      this.remoteUrl, remote, pulls := remoteUrl, map[], [];
    }

    /** Everything `preflight` demands of the review and the workspace. */
    predicate Admits(review: Review)
      reads this
    {
      && review.approved && review.repository == repository && review.base == baseBranch
      && branch == review.branch && head == review.baseCommit
      && Verified(head.Contents(), index, work, review.files)
      && render(index, work, review.files) == review.diff
      && normalize(remoteUrl) == normalize(expectedUrl)
      && review.branch !in remote
      && !PullExists(review)
    }

    predicate PullExists(review: Review)
      reads this
    {
      exists i :: 0 <= i < |pulls| && pulls[i].repository == review.repository && pulls[i].base == review.base
                  && pulls[i].head == review.branch
    }

    predicate RunsAll(commands: set<External>) {
      forall c :: c in commands ==> faults(c) == Runs
    }

    /** `_verify_workspace`: one content check after the other. */
    method VerifyWorkspace(review: Review) returns (ok: bool)
      ensures ok <==>
        && branch == review.branch && head == review.baseCommit
        && Verified(head.Contents(), index, work, review.files) && render(index, work, review.files) == review.diff
        && RunsAll({ShowBranch, ReadHead, ReadStatus, ReadFiles, RenderPatch})
    {
      if faults(ShowBranch) != Runs || branch != review.branch {
        return false;
      }
      if faults(ReadHead) != Runs || head != review.baseCommit {
        return false;
      }
      if faults(ReadStatus) != Runs || StatusOf(head.Contents(), index, work) != review.files.Keys {
        return false;
      }
      if faults(ReadFiles) != Runs {
        return false;
      }
      var left := review.files.Keys;
      while left != {}
        invariant left <= review.files.Keys
        invariant forall p :: p in review.files && p !in left ==> Lookup(work, p) == Some(review.files[p])
        decreases |left|
      {
        var p :| p in left;
        if Lookup(work, p) != Some(review.files[p]) {
          return false;
        }
        left := left - {p};
      }
      ok := faults(RenderPatch) == Runs && render(index, work, review.files) == review.diff;
    }

    /** `preflight` only reads. */
    method Preflight(review: Review) returns (ok: bool)
      ensures ok <==>
        Admits(review) && RunsAll({ShowBranch, ReadHead, ReadStatus, ReadFiles, RenderPatch, ReadRemoteUrl, ListRemote, ListPulls})
    {
      if !review.approved || review.repository != repository || review.base != baseBranch {
        return false;
      }
      ok := VerifyWorkspace(review);
      if !ok {
        return;
      }
      if faults(ReadRemoteUrl) != Runs || normalize(remoteUrl) != normalize(expectedUrl) {
        return false;
      }
      if faults(ListRemote) != Runs || review.branch in remote {
        return false;
      }
      ok := faults(ListPulls) == Runs && !PullExists(review);
    }

    method GitAdd(paths: set<string>) returns (ok: bool)
      modifies `index
      ensures ok == (faults(AddFiles) == Runs)
      ensures index == if faults(AddFiles) == RaisesBefore then old(index) else Added(old(index), work, paths)
    {
      if faults(AddFiles) != RaisesBefore {
        index := Added(index, work, paths);
      }
      ok := faults(AddFiles) == Runs;
    }

    method GitCommit(message: string) returns (ok: bool)
      modifies `head
      ensures ok == (faults(MakeCommit) == Runs)
      ensures head == if faults(MakeCommit) == RaisesBefore then old(head) else Child(old(head), index, message)
    {
      if faults(MakeCommit) != RaisesBefore {
        head := Child(head, index, message);
      }
      ok := faults(MakeCommit) == Runs;
    }

    /** A push that is not forced only creates a branch or moves it forward. */
    method GitPush(target: string) returns (ok: bool)
      modifies `remote
      ensures ok ==> faults(Push) == Runs
      ensures target !in old(remote) ==>
        ok == (faults(Push) == Runs) && remote == if faults(Push) == RaisesBefore then old(remote) else old(remote)[target := head]
    {
      if target in remote && !remote[target].IsAncestorOf(head) {
        return false;
      }
      if faults(Push) != RaisesBefore {
        remote := remote[target := head];
      }
      ok := faults(Push) == Runs;
    }

    method OpenDraft(review: Review) returns (pull: Option<PullRequest>)
      modifies `pulls
      ensures pulls == if faults(CreateDraft) == RaisesBefore then old(pulls) else old(pulls) + [store(Requested(review))]
      ensures pull == if faults(CreateDraft) == Runs then Some(store(Requested(review))) else None
    {
      var created := store(Requested(review));
      if faults(CreateDraft) != RaisesBefore {
        pulls := pulls + [created];
      }
      pull := if faults(CreateDraft) == Runs then Some(created) else None;
    }

    /** The first half of `deliver`: stage exactly the reviewed paths and commit them. */
    method CommitReviewed(review: Review) returns (ok: bool)
      requires head == review.baseCommit && Verified(head.Contents(), index, work, review.files)
      modifies `head, `index
      ensures head == old(head) || head == Reviewed(review)
      ensures ok <==> RunsAll({AddFiles, ReadStaged, MakeCommit, ReadCommit}) && Effective(review)
      ensures ok ==> head == Reviewed(review) && StatusOf(head.Contents(), index, work) == {}
    {
      AddedIsReviewed(head.Contents(), index, work, review.files);
      hide Verified, Added, Differs, StatusOf;
      ok := GitAdd(review.files.Keys);
      if !ok || faults(ReadStaged) != Runs || Differs(head.Contents(), index) != review.files.Keys {
        return false;
      }
      ok := GitCommit(review.message);
      if !ok {
        return;
      }
      ok := faults(ReadCommit) == Runs && head.parent == review.baseCommit
            && Differs(head.parent.Contents(), head.Contents()) == review.files.Keys;
    }

    /** The second half: push, verify the remote, open the draft, verify it and the workspace. */
    method Publish(review: Review) returns (outcome: Outcome)
      requires head == Reviewed(review) && review.branch !in remote && StatusOf(head.Contents(), index, work) == {}
      modifies `remote, `pulls
      ensures remote == old(remote) || remote == old(remote)[review.branch := head]
      ensures pulls == old(pulls) || (pulls == old(pulls) + [store(Requested(review))] && Lookup(remote, review.branch) == Some(head))
      ensures outcome.Delivered? <==>
        RunsAll({Push, ListRemoteAgain, CreateDraft, ReadFinalStatus}) && AsReviewed(store(Requested(review)), review)
      ensures outcome.Delivered? ==>
        && outcome.commit == head && outcome.tree == head.Contents()
        && Lookup(remote, review.branch) == Some(head)
        && pulls == old(pulls) + [store(Requested(review))]
        && outcome.number == store(Requested(review)).number && outcome.url == store(Requested(review)).url
    {
      hide StatusOf, Requested, AsReviewed, Reviewed;
      var ok := GitPush(review.branch);
      if !ok || faults(ListRemoteAgain) != Runs || Lookup(remote, review.branch) != Some(head) {
        return Raised;
      }
      var pull := OpenDraft(review);
      if pull.None? || !AsReviewed(pull.value, review) {
        return Raised;
      }
      if faults(ReadFinalStatus) != Runs || StatusOf(head.Contents(), index, work) != {} {
        return Raised;
      }
      outcome := Delivered(head, head.Contents(), pull.value.number, pull.value.url);
    }

    /** `deliver`. At every exit, raised or not, the remote is as before or has gained exactly one branch,
        the reviewed one, holding exactly the reviewed commit; at most the requested pull request was
        opened, and only with that branch in place. It returns if and only if nothing raised on the way,
        the review is admitted, every reviewed file differs from the base, and GitHub keeps the draft as
        asked; then the branch and exactly one open draft exist and the workspace is clean. */
    method Deliver(review: Review) returns (outcome: Outcome)
      modifies `head, `index, `remote, `pulls
      ensures remote == old(remote) || (review.branch !in old(remote) && remote == old(remote)[review.branch := Reviewed(review)])
      ensures pulls == old(pulls) || (pulls == old(pulls) + [store(Requested(review))]
                                      && Lookup(remote, review.branch) == Some(Reviewed(review)))
      ensures head == old(head) || head == Reviewed(review)
      ensures !old(Admits(review)) ==> outcome == Raised && head == old(head) && index == old(index)
      ensures outcome.Delivered? <==>
        old(Admits(review)) && (forall e: External :: faults(e) == Runs) && Effective(review) && AsReviewed(store(Requested(review)), review)
      ensures outcome.Delivered? ==>
        && outcome.commit == head == Reviewed(review) && outcome.tree == head.Contents()
        && Lookup(remote, review.branch) == Some(head)
        && pulls == old(pulls) + [store(Requested(review))] && AsReviewed(pulls[|pulls| - 1], review)
        && outcome.number == pulls[|pulls| - 1].number && outcome.url == pulls[|pulls| - 1].url
        && StatusOf(head.Contents(), index, work) == {}
      ensures outcome.Delivered? ==> DeliversExactly(review, outcome.commit, pulls[|pulls| - 1])
    {
      hide StatusOf, Requested, AsReviewed, Reviewed, Verified, Effective, DeliversExactly, RunsAll, PullExists;
      DeliveredMeans(review, store(Requested(review)));
      EveryCommand(this);
      outcome := Raised;
      var ok := Preflight(review);
      if !ok {
        return;
      }
      ok := CommitReviewed(review);
      if !ok {
        return;
      }
      outcome := Publish(review);
    }
  }

  /** Every reviewed file differs from the base; otherwise the staged paths are not the reviewed ones. */
  predicate Effective(review: Review) {
    Differs(review.baseCommit.Contents(), review.baseCommit.Contents() + review.files) == review.files.Keys
  }

  /** What the reviewer asked for: one commit on the reviewed base with the reviewed message, whose tree holds
      every reviewed file with its reviewed content and every other file of the base unchanged; and an open
      draft with the reviewed title that asks to merge the reviewed branch. */
  ghost predicate DeliversExactly(review: Review, commit: Commit, pull: PullRequest) {
    && commit.Child? && commit.parent == review.baseCommit && commit.message == review.message
    && (forall p :: p in review.files ==> Lookup(commit.childTree, p) == Some(review.files[p]))
    && (forall p :: p !in review.files ==> Lookup(commit.childTree, p) == Lookup(review.baseCommit.Contents(), p))
    && pull.repository == review.repository && pull.base == review.base && pull.head == review.branch
    && pull.title == review.title && pull.draft && pull.open
  }

  lemma DeliveredMeans(review: Review, pull: PullRequest)
    ensures AsReviewed(pull, review) <==> DeliversExactly(review, Reviewed(review), pull)
    ensures DeliversExactly(review, Reviewed(review), Requested(review)) && Requested(review).body == review.body
  {
  }

  /** The three parts of a delivery run every command there is. */
  lemma EveryCommand(w: Workspace)
    ensures (forall e: External :: w.faults(e) == Runs) <==>
      && w.RunsAll({ShowBranch, ReadHead, ReadStatus, ReadFiles, RenderPatch, ReadRemoteUrl, ListRemote, ListPulls})
      && w.RunsAll({AddFiles, ReadStaged, MakeCommit, ReadCommit})
      && w.RunsAll({Push, ListRemoteAgain, CreateDraft, ReadFinalStatus})
  {
    if && w.RunsAll({ShowBranch, ReadHead, ReadStatus, ReadFiles, RenderPatch, ReadRemoteUrl, ListRemote, ListPulls})
       && w.RunsAll({AddFiles, ReadStaged, MakeCommit, ReadCommit})
       && w.RunsAll({Push, ListRemoteAgain, CreateDraft, ReadFinalStatus})
    {
      forall e: External ensures w.faults(e) == Runs {
        match e {
          case ShowBranch => case ReadHead => case ReadStatus => case ReadFiles => case RenderPatch => case ReadRemoteUrl =>
          case ListRemote => case ListPulls => case AddFiles => case ReadStaged => case MakeCommit => case ReadCommit =>
          case Push => case ListRemoteAgain => case CreateDraft => case ReadFinalStatus =>
        }
      }
    }
  }

  /** Every reviewed file, and no other, shows as changed, and holds its reviewed content. */
  ghost predicate ShowsExactly(head: Tree, index: Tree, work: Tree, files: Tree) {
    && (forall p :: p in files ==> Lookup(work, p) == Some(files[p]) && (Lookup(head, p) != Lookup(index, p) || Lookup(index, p) != Lookup(work, p)))
    && (forall p :: p !in files ==> Lookup(head, p) == Lookup(index, p) == Lookup(work, p))
  }

  lemma StatusShows(head: Tree, index: Tree, work: Tree, p: string)
    ensures p in StatusOf(head, index, work) <==> Lookup(head, p) != Lookup(index, p) || Lookup(index, p) != Lookup(work, p)
  {
  }

  lemma VerifiedIff(head: Tree, index: Tree, work: Tree, files: Tree)
    ensures Verified(head, index, work, files) <==> ShowsExactly(head, index, work, files)
  {
    hide StatusOf;
    var status := StatusOf(head, index, work);
    forall p ensures p in status <==> Lookup(head, p) != Lookup(index, p) || Lookup(index, p) != Lookup(work, p) {
      StatusShows(head, index, work, p);
    }
    if ShowsExactly(head, index, work, files) {
      forall p ensures p in status <==> p in files {
      }
    }
  }

  /** The adapter admits a review exactly when it is approved for the configured target, the workspace stands on
      its branch and base and shows exactly its files and its patch, the remote is the expected one and does not
      have the branch, and no pull request asks to merge it already. */
  lemma AdmittedIff(w: Workspace, review: Review)
    ensures w.Admits(review) <==>
      && review.approved && review.repository == w.repository && review.base == w.baseBranch
      && w.branch == review.branch && w.head == review.baseCommit
      && ShowsExactly(w.head.Contents(), w.index, w.work, review.files)
      && w.render(w.index, w.work, review.files) == review.diff
      && w.normalize(w.remoteUrl) == w.normalize(w.expectedUrl)
      && review.branch !in w.remote.Keys
      && forall pull :: pull in w.pulls ==> pull.repository != review.repository || pull.base != review.base || pull.head != review.branch
  {
    hide Verified, ShowsExactly;
    VerifiedIff(w.head.Contents(), w.index, w.work, review.files);
    if w.PullExists(review) {
      var i :| 0 <= i < |w.pulls| && w.pulls[i].repository == review.repository && w.pulls[i].base == review.base
               && w.pulls[i].head == review.branch;
      assert w.pulls[i] in w.pulls;
    }
  }

  /** A commit of the reviewed files differs from the base in exactly these exactly when each of them does. */
  lemma EffectiveIff(review: Review)
    ensures Effective(review) <==>
      forall p :: p in review.files ==> Lookup(review.baseCommit.Contents(), p) != Some(review.files[p])
  {
    var base := review.baseCommit.Contents();
    var changed := Differs(base, base + review.files);
    assert forall p :: p in changed <==> p in review.files && Lookup(base, p) != Some(review.files[p]);
    assert changed == review.files.Keys <==> forall p :: p in changed <==> p in review.files;
  }
}
