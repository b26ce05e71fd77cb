/**
 * Publishing a finished run to a repository the account owns, over an abstract git and GitHub.
 * Every command may fail, and a command on the remote may also take effect although its answer is
 * lost; `Replies` holds what each command of one attempt meets.
 */
module Publish {
  import opened Wrappers

  type Sha = nat

  /** A tree, the index and the working directory: contents by path. */
  type Tree = map<string, nat>

  datatype Commit = Commit(parents: seq<Sha>, tree: Tree)

  /** What happened on the remote, in order. */
  datatype Effect =
    | Pushed(ref: string, sha: Sha)
    | PrOpened(head: string, base: string)
    | Merged(ref: string, sha: Sha)
    | Deleted(ref: string)

  /** The object store, the run's checkout and the remote repository. */
  datatype Git = Git(
    objects: seq<Commit>,
    head: Sha,
    index: Tree,
    work: Tree,                  // untracked files included
    refs: map<string, Sha>,
    default: Option<string>,
    openPr: Option<string>,      // the base of the run branch's open pull request
    effects: seq<Effect>)
  {
    function TreeOf(sha: Sha): Tree {
      if sha < |objects| then objects[sha].tree else map[]
    }

    /** Nothing staged that HEAD does not have. */
    predicate CleanIndex() {
      index == TreeOf(head)
    }
  }

  /** Commits are created after their parents. */
  ghost predicate Wf(s: Git) {
    && s.head < |s.objects|
    && (forall i, p :: 0 <= i < |s.objects| && p in s.objects[i].parents ==> p < i)
    && (forall ref :: ref in s.refs ==> s.refs[ref] < |s.objects|)
  }

  /** `a` is `b` or an ancestor of it. */
  predicate Reaches(objects: seq<Commit>, a: Sha, b: Sha)
    decreases b
  {
    a == b || (b < |objects| && exists p :: p in objects[b].parents && p < b && Reaches(objects, a, p))
  }

  /** The commits of `tip` that `base` does not have. */
  function Range(objects: seq<Commit>, base: Sha, tip: Sha): set<Sha> {
    set x | 0 <= x <= tip && Reaches(objects, x, tip) && !Reaches(objects, x, base)
  }

  /** A remote write is done and acknowledged, done but the answer is lost, or not done. */
  datatype How = Works | Lost | Fails

  datatype PrReply = Opens | OpensUnheard | NoCommits | Refuses

  /**
   * The squash merge that also deletes the run branch: all done; all done but unheard; merged but the
   * branch could not be deleted, which is an error; or refused.
   */
  datatype MergeReply = Done | DoneUnheard | BranchKept | Refused

  datatype Gate = Ready | Already | Blocked | Unread | TimedOut

  datatype Replies = Replies(
    // the checkout
    ownWorktree: bool, status: bool, add: bool, diff: bool, strayCommit: bool,
    tip: bool, base: bool, ancestor: bool, count: bool, reset: bool, squashCommit: bool, restore: bool,
    noHarness: bool,
    // the remote
    defaultRead: bool, trunkRead: bool,
    trunkPush: How, runPush: How, landPush: How,
    findPr: bool, open: PrReply, refindPr: bool, findMerged: bool,
    gate: Gate, merge: MergeReply, mergedTree: Tree)

  datatype Job = Job(
    branch: string,              // beckett/<ref>
    target: string,              // trimmed; empty when unset
    baseSha: Option<Sha>,
    inRunWorktree: bool,
    conflicted: bool)

  datatype Outcome =
    | DirectPush(sha: Sha)
    | ViaPullRequest
    | Threw

  predicate Landed(o: Outcome) {
    !o.Threw?
  }

  // -------------------------------------------------------------- checkout

  function CommitIndex(s: Git, works: bool): (Git, bool) {
    if works && !s.CleanIndex() then
      (s.(objects := s.objects + [Commit([s.head], s.index)], head := |s.objects|), true)
    else (s, false)
  }

  /** `commitStrayWorkingTree`; the flag is false when it throws. */
  function CommitStray(s: Git, w: Replies, job: Job): (Git, bool) {
    if !(w.ownWorktree && job.inRunWorktree) then (s, true)
    else if !w.status || (s.work == s.TreeOf(s.head) && s.CleanIndex()) then (s, true)
    else if job.conflicted then (s, false)
    else if !w.add then (s, true)
    else
      var s1 := s.(index := s.work);
      if w.diff && s1.CleanIndex() then (s1, true)
      else (CommitIndex(s1, w.strayCommit).0, true)
  }

  /** Every check before the soft reset, and the reset itself, succeeds. */
  predicate Squashes(s: Git, w: Replies, base: Option<Sha>) {
    && base.Some?
    && w.tip && w.base && base.value < |s.objects|
    && base.value != s.head
    && w.ancestor && Reaches(s.objects, base.value, s.head)
    && w.count && |Range(s.objects, base.value, s.head)| > 1
    && w.reset
  }

  /** `git reset --hard`: tracked files become the commit's, untracked ones stay unless it has them. */
  function ResetHard(s: Git, to: Sha): Git {
    s.(head := to, index := s.TreeOf(to), work := (s.work - s.index.Keys) + s.TreeOf(to))
  }

  /** `squashLocalCommits`. */
  function Squash(s: Git, w: Replies, base: Option<Sha>): Git {
    if !Squashes(s, w, base) then s
    else
      var (s1, committed) := CommitIndex(s.(head := base.value), w.squashCommit);
      if committed then s1
      else if w.restore then ResetHard(s1, s.head)
      else s1
  }

  // ---------------------------------------------------------------- remote

  predicate FastForward(s: Git, ref: string) {
    ref in s.refs ==> Reaches(s.objects, s.refs[ref], s.head)
  }

  datatype PushAnswer = Accepted | Rejected | Broke

  /** An unforced push of HEAD; the first ref of an empty repository becomes its default branch. */
  function Push(s: Git, how: How, ref: string): (Git, PushAnswer) {
    if how.Fails? then (s, Broke)
    else if !FastForward(s, ref) then (s, if how.Works? then Rejected else Broke)
    else
      (s.(refs := s.refs[ref := s.head],
          default := if s.refs == map[] then Some(ref) else s.default,
          effects := s.effects + [Pushed(ref, s.head)]),
       if how.Works? then Accepted else Broke)
  }

  /** `pushRunBranch`: a branch that is already there at another tip counts as pushed. */
  function PushRunBranch(s: Git, how: How, branch: string): (Git, bool) {
    var (s1, answer) := Push(s, how, branch);
    (s1, !answer.Broke?)
  }

  function LowerChar(c: char): char {
    if 'A' <= c <= 'Z' then c - 'A' + 'a' else c
  }

  function Lower(text: string): string {
    seq(|text|, i requires 0 <= i < |text| => LowerChar(text[i]))
  }

  const RUN_BRANCH := "beckett/run-"

  predicate IsRunBranch(branch: string) {
    |RUN_BRANCH| <= |branch| && Lower(branch[..|RUN_BRANCH|]) == RUN_BRANCH
  }

  /** The trunk: the ticket's integration branch, or the default branch, or `main` if unreadable. */
  function Trunk(s: Git, w: Replies, job: Job): string {
    if job.target != "" && Lower(job.target) != "main" then job.target
    else if w.defaultRead && s.default.Some? then s.default.value
    else "main"
  }

  /** `ensurePR`: reuse whatever is open for the branch, open, or look again after a failed attempt. */
  function EnsurePr(s: Git, w: Replies, branch: string, base: string): (Git, bool) {
    if w.findPr && s.openPr.Some? then (s, true)
    else if s.openPr.Some? || branch == base || w.open.NoCommits? || w.open.Refuses? then
      (s, w.refindPr && s.openPr.Some?)
    else
      (s.(openPr := Some(base), effects := s.effects + [PrOpened(branch, base)]), w.open.Opens? || w.refindPr)
  }

  /** The open pull request can be merged. */
  predicate Mergeable(s: Git, branch: string) {
    && s.openPr.Some? && s.openPr.value in s.refs && branch in s.refs && s.openPr.value != branch
  }

  /** The squash of a branch that is ahead of its base has the branch's tree; otherwise it is GitHub's merge. */
  function SquashTree(s: Git, w: Replies, branch: string): Tree
    requires Mergeable(s, branch)
  {
    if Reaches(s.objects, s.refs[s.openPr.value], s.refs[branch]) then s.TreeOf(s.refs[branch]) else w.mergedTree
  }

  /** The squash lands on the base of the open pull request. */
  function SquashMerged(s: Git, w: Replies, branch: string): Git
    requires Mergeable(s, branch)
  {
    var target, sha := s.openPr.value, |s.objects|;
    s.(objects := s.objects + [Commit([s.refs[target]], SquashTree(s, w, branch))],
       refs := s.refs[target := sha], openPr := None, effects := s.effects + [Merged(target, sha)])
  }

  /** `mergePR`: merge, then delete the run branch; a default branch cannot be deleted. */
  function Merge(s: Git, w: Replies, branch: string): (Git, bool) {
    if w.merge.Refused? || !Mergeable(s, branch) then (s, false)
    else
      var merged := SquashMerged(s, w, branch);
      if w.merge.BranchKept? || s.default == Some(branch) then (merged, false)
      else
        (merged.(refs := merged.refs - {branch}, effects := merged.effects + [Deleted(branch)]), w.merge.Done?)
  }

  /** `publishViaPullRequest`. */
  function Land(s: Git, w: Replies, branch: string, base: string): (Git, Outcome) {
    var (s1, answer) := Push(s, w.landPush, branch);
    if !answer.Accepted? then (s1, Threw)
    else
      var (s2, pr) := EnsurePr(s1, w, branch, base);
      if !pr then (s2, if w.open.NoCommits? && w.findMerged then ViaPullRequest else Threw)
      else if w.gate.Already? then (s2, ViaPullRequest)
      else if !w.gate.Ready? then (s2, Threw)
      else
        var (s3, merged) := Merge(s2, w, branch);
        (s3, if merged then ViaPullRequest else Threw)
  }

  /** An empty trunk gets its first ref before the run branch can become the default branch. */
  function FirstPush(s: Git, w: Replies, branch: string, base: string): (Git, Outcome) {
    var (s1, answer) := Push(s, w.trunkPush, base);
    if !answer.Accepted? then (s1, Threw)
    else
      var (s2, durable) := PushRunBranch(s1, w.runPush, branch);
      (s2, if durable then DirectPush(s2.head) else Threw)
  }

  /** Nothing before this point touches the remote. */
  function Prepared(s: Git, w: Replies, job: Job): Git {
    Squash(CommitStray(s, w, job).0, w, job.baseSha)
  }

  /** The run branch is pushed, and if it got there the landing follows. */
  function PushThenLand(s: Git, w: Replies, branch: string, base: string): (Git, Outcome) {
    var (s1, durable) := PushRunBranch(s, w.runPush, branch);
    if durable then Land(s1, w, branch, base) else (s1, Threw)
  }

  function Integrate(s: Git, w: Replies, job: Job): (Git, Outcome) {
    var base := Trunk(s, w, job);
    if IsRunBranch(base) then (s, Threw)
    else if w.trunkRead && base in s.refs then PushThenLand(s, w, job.branch, base)
    else FirstPush(s, w, job.branch, base)
  }

  /** Case 2 of `ensurePublished`. */
  function PublishOwned(s: Git, w: Replies, job: Job): (Git, Outcome) {
    if !CommitStray(s, w, job).1 then (CommitStray(s, w, job).0, Threw)
    else if !w.noHarness then (Prepared(s, w, job), Threw)
    else Integrate(Prepared(s, w, job), w, job)
  }

  // ------------------------------------------------------------ squashing

  /** Adding commits changes nothing about the old ones. */
  lemma {:induction false} ReachesGrows(objects: seq<Commit>, more: seq<Commit>, a: Sha, b: Sha)
    requires b < |objects|
    ensures Reaches(objects, a, b) <==> Reaches(objects + more, a, b)
    decreases b
  {
    var all := objects + more;
    assert all[b] == objects[b];
    forall p | p in objects[b].parents && p < b ensures Reaches(objects, a, p) <==> Reaches(all, a, p) {
      ReachesGrows(objects, more, a, p);
    }
  }

  /** A commit on top of `base` reaches itself and what `base` reaches. */
  lemma ReachesChild(objects: seq<Commit>, base: Sha, tree: Tree, a: Sha)
    requires base < |objects|
    ensures var all := objects + [Commit([base], tree)];
            Reaches(all, a, |objects|) <==> a == |objects| || Reaches(objects, a, base)
  {
    var all := objects + [Commit([base], tree)];
    ReachesGrows(objects, [Commit([base], tree)], a, base);
    assert all[|objects|].parents == [base];
    assert base in all[|objects|].parents;
  }

  lemma {:induction false} ReachesOlder(objects: seq<Commit>, a: Sha, b: Sha)
    requires Reaches(objects, a, b)
    ensures a <= b
    decreases b
  {
    if a != b {
      var p :| p in objects[b].parents && p < b && Reaches(objects, a, p);
      ReachesOlder(objects, a, p);
    }
  }

  /** The squash did reset and commit. */
  predicate Squashed(s: Git, w: Replies, base: Option<Sha>) {
    Squashes(s, w, base) && w.squashCommit && s.index != s.TreeOf(base.value)
  }

  /**
   * HEAD keeps its tree exactly when nothing else was staged (if the commit is made), and when the
   * rollback works or the squash had nothing to change (if it is not).
   */
  lemma SquashKeepsTreeIff(s: Git, w: Replies, base: Option<Sha>)
    requires Wf(s)
    ensures var s' := Squash(s, w, base);
            s'.TreeOf(s'.head) == s.TreeOf(s.head) <==>
              if Squashed(s, w, base) then s.CleanIndex()
              else Squashes(s, w, base) ==> w.restore || s.TreeOf(base.value) == s.TreeOf(s.head)
  {
  }

  /** Nothing is squashed on a guess: no base, a base HEAD does not come from, one commit, or any failure. */
  lemma SquashIsNoGuess(s: Git, w: Replies, base: Option<Sha>)
    requires || base.None? || base.value >= |s.objects| || !Reaches(s.objects, base.value, s.head)
             || |Range(s.objects, base.value, s.head)| <= 1
             || !w.tip || !w.base || !w.ancestor || !w.count || !w.reset
    ensures Squash(s, w, base) == s
  {
  }

  /** Otherwise the commits since the base become one, or, if that fails and the rollback works, stay. */
  lemma SquashOrStay(s: Git, w: Replies, base: Sha)
    requires Wf(s) && base < |s.objects| && base != s.head && Reaches(s.objects, base, s.head)
    requires |Range(s.objects, base, s.head)| > 1 && w.tip && w.base && w.ancestor && w.count && w.reset
    ensures var s' := Squash(s, w, Some(base));
            if w.squashCommit && s.index != s.TreeOf(base) then s'.head == |s.objects| && s'.objects == s.objects + [Commit([base], s.index)]
            else s'.objects == s.objects && s'.head == if w.restore then s.head else base
  {
  }

  /** A squash leaves one commit directly on the worker's base, and all of the base's history. */
  lemma SquashIsOneCommit(s: Git, w: Replies, base: Option<Sha>)
    requires Wf(s) && Squashed(s, w, base)
    ensures var s' := Squash(s, w, base);
            && Range(s'.objects, base.value, s'.head) == {s'.head}
            && (forall a :: Reaches(s'.objects, a, s'.head) <==> a == s'.head || Reaches(s.objects, a, base.value))
  {
    var s' := Squash(s, w, base);
    assert s'.objects == s.objects + [Commit([base.value], s.index)] && s'.head == |s.objects|;
    forall a ensures Reaches(s'.objects, a, s'.head) <==> a == s'.head || Reaches(s.objects, a, base.value) {
      ReachesChild(s.objects, base.value, s.index, a);
    }
    forall a ensures Reaches(s'.objects, a, base.value) <==> Reaches(s.objects, a, base.value) {
      ReachesGrows(s.objects, [Commit([base.value], s.index)], a, base.value);
    }
    if Reaches(s.objects, s'.head, base.value) { ReachesOlder(s.objects, s'.head, base.value); }
    forall x ensures x in Range(s'.objects, base.value, s'.head) <==> x == s'.head { }
  }

  /** The attempt went back to the old tip. */
  predicate RolledBack(s: Git, w: Replies, base: Option<Sha>) {
    Squashes(s, w, base) && !Squashed(s, w, base) && w.restore
  }

  predicate SameAt(a: Tree, b: Tree, path: string) {
    if path in a && path in b then a[path] == b[path] else path !in a && path !in b
  }

  predicate Tracked(s: Git, path: string) {
    path in s.index || path in s.TreeOf(s.head)
  }

  /** Every tracked file is as HEAD has it. */
  ghost predicate NoTrackedEdits(s: Git) {
    forall path :: Tracked(s, path) ==> SameAt(s.work, s.TreeOf(s.head), path)
  }

  /**
   * The rollback is a hard reset: an attempt leaves the working directory alone exactly when it does
   * not roll back, or there are no loose edits to tracked files.
   */
  lemma LooseWorkSurvivesIff(s: Git, w: Replies, base: Option<Sha>)
    ensures Squash(s, w, base).work == s.work <==> (RolledBack(s, w, base) ==> NoTrackedEdits(s))
  {
    if RolledBack(s, w, base) {
      var after := (s.work - s.index.Keys) + s.TreeOf(s.head);
      assert Squash(s, w, base).work == after;
      if NoTrackedEdits(s) {
        forall path ensures SameAt(after, s.work, path) {
          if Tracked(s, path) { assert SameAt(s.work, s.TreeOf(s.head), path); }
        }
        forall path | path in after || path in s.work ensures path in after && path in s.work && after[path] == s.work[path] {
          assert SameAt(after, s.work, path);
        }
        assert after == s.work;
      } else {
        var path :| Tracked(s, path) && !SameAt(s.work, s.TreeOf(s.head), path);
        assert SameAt(after, s.TreeOf(s.head), path);
      }
    }
  }

  /** New files that git does not know survive every attempt. */
  lemma UntrackedFilesSurvive(s: Git, w: Replies, base: Option<Sha>, path: string)
    requires !Tracked(s, path)
    ensures SameAt(Squash(s, w, base).work, s.work, path)
  {
  }

  // ------------------------------------------------------ effects in order

  ghost predicate SameRemote(s: Git, s': Git) {
    s'.refs == s.refs && s'.default == s.default && s'.effects == s.effects && s'.openPr == s.openPr
  }

  lemma PreparedKeeps(s: Git, w: Replies, job: Job)
    requires Wf(s)
    ensures SameRemote(s, Prepared(s, w, job)) && SameRemote(s, CommitStray(s, w, job).0)
    ensures Wf(Prepared(s, w, job)) && Wf(CommitStray(s, w, job).0)
    ensures s.objects <= CommitStray(s, w, job).0.objects <= Prepared(s, w, job).objects
  {
    var s1 := CommitStray(s, w, job).0;
    var s2 := Squash(s1, w, job.baseSha);
    assert Wf(s1);
    assert SameRemote(s, s1);
    SquashWf(s1, w, job.baseSha);
  }

  lemma SquashWf(s: Git, w: Replies, base: Option<Sha>)
    requires Wf(s)
    ensures Wf(Squash(s, w, base)) && SameRemote(s, Squash(s, w, base)) && s.objects <= Squash(s, w, base).objects
  {
  }

  /** The effects of one attempt. */
  function NewEffects(s: Git, w: Replies, job: Job): seq<Effect> {
    var after := PublishOwned(s, w, job).0.effects;
    if |s.effects| <= |after| then after[|s.effects|..] else []
  }

  /** The trunk an attempt works with. */
  function Base(s: Git, w: Replies, job: Job): string {
    Trunk(Prepared(s, w, job), w, job)
  }

  /** No earlier step threw. */
  predicate ReachesIntegration(s: Git, w: Replies, job: Job) {
    CommitStray(s, w, job).1 && w.noHarness
  }

  /**
   * The effects an attempt can have, spelled out: nothing, the first push of an absent trunk followed
   * by the run branch, or the run branch (once or twice), then a pull request, then a merge, then the
   * deletion of the run branch.
   */
  ghost predicate Shape(effects: seq<Effect>, branch: string, base: string, head: Sha, trunkThere: bool) {
    if trunkThere then
      exists n: nat, newPr: bool, ending: seq<Effect> ::
        Plan(n, newPr, ending, branch) && effects == Branches(branch, head, n) + Opening(branch, base, newPr) + ending
    else
      effects in {[], [Pushed(base, head)], [Pushed(base, head), Pushed(branch, head)]}
  }

  ghost predicate Plan(n: nat, newPr: bool, ending: seq<Effect>, branch: string) {
    n <= 2 && Ending(ending, branch) && (newPr || ending != [] ==> n >= 1)
  }

  /** A merge, and after it perhaps the deletion of the run branch. */
  ghost predicate Ending(ending: seq<Effect>, branch: string) {
    ending == [] || (ending[0].Merged? && ending[0].ref != branch && ending[1..] in {[], [Deleted(branch)]})
  }

  function Branches(branch: string, head: Sha, n: nat): seq<Effect> {
    seq(n, _ => Pushed(branch, head))
  }

  function Opening(branch: string, base: string, newPr: bool): seq<Effect> {
    if newPr then [PrOpened(branch, base)] else []
  }

  lemma MergeShape(s: Git, w: Replies, branch: string) returns (ending: seq<Effect>)
    ensures Merge(s, w, branch).0.effects == s.effects + ending && Ending(ending, branch)
  {
    var after := Merge(s, w, branch).0;
    ending := [];
    if !w.merge.Refused? && Mergeable(s, branch) {
      var merged := Merged(s.openPr.value, |s.objects|);
      ending := if w.merge.BranchKept? || s.default == Some(branch) then [merged] else [merged] + [Deleted(branch)];
      assert s.effects + [merged] + [Deleted(branch)] == s.effects + ([merged] + [Deleted(branch)]);
      assert [merged][1..] == [] && ([merged] + [Deleted(branch)])[1..] == [Deleted(branch)];
    }
  }

  lemma LandShape(s: Git, w: Replies, branch: string, base: string)
    returns (n: nat, newPr: bool, ending: seq<Effect>)
    ensures Land(s, w, branch, base).0.effects
            == s.effects + Branches(branch, s.head, n) + Opening(branch, base, newPr) + ending
    ensures n <= 1 && Plan(n, newPr, ending, branch)
  {
    var (s1, answer) := Push(s, w.landPush, branch);
    n := if s1.effects == s.effects then 0 else 1;
    newPr, ending := false, [];
    assert s1.effects == s.effects + Branches(branch, s.head, n);
    if answer.Accepted? {
      var (s2, pr) := EnsurePr(s1, w, branch, base);
      newPr := s2.effects != s1.effects;
      assert s2.effects == s1.effects + Opening(branch, base, newPr);
      if pr && w.gate.Ready? { ending := MergeShape(s2, w, branch); }
    }
  }

  lemma PushThenLandShape(s: Git, w: Replies, branch: string, base: string)
    returns (n: nat, newPr: bool, ending: seq<Effect>)
    ensures PushThenLand(s, w, branch, base).0.effects
            == s.effects + (Branches(branch, s.head, n) + Opening(branch, base, newPr) + ending)
    ensures Plan(n, newPr, ending, branch)
  {
    var (s1, durable) := PushRunBranch(s, w.runPush, branch);
    var k: nat := if s1.effects == s.effects then 0 else 1;
    n, newPr, ending := 0, false, [];
    if durable { n, newPr, ending := LandShape(s1, w, branch, base); }
    assert s1.effects == s.effects + Branches(branch, s.head, k);
    assert Branches(branch, s.head, k) + Branches(branch, s.head, n) == Branches(branch, s.head, k + n);
    Regroup(s.effects, Branches(branch, s.head, k), Branches(branch, s.head, n), Opening(branch, base, newPr), ending);
    n := k + n;
  }

  lemma Regroup<T>(a: seq<T>, b: seq<T>, c: seq<T>, d: seq<T>, e: seq<T>)
    ensures a + b + c + d + e == a + ((b + c) + d + e)
  {
  }

  lemma IntegrateShape(s: Git, w: Replies, job: Job)
    requires !IsRunBranch(Trunk(s, w, job))
    ensures var base := Trunk(s, w, job);
            var after := Integrate(s, w, job).0.effects;
            && |s.effects| <= |after| && after[..|s.effects|] == s.effects
            && Shape(after[|s.effects|..], job.branch, base, s.head, w.trunkRead && base in s.refs)
  {
    var base := Trunk(s, w, job);
    if w.trunkRead && base in s.refs {
      var n, newPr, ending := PushThenLandShape(s, w, job.branch, base);
      var news := Branches(job.branch, s.head, n) + Opening(job.branch, base, newPr) + ending;
      assert Integrate(s, w, job) == PushThenLand(s, w, job.branch, base);
      assert (s.effects + news)[|s.effects|..] == news;
      assert Shape(news, job.branch, base, s.head, true);
    } else {
      FirstPushShape(s, w, job.branch, base);
    }
  }

  lemma FirstPushShape(s: Git, w: Replies, branch: string, base: string)
    ensures var after := FirstPush(s, w, branch, base).0.effects;
            && |s.effects| <= |after| && after[..|s.effects|] == s.effects
            && Shape(after[|s.effects|..], branch, base, s.head, false)
  {
    var after := FirstPush(s, w, branch, base).0.effects;
    var s1 := Push(s, w.trunkPush, base).0;
    if after == s.effects {
      assert after[|s.effects|..] == [];
    } else if after == s1.effects {
      assert after[|s.effects|..] == [Pushed(base, s.head)];
    } else {
      assert after[|s.effects|..] == [Pushed(base, s.head), Pushed(branch, s.head)];
    }
  }

  /** An attempt's effects have that shape, whichever command fails. */
  lemma AttemptShape(s: Git, w: Replies, job: Job)
    requires Wf(s)
    ensures !ReachesIntegration(s, w, job) || IsRunBranch(Base(s, w, job)) ==> NewEffects(s, w, job) == []
    ensures ReachesIntegration(s, w, job) && !IsRunBranch(Base(s, w, job)) ==>
              Shape(NewEffects(s, w, job), job.branch, Base(s, w, job), Prepared(s, w, job).head,
                    w.trunkRead && Base(s, w, job) in s.refs)
  {
    PreparedKeeps(s, w, job);
    if ReachesIntegration(s, w, job) && !IsRunBranch(Base(s, w, job)) {
      IntegrateShape(Prepared(s, w, job), w, job);
    }
  }

  /** Nothing is pushed, opened or merged when the trunk is a run branch, and the attempt throws. */
  lemma RunBranchTrunkRefused(s: Git, w: Replies, job: Job)
    requires Wf(s) && IsRunBranch(Base(s, w, job))
    ensures PublishOwned(s, w, job).1 == Threw
    ensures SameRemote(s, PublishOwned(s, w, job).0)
  {
    PreparedKeeps(s, w, job);
  }

  /** Before effect `k` the finished work was pushed to the run branch. */
  ghost predicate DurableBefore(effects: seq<Effect>, branch: string, head: Sha, k: nat) {
    exists j :: 0 <= j < k && j < |effects| && effects[j] == Pushed(branch, head)
  }

  predicate Moves(e: Effect, ref: string) {
    (e.Pushed? || e.Merged?) && e.ref == ref
  }

  /** In that shape everything that is not a push of the run branch comes after one. */
  lemma ShapeOrder(effects: seq<Effect>, branch: string, base: string, head: Sha, k: nat)
    requires Shape(effects, branch, base, head, true) && k < |effects| && effects[k] != Pushed(branch, head)
    ensures DurableBefore(effects, branch, head, k)
  {
    var n: nat, newPr: bool, ending: seq<Effect> :|
      Plan(n, newPr, ending, branch) && effects == Branches(branch, head, n) + Opening(branch, base, newPr) + ending;
    assert k >= n;
    assert n >= 1;
    assert effects[0] == Pushed(branch, head);
  }

  /** No pull request opens before the finished commit itself is on the remote as the run branch. */
  lemma PrOnlyAfterBranch(s: Git, w: Replies, job: Job, k: nat)
    requires Wf(s) && k < |NewEffects(s, w, job)| && NewEffects(s, w, job)[k].PrOpened?
    ensures DurableBefore(NewEffects(s, w, job), job.branch, Prepared(s, w, job).head, k)
  {
    AttemptShape(s, w, job);
    ShapeOrder(NewEffects(s, w, job), job.branch, Base(s, w, job), Prepared(s, w, job).head, k);
  }

  /** Some effect moves the existing trunk before the finished commit is on the run branch. */
  ghost predicate TrunkMovesEarly(s: Git, w: Replies, job: Job) {
    && Base(s, w, job) in s.refs
    && exists k :: 0 <= k < |NewEffects(s, w, job)| && Moves(NewEffects(s, w, job)[k], Base(s, w, job))
         && !DurableBefore(NewEffects(s, w, job), job.branch, Prepared(s, w, job).head, k)
  }

  /**
   * An existing trunk moves first exactly when its existence could not be read: the read answers
   * "absent" on any failure, and HEAD is then pushed to it directly.
   */
  lemma TrunkMovesEarlyIff(s: Git, w: Replies, job: Job)
    requires Wf(s) && job.branch != Base(s, w, job) && Base(s, w, job) in s.refs
    ensures TrunkMovesEarly(s, w, job) <==>
              && ReachesIntegration(s, w, job) && !IsRunBranch(Base(s, w, job))
              && !w.trunkRead && !w.trunkPush.Fails? && FastForward(Prepared(s, w, job), Base(s, w, job))
  {
    AttemptShape(s, w, job);
    PreparedKeeps(s, w, job);
    var base, p, news := Base(s, w, job), Prepared(s, w, job), NewEffects(s, w, job);
    if ReachesIntegration(s, w, job) && !IsRunBranch(base) {
      if w.trunkRead {
        forall k | 0 <= k < |news| && Moves(news[k], base) ensures DurableBefore(news, job.branch, p.head, k) {
          ShapeOrder(news, job.branch, base, p.head, k);
        }
      } else if !w.trunkPush.Fails? && FastForward(p, base) {
        assert Push(p, w.trunkPush, base).0.effects == s.effects + [Pushed(base, p.head)];
        assert news[0] == Pushed(base, p.head);
        assert Moves(news[0], base) && !DurableBefore(news, job.branch, p.head, 0);
      } else {
        assert news == [];
      }
    }
  }

  /** On a repository with no refs the trunk is the first one pushed, and it becomes the default branch. */
  lemma BranchlessTrunkFirst(s: Git, w: Replies, job: Job)
    requires Wf(s) && s.refs == map[] && NewEffects(s, w, job) != []
    ensures NewEffects(s, w, job)[0] == Pushed(Base(s, w, job), Prepared(s, w, job).head)
    ensures PublishOwned(s, w, job).0.default == Some(Base(s, w, job)) && !IsRunBranch(Base(s, w, job))
  {
    AttemptShape(s, w, job);
    PreparedKeeps(s, w, job);
    hide Prepared, Wf, CommitStray, Trunk, IsRunBranch, PushThenLand, FirstPush;
    FirstPushFills(Prepared(s, w, job), w, job.branch, Base(s, w, job));
  }

  /** On a repository with no refs a first push that leaves any effect makes the trunk the default branch. */
  lemma FirstPushFills(s: Git, w: Replies, branch: string, base: string)
    requires s.refs == map[]
    ensures var s' := FirstPush(s, w, branch, base).0;
            s'.effects == s.effects || (s'.default == Some(base) && |s'.effects| > |s.effects|)
  {
    var (s1, answer) := Push(s, w.trunkPush, base);
    if answer.Accepted? { assert base in s1.refs; }
  }

  /** A push changes the default branch only of a repository without refs. */
  lemma PushDefault(s: Git, how: How, ref: string)
    ensures Push(s, how, ref).0.default == s.default || (s.refs == map[] && Push(s, how, ref).0.default == Some(ref))
    ensures s.refs != map[] ==> Push(s, how, ref).0.refs != map[]
  {
  }

  lemma LandDefault(s: Git, w: Replies, branch: string, base: string)
    requires s.refs != map[]
    ensures Land(s, w, branch, base).0.default == s.default
  {
    PushDefault(s, w.landPush, branch);
    var s2 := EnsurePr(Push(s, w.landPush, branch).0, w, branch, base).0;
    assert s2.default == s.default && Merge(s2, w, branch).0.default == s.default;
  }

  lemma FirstPushDefault(s: Git, w: Replies, branch: string, base: string)
    ensures FirstPush(s, w, branch, base).0.default in {s.default, Some(base)}
  {
    var s1 := Push(s, w.trunkPush, base).0;
    PushDefault(s, w.trunkPush, base);
    PushDefault(s1, w.runPush, branch);
    if Push(s, w.trunkPush, base).1.Accepted? { assert base in s1.refs; }
  }

  /** Publishing never leaves a run branch as the default branch of a repository that had none there. */
  lemma DefaultNeverRunBranch(s: Git, w: Replies, job: Job)
    requires Wf(s) && (s.default.Some? ==> !IsRunBranch(s.default.value))
    ensures var d := PublishOwned(s, w, job).0.default; d.Some? ==> !IsRunBranch(d.value)
  {
    PreparedKeeps(s, w, job);
    if ReachesIntegration(s, w, job) { IntegrateDefault(Prepared(s, w, job), w, job); }
  }

  lemma IntegrateDefault(s: Git, w: Replies, job: Job)
    ensures Integrate(s, w, job).0.default == s.default
            || (!IsRunBranch(Trunk(s, w, job)) && Integrate(s, w, job).0.default == Some(Trunk(s, w, job)))
  {
    var base := Trunk(s, w, job);
    if w.trunkRead && base in s.refs {
      PushDefault(s, w.runPush, job.branch);
      LandDefault(PushRunBranch(s, w.runPush, job.branch).0, w, job.branch, base);
    } else {
      FirstPushDefault(s, w, job.branch, base);
    }
  }
}
