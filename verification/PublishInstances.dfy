/** Concrete checkouts and remotes on which the promises of publishing fail. */
module PublishInstances {
  import opened Wrappers
  import opened Publish
  import opened PublishOutcome

  const BASE := map["a" := 0]
  const DRAFT := map["a" := 1]
  const FINAL := map["a" := 2]
  const MORE := map["a" := 3]

  const BRANCH := "beckett/x"
  const JOB := Job(BRANCH, "", Some(0), true, false)

  /** Two checkpoints on the worker's base, the trunk still at the base. */
  const CHECKPOINTS := [Commit([], BASE), Commit([0], DRAFT), Commit([1], FINAL)]
  const START := Git(CHECKPOINTS, 2, FINAL, FINAL, map["main" := 0], Some("main"), None, [])

  lemma TwoCommits(objects: seq<Commit>, base: Sha, tip: Sha, a: Sha, b: Sha)
    requires a != b && a in Range(objects, base, tip) && b in Range(objects, base, tip)
    ensures |Range(objects, base, tip)| > 1
  {
    var range := Range(objects, base, tip);
    assert range == (range - {a, b}) + {a, b};
  }

  /** A commit and its only parent. */
  lemma ParentReaches(objects: seq<Commit>, parent: Sha, child: Sha)
    requires parent < child < |objects| && objects[child].parents == [parent]
    ensures forall a :: Reaches(objects, a, child) <==> a == child || Reaches(objects, a, parent)
  {
    assert parent in objects[child].parents;
  }

  lemma RootReaches(objects: seq<Commit>, root: Sha)
    requires root < |objects| && objects[root].parents == []
    ensures forall a :: Reaches(objects, a, root) <==> a == root
  {
  }

  lemma SquashOfTwo(s: Git, w: Replies, mid: Sha)
    requires 0 < mid < s.head < |s.objects|
    requires s.objects[0].parents == [] && s.objects[mid].parents == [0] && s.objects[s.head].parents == [mid]
    requires w.tip && w.base && w.ancestor && w.count && w.reset
    ensures Squashes(s, w, Some(0))
  {
    RootReaches(s.objects, 0);
    ParentReaches(s.objects, 0, mid);
    ParentReaches(s.objects, mid, s.head);
    TwoCommits(s.objects, 0, s.head, mid, s.head);
  }

  // ------------------------------------------------------- trunk moves early

  /** One unreadable answer about the trunk, and HEAD is on it before it is anywhere else. */
  lemma EarlyTrunkHappens()
    ensures var s := START.(head := 1, index := DRAFT, work := DRAFT);
            var w, job := FAIR.(trunkRead := false), JOB.(baseSha := None);
            && Wf(s) && PublishOwned(s, w, job).1.DirectPush?
            && NewEffects(s, w, job) == [Pushed("main", 1), Pushed(BRANCH, 1)] && TrunkMovesEarly(s, w, job)
  {
    var s := START.(head := 1, index := DRAFT, work := DRAFT);
    var w, job := FAIR.(trunkRead := false), JOB.(baseSha := None);
    RootReaches(s.objects, 0);
    ParentReaches(s.objects, 0, 1);
    assert Prepared(s, w, job) == s;
    assert Trunk(s, w, job) == "main" && !IsRunBranch("main");
    var t := Push(s, w.trunkPush, "main").0;
    assert t.effects == [Pushed("main", 1)] && BRANCH !in t.refs;
    assert NewEffects(s, w, job) == [Pushed("main", 1), Pushed(BRANCH, 1)];
    TrunkMovesEarlyIff(s, w, job);
  }

  // ---------------------------------------------------------------- a merge

  /** The ordinary success: the squash is on the trunk with HEAD's tree, and the run branch is gone. */
  lemma MergeDeletesBranch()
    ensures var s, job := START.(head := 1, index := DRAFT, work := DRAFT), JOB.(baseSha := None);
            var (s', o) := PublishOwned(s, FAIR, job);
            && o.ViaPullRequest? && BRANCH !in s'.refs && "main" in s'.refs && s'.TreeOf(s'.refs["main"]) == DRAFT
            && s'.effects == [Pushed(BRANCH, 1), Pushed(BRANCH, 1), PrOpened(BRANCH, "main"), Merged("main", 3), Deleted(BRANCH)]
  {
    var s, job := START.(head := 1, index := DRAFT, work := DRAFT), JOB.(baseSha := None);
    RootReaches(s.objects, 0);
    ParentReaches(s.objects, 0, 1);
    assert Prepared(s, FAIR, job) == s;
    assert Trunk(s, FAIR, job) == "main" && !IsRunBranch("main");
    assert |BRANCH| == 9 && |"main"| == 4 && BRANCH !in s.refs && "main" in s.refs;
    var s1 := Push(s, Works, BRANCH).0;
    assert s1 == s.(refs := map["main" := 0, BRANCH := 1], effects := [Pushed(BRANCH, 1)]);
    var s2 := Push(s1, Works, BRANCH).0;
    assert s2 == s1.(effects := [Pushed(BRANCH, 1), Pushed(BRANCH, 1)]);
    var s3 := EnsurePr(s2, FAIR, BRANCH, "main").0;
    assert s3 == s2.(openPr := Some("main"), effects := [Pushed(BRANCH, 1), Pushed(BRANCH, 1), PrOpened(BRANCH, "main")]);
    assert Mergeable(s3, BRANCH) && SquashTree(s3, FAIR, BRANCH) == DRAFT;
    var s4 := Merge(s3, FAIR, BRANCH).0;
    assert s4.refs == map["main" := 3];
  }

  // ------------------------------------------------------------- the wedge

  const PUSHED := Git(CHECKPOINTS + [Commit([0], FINAL)], 3, FINAL, FINAL, map["main" := 0, BRANCH := 3],
                      Some("main"), Some("main"), [Pushed(BRANCH, 3), Pushed(BRANCH, 3), PrOpened(BRANCH, "main")])

  /** The first attempt squashes and pushes, and gives up waiting for CI. */
  lemma FirstAttempt()
    ensures PublishOwned(START, FAIR.(gate := TimedOut), JOB) == (PUSHED, Threw)
  {
    var w := FAIR.(gate := TimedOut);
    SquashOfTwo(START, w, 1);
    assert FINAL["a"] == 2 && BASE["a"] == 0;
    assert |BRANCH| == 9 && |"main"| == 4 && BRANCH !in START.refs && "main" in START.refs;
    var p := START.(objects := PUSHED.objects, head := 3);
    assert Prepared(START, w, JOB) == p;
    assert Trunk(p, w, JOB) == "main" && !IsRunBranch("main");
    var s1 := Push(p, Works, BRANCH).0;
    assert s1 == p.(refs := PUSHED.refs, effects := [Pushed(BRANCH, 3)]);
    assert Reaches(s1.objects, 3, 3);
    var s2 := Push(s1, Works, BRANCH).0;
    assert s2 == s1.(effects := [Pushed(BRANCH, 3), Pushed(BRANCH, 3)]);
    var s3 := EnsurePr(s2, w, BRANCH, "main").0;
    assert s3 == PUSHED;
  }

  const EDITED := PUSHED.(objects := PUSHED.objects + [Commit([3], MORE)], head := 4, index := MORE, work := MORE)

  /** One more edit is committed and squashed again: the pushed squash is no ancestor of the new one. */
  lemma EditWedges()
    ensures var s, p := PUSHED.(work := MORE), Prepared(PUSHED.(work := MORE), FAIR, JOB);
            Wf(s) && CommitStray(s, FAIR, JOB).1 && Wf(p) && Wedged(p, JOB) && SameRemote(PUSHED, p)
  {
    var s := PUSHED.(work := MORE);
    assert MORE["a"] == 3 && FINAL["a"] == 2 && BASE["a"] == 0;
    assert CommitStray(s, FAIR, JOB) == (EDITED, true);
    SquashOfTwo(EDITED, FAIR, 3);
    RootReaches(EDITED.objects, 0);
    assert Wf(s) && Wf(EDITED);
    ResquashWedges(EDITED, FAIR, JOB);
    PreparedKeeps(s, FAIR, JOB);
  }

  /** After that edit no attempt that sees the trunk can ever land, whatever else happens. */
  lemma WedgeHappens(rs: seq<Retry>)
    requires forall r :: r in rs ==> r.replies.trunkRead
    ensures var s := PublishOwned(START, FAIR.(gate := TimedOut), JOB).0;
            var (s', o) := PublishOwned(s.(work := MORE), FAIR, JOB);
            && o.Threw? && SameRemote(s, s') && AllThrow(s', rs, JOB) && SameRemote(s, Attempts(s', rs, JOB))
  {
    FirstAttempt();
    EditWedges();
    var p := Prepared(PUSHED.(work := MORE), FAIR, JOB);
    OnMain(p, FAIR);
    WedgedPush(p, FAIR, JOB);
    assert PublishOwned(PUSHED.(work := MORE), FAIR, JOB) == (p, Threw);
    forall r | r in rs ensures AimsAtTrunk(p, r.replies, JOB) { OnMain(p, r.replies); }
    WedgedForever(p, rs, JOB);
  }

  lemma OnMain(s: Git, w: Replies)
    requires SameRemote(PUSHED, s)
    ensures Trunk(s, w, JOB) == "main" && "main" in s.refs && !IsRunBranch("main") && JOB.branch != "main"
  {
    assert |BRANCH| == 9 && |"main"| == 4;
  }

  // ---------------------------------------------------------------- squashing

  /** Something else was staged: the squash takes it into HEAD. */
  lemma StagedWorkChangesTree()
    ensures var s := START.(index := MORE);
            Wf(s) && Squashed(s, FAIR, Some(0)) && Squash(s, FAIR, Some(0)).TreeOf(Squash(s, FAIR, Some(0)).head) == MORE != s.TreeOf(s.head)
  {
    var s := START.(index := MORE);
    SquashOfTwo(s, FAIR, 1);
    assert MORE["a"] == 3 && FINAL["a"] == 2 && BASE["a"] == 0;
  }

  /** The commit fails: the rollback drops an edit to a tracked file and keeps a new file. */
  lemma RollbackDropsEdits()
    ensures var w := FAIR.(squashCommit := false);
            && Squash(START.(work := MORE), w, Some(0)).work == FINAL
            && Squash(START.(work := FINAL["new" := 7]), w, Some(0)).work == FINAL["new" := 7]
  {
    var w := FAIR.(squashCommit := false);
    SquashOfTwo(START.(work := MORE), w, 1);
    SquashOfTwo(START.(work := FINAL["new" := 7]), w, 1);
    assert MORE - FINAL.Keys + FINAL == FINAL;
    assert FINAL["new" := 7] - FINAL.Keys + FINAL == FINAL["new" := 7];
  }

  /** And if the rollback fails too, the checkout is left at the worker's base. */
  lemma FailedRollbackLosesTheRun()
    ensures var w := FAIR.(squashCommit := false, restore := false);
            Squash(START, w, Some(0)).head == 0 && Squash(START, w, Some(0)).TreeOf(0) != START.TreeOf(START.head)
  {
    SquashOfTwo(START, FAIR.(squashCommit := false, restore := false), 1);
    assert FINAL["a"] == 2 && BASE["a"] == 0;
  }
}
