/**
 * Whose work an attempt publishes: the run's own loose work goes into the commit that is pushed, a
 * half-finished merge stops the attempt, and in a checkout that people share nothing loose is looked at.
 */
module PublishWork {
  import opened Wrappers
  import opened Publish

  // ------------------------------------------------------ a shared checkout

  /** Only the working directories differ. */
  ghost predicate Alike(s: Git, t: Git) {
    t == s.(work := t.work)
  }

  lemma PushAlike(s: Git, t: Git, how: How, ref: string)
    requires Alike(s, t)
    ensures Alike(Push(s, how, ref).0, Push(t, how, ref).0) && Push(s, how, ref).1 == Push(t, how, ref).1
  {
  }

  lemma CommitAlike(s: Git, t: Git, works: bool)
    requires Alike(s, t)
    ensures Alike(CommitIndex(s, works).0, CommitIndex(t, works).0) && CommitIndex(s, works).1 == CommitIndex(t, works).1
  {
  }

  lemma SquashAlike(s: Git, t: Git, w: Replies, base: Option<Sha>)
    requires Alike(s, t)
    ensures Alike(Squash(s, w, base), Squash(t, w, base))
  {
    hide CommitIndex;
    if Squashes(s, w, base) { CommitAlike(s.(head := base.value), t.(head := base.value), w.squashCommit); }
  }

  lemma MergeAlike(s: Git, t: Git, w: Replies, branch: string)
    requires Alike(s, t)
    ensures Alike(Merge(s, w, branch).0, Merge(t, w, branch).0) && Merge(s, w, branch).1 == Merge(t, w, branch).1
  {
  }

  lemma LandAlike(s: Git, t: Git, w: Replies, branch: string, base: string)
    requires Alike(s, t)
    ensures Alike(Land(s, w, branch, base).0, Land(t, w, branch, base).0) && Land(s, w, branch, base).1 == Land(t, w, branch, base).1
  {
    hide Push, Merge;
    var (s1, t1) := (Push(s, w.landPush, branch).0, Push(t, w.landPush, branch).0);
    PushAlike(s, t, w.landPush, branch);
    var (s2, t2) := (EnsurePr(s1, w, branch, base).0, EnsurePr(t1, w, branch, base).0);
    MergeAlike(s2, t2, w, branch);
  }

  lemma PushThenLandAlike(s: Git, t: Git, w: Replies, branch: string, base: string)
    requires Alike(s, t)
    ensures Alike(PushThenLand(s, w, branch, base).0, PushThenLand(t, w, branch, base).0)
    ensures PushThenLand(s, w, branch, base).1 == PushThenLand(t, w, branch, base).1
  {
    hide Push, Land;
    PushAlike(s, t, w.runPush, branch);
    LandAlike(Push(s, w.runPush, branch).0, Push(t, w.runPush, branch).0, w, branch, base);
  }

  lemma FirstPushAlike(s: Git, t: Git, w: Replies, branch: string, base: string)
    requires Alike(s, t)
    ensures Alike(FirstPush(s, w, branch, base).0, FirstPush(t, w, branch, base).0)
    ensures FirstPush(s, w, branch, base).1 == FirstPush(t, w, branch, base).1
  {
    hide Push;
    PushAlike(s, t, w.trunkPush, base);
    PushAlike(Push(s, w.trunkPush, base).0, Push(t, w.trunkPush, base).0, w.runPush, branch);
  }

  lemma IntegrateAlike(s: Git, t: Git, w: Replies, job: Job)
    requires Alike(s, t)
    ensures Alike(Integrate(s, w, job).0, Integrate(t, w, job).0) && Integrate(s, w, job).1 == Integrate(t, w, job).1
  {
    hide PushThenLand, FirstPush;
    var base := Trunk(s, w, job);
    PushThenLandAlike(s, t, w, job.branch, base);
    FirstPushAlike(s, t, w, job.branch, base);
  }

  /** The checkout is proved to be one that was made for the run. */
  predicate OwnCheckout(w: Replies, job: Job) {
    w.ownWorktree && job.inRunWorktree
  }

  /**
   * In any other checkout the working directory is not looked at: for any two contents of it the attempt
   * makes the same commits, moves the same refs and ends the same way.
   */
  lemma LooseWorkStaysHome(s: Git, a: Tree, b: Tree, w: Replies, job: Job)
    requires !OwnCheckout(w, job)
    ensures var ((x, o), (y, p)) := (PublishOwned(s.(work := a), w, job), PublishOwned(s.(work := b), w, job));
            && o == p && x.objects == y.objects && x.head == y.head && x.index == y.index
            && x.refs == y.refs && x.default == y.default && x.openPr == y.openPr && x.effects == y.effects
  {
    hide Squash, Integrate;
    var s1, t1 := s.(work := a), s.(work := b);
    SquashAlike(s1, t1, w, job.baseSha);
    IntegrateAlike(Squash(s1, w, job.baseSha), Squash(t1, w, job.baseSha), w, job);
  }

  // -------------------------------------------------------- the run's checkout

  /** `git status` was read and shows something. */
  predicate SeenDirty(s: Git, w: Replies) {
    w.status && !(s.work == s.TreeOf(s.head) && s.index == s.TreeOf(s.head))
  }

  /** A half-finished merge in the run's own checkout. */
  predicate Unmerged(s: Git, w: Replies, job: Job) {
    OwnCheckout(w, job) && SeenDirty(s, w) && job.conflicted
  }

  /** A half-finished merge stops the attempt and nothing has happened, here or on the remote. */
  lemma ConflictsStop(s: Git, w: Replies, job: Job)
    requires Unmerged(s, w, job)
    ensures PublishOwned(s, w, job) == (s, Threw)
  {
  }

  /** Staging and committing go through, or there is nothing to stage. */
  predicate Collected(s: Git, w: Replies, job: Job) {
    || s.work == s.TreeOf(s.head)
    || (OwnCheckout(w, job) && w.status && !job.conflicted && w.add && w.strayCommit)
  }

  /** Before the squash HEAD holds the loose work exactly if it was collected; the files stay in any case. */
  lemma CollectedIff(s: Git, w: Replies, job: Job)
    requires Wf(s)
    ensures var s' := CommitStray(s, w, job).0;
            && (s'.TreeOf(s'.head) == s.work <==> Collected(s, w, job))
            && s'.work == s.work && s.objects <= s'.objects
            && (OwnCheckout(w, job) && w.status && !job.conflicted && w.add && w.strayCommit ==> s'.CleanIndex())
  {
  }

  /** A soft reset that cannot commit is taken back, or has nothing to take back. */
  predicate SquashHolds(s: Git, w: Replies, base: Option<Sha>) {
    Squashes(s, w, base) ==> w.squashCommit || w.restore
  }

  lemma PreparedHolds(s: Git, w: Replies, job: Job)
    requires Wf(s) && OwnCheckout(w, job) && w.status && !job.conflicted && w.add && w.strayCommit
    requires SquashHolds(CommitStray(s, w, job).0, w, job.baseSha)
    ensures var p := Prepared(s, w, job); Wf(p) && p.TreeOf(p.head) == s.work && s.objects <= p.objects
  {
    hide Squash, CommitStray;
    CollectedIff(s, w, job);
    PreparedKeeps(s, w, job);
    SquashKeepsTreeIff(CommitStray(s, w, job).0, w, job.baseSha);
  }

  /** Every push of an attempt is of the finished commit. */
  lemma PushedIsHead(s: Git, w: Replies, job: Job, e: Effect)
    requires Wf(s) && e in NewEffects(s, w, job) && e.Pushed?
    ensures e.sha == Prepared(s, w, job).head
  {
    hide Prepared, NewEffects, CommitStray, Trunk;
    AttemptShape(s, w, job);
    if w.trunkRead && Base(s, w, job) in s.refs {
      var n: nat, newPr: bool, ending: seq<Effect> :|
        Plan(n, newPr, ending, job.branch) && NewEffects(s, w, job)
        == Branches(job.branch, Prepared(s, w, job).head, n) + Opening(job.branch, Base(s, w, job), newPr) + ending;
      assert e in Branches(job.branch, Prepared(s, w, job).head, n) || e in Opening(job.branch, Base(s, w, job), newPr) || e in ending;
      if e in ending { EndingPushesNothing(ending, job.branch, e); }
    }
  }

  lemma EndingPushesNothing(ending: seq<Effect>, branch: string, e: Effect)
    requires Ending(ending, branch) && e in ending
    ensures !e.Pushed?
  {
    if e != ending[0] { assert e in ending[1..]; }
  }

  lemma RemoteKeepsObjects(s: Git, w: Replies, job: Job)
    requires Wf(s)
    ensures s.objects <= Integrate(s, w, job).0.objects
  {
  }

  /**
   * In the run's own checkout, if its loose work can be staged and committed and the squash holds: what
   * is pushed, whatever ref it is pushed to and whatever fails afterwards, is the work as it lay there.
   */
  lemma LooseWorkIsShipped(s: Git, w: Replies, job: Job, e: Effect)
    requires Wf(s) && OwnCheckout(w, job) && w.status && !job.conflicted && w.add && w.strayCommit
    requires SquashHolds(CommitStray(s, w, job).0, w, job.baseSha)
    requires e in NewEffects(s, w, job) && e.Pushed?
    ensures PublishOwned(s, w, job).0.TreeOf(e.sha) == s.work
  {
    PushedIsHead(s, w, job, e);
    PreparedHolds(s, w, job);
    hide Prepared, Integrate, Squashes;
    RemoteKeepsObjects(Prepared(s, w, job), w, job);
  }
}
