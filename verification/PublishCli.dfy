/**
 * The publisher as it runs: one git command after the other, each changing the checkout or the
 * remote, proved to do what Publish says of a whole attempt.
 */
module PublishCli {
  import opened Wrappers
  import opened Publish
  import Results = PublishOutcome

  class GitHubCli {
    const w: Replies
    var git: Git

    constructor (w: Replies, git: Git)
      ensures this.w == w && this.git == git
    {
      this.w, this.git := w, git;
    }

    // ------------------------------------------------------- git commands

    method Commit(works: bool) returns (ok: bool)
      modifies this
      ensures (git, ok) == CommitIndex(old(git), works)
    {
      ok := works && git.index != git.TreeOf(git.head);
      if ok {
        var sha := |git.objects|;
        git := git.(objects := git.objects + [Publish.Commit([git.head], git.index)]);
        git := git.(head := sha);
      }
    }

    method ResetSoft(to: Sha)
      modifies this
      ensures git == old(git).(head := to)
    {
      git := git.(head := to);
    }

    /** Tracked files are replaced by the commit's; untracked ones stay unless the commit has them. */
    method HardReset(to: Sha)
      modifies this
      ensures git == ResetHard(old(git), to)
    {
      var tree := git.TreeOf(to);
      var untracked := git.work - git.index.Keys;
      git := git.(head := to, index := tree);
      git := git.(work := untracked + tree);
    }

    method GitPush(how: How, ref: string) returns (answer: PushAnswer)
      modifies this
      ensures (git, answer) == Push(old(git), how, ref)
    {
      if how.Fails? { return Broke; }
      if ref in git.refs && !Reaches(git.objects, git.refs[ref], git.head) {
        return if how.Works? then Rejected else Broke;
      }
      if git.refs == map[] { git := git.(default := Some(ref)); }
      git := git.(refs := git.refs[ref := git.head], effects := git.effects + [Pushed(ref, git.head)]);
      answer := if how.Works? then Accepted else Broke;
    }

    // ------------------------------------------------------- the checkout

    method CommitStrayWorkingTree(job: Job) returns (ok: bool)
      modifies this
      ensures (git, ok) == CommitStray(old(git), w, job)
    {
      if !(w.ownWorktree && job.inRunWorktree) { return true; }
      if !w.status || (git.work == git.TreeOf(git.head) && git.CleanIndex()) { return true; }
      if job.conflicted { return false; }
      if !w.add { return true; }
      git := git.(index := git.work);
      if w.diff && git.CleanIndex() { return true; }
      var _ := Commit(w.strayCommit);
      ok := true;
    }

    method SquashLocalCommits(base: Option<Sha>)
      modifies this
      ensures git == Squash(old(git), w, base)
    {
      if base.None? || !w.tip || !w.base || base.value >= |git.objects| { return; }
      var tip := git.head;
      if base.value == tip { return; }
      if !w.ancestor || !Reaches(git.objects, base.value, tip) { return; }
      if !w.count || |Range(git.objects, base.value, tip)| <= 1 { return; }
      if !w.reset { return; }
      ResetSoft(base.value);
      var committed := Commit(w.squashCommit);
      if !committed && w.restore { HardReset(tip); }
    }

    // --------------------------------------------------------- the remote

    /** A rejected push means the branch is there already; any other failure is the caller's. */
    method PushOwnBranch(branch: string) returns (ok: bool)
      modifies this
      ensures (git, ok) == PushRunBranch(old(git), w.runPush, branch)
    {
      var answer := GitPush(w.runPush, branch);
      ok := answer.Accepted? || answer.Rejected?;
    }

    method EnsurePullRequest(branch: string, base: string) returns (ok: bool)
      modifies this
      ensures (git, ok) == EnsurePr(old(git), w, branch, base)
    {
      if w.findPr && git.openPr.Some? { return true; }
      var heard := false;
      if git.openPr.None? && branch != base && (w.open.Opens? || w.open.OpensUnheard?) {
        git := git.(openPr := Some(base), effects := git.effects + [PrOpened(branch, base)]);
        heard := w.open.Opens?;
      }
      ok := heard || (w.refindPr && git.openPr.Some?);
    }

    /** Merge the open pull request, then delete the run branch. */
    method MergePullRequest(branch: string) returns (ok: bool)
      modifies this
      ensures (git, ok) == Merge(old(git), w, branch)
    {
      if w.merge.Refused? || !Mergeable(git, branch) { return false; }
      var target, sha := git.openPr.value, |git.objects|;
      var tree := SquashTree(git, w, branch);
      git := git.(objects := git.objects + [Publish.Commit([git.refs[target]], tree)]);
      git := git.(refs := git.refs[target := sha], openPr := None, effects := git.effects + [Merged(target, sha)]);
      if w.merge.BranchKept? || git.default == Some(branch) { return false; }
      git := git.(refs := git.refs - {branch}, effects := git.effects + [Deleted(branch)]);
      ok := w.merge.Done?;
    }

    method PublishViaPullRequest(branch: string, base: string) returns (o: Outcome)
      modifies this
      ensures (git, o) == Land(old(git), w, branch, base)
    {
      var answer := GitPush(w.landPush, branch);
      if !answer.Accepted? { return Threw; }
      var pr := EnsurePullRequest(branch, base);
      if !pr { return if w.open.NoCommits? && w.findMerged then ViaPullRequest else Threw; }
      match w.gate
      case Already => o := ViaPullRequest;
      case Ready =>
        var merged := MergePullRequest(branch);
        o := if merged then ViaPullRequest else Threw;
      case _ => o := Threw;
    }

    method PushAbsentTrunk(branch: string, base: string) returns (o: Outcome)
      modifies this
      ensures (git, o) == FirstPush(old(git), w, branch, base)
    {
      var answer := GitPush(w.trunkPush, base);
      if !answer.Accepted? { return Threw; }
      var durable := PushOwnBranch(branch);
      o := if durable then DirectPush(git.head) else Threw;
    }

    /** The owned-repository case, from the loose work to the landed change. */
    method EnsurePublished(job: Job) returns (o: Outcome)
      modifies this
      ensures (git, o) == PublishOwned(old(git), w, job)
      ensures Wf(old(git)) ==>
                forall ref :: ref in old(git).refs ==>
                  Results.Kept(old(git), git, ref) || (ref == job.branch && Results.BranchDeleted(old(git), w, job))
    {
      if Wf(git) { Results.PublishOnlyForward(git, w, job); }
      o := Attempt(job);
    }

    method Attempt(job: Job) returns (o: Outcome)
      modifies this
      ensures (git, o) == PublishOwned(old(git), w, job)
    {
      var clean := CommitStrayWorkingTree(job);
      if !clean { return Threw; }
      SquashLocalCommits(job.baseSha);
      if !w.noHarness { return Threw; }
      var base := Trunk(git, w, job);
      if IsRunBranch(base) { return Threw; }
      var trunkThere := w.trunkRead && base in git.refs;
      if !trunkThere {
        o := PushAbsentTrunk(job.branch, base);
        return;
      }
      var durable := PushOwnBranch(job.branch);
      if !durable { return Threw; }
      o := PublishViaPullRequest(job.branch, base);
    }
  }
}
