/**
 * What an attempt answers and which refs it may move, said in terms of the replies of git and GitHub
 * and the remote as it was before.
 */
module PublishAnswers {
  import opened Wrappers
  import opened Publish
  import opened PublishWork

  /** The ticket names a branch of its own to land on. */
  predicate HasTarget(job: Job) {
    job.target != "" && Lower(job.target) != "main"
  }

  /** An open pull request is found, or one is opened and heard or found again. */
  predicate PrSeen(s: Git, w: Replies, branch: string, base: string) {
    if s.openPr.Some? then w.findPr || w.refindPr
    else branch != base && (w.open.Opens? || (w.open.OpensUnheard? && w.refindPr))
  }

  /** Where the pull request goes. */
  function PrBase(s: Git, base: string): string {
    if s.openPr.Some? then s.openPr.value else base
  }

  /** GitHub is asked to merge and does. */
  predicate Merges(s: Git, w: Replies, branch: string, base: string) {
    && PrSeen(s, w, branch, base) && w.gate.Ready? && !w.merge.Refused?
    && PrBase(s, base) in s.refs && PrBase(s, base) != branch
  }

  /** The pushed branch is reported as landed. */
  predicate Settles(s: Git, w: Replies, branch: string, base: string) {
    if !PrSeen(s, w, branch, base) then w.open.NoCommits? && w.findMerged
    else w.gate.Already? || (Merges(s, w, branch, base) && w.merge.Done? && s.default != Some(branch))
  }

  /** Both pushes of the run branch are answered and the second is accepted. */
  predicate BranchPushed(s: Git, w: Replies, branch: string) {
    w.runPush.Works? && w.landPush.Works? && FastForward(s, branch)
  }

  predicate HasMerge(effects: seq<Effect>) {
    exists e :: e in effects && e.Merged?
  }

  /** Nothing of this attempt's own is on the remote but the run branch. */
  ghost predicate OnlyBranch(s: Git, t: Git, branch: string) {
    && t.openPr == s.openPr && t.default == s.default && t.head == s.head && t.objects == s.objects
    && branch in t.refs && t.refs[branch] == s.head
    && (forall ref :: ref != branch ==> (ref in t.refs <==> ref in s.refs) && (ref in s.refs ==> t.refs[ref] == s.refs[ref]))
    && s.effects <= t.effects && !HasMerge(t.effects[|s.effects|..])
  }

  lemma PushedTwice(s: Git, w: Replies, branch: string)
    requires BranchPushed(s, w, branch) && s.refs != map[] && s.head < |s.objects|
    ensures var s1 := PushRunBranch(s, w.runPush, branch).0;
            && PushRunBranch(s, w.runPush, branch).1 && Push(s1, w.landPush, branch).1.Accepted?
            && OnlyBranch(s, Push(s1, w.landPush, branch).0, branch)
  {
    var s1 := PushRunBranch(s, w.runPush, branch).0;
    var s2 := Push(s1, w.landPush, branch).0;
    assert s2.effects == s.effects + ([Pushed(branch, s.head)] + [Pushed(branch, s.head)]);
  }

  lemma HasMergeJoin(a: seq<Effect>, b: seq<Effect>)
    ensures HasMerge(a + b) <==> HasMerge(a) || HasMerge(b)
  {
    assert forall e :: e in a + b <==> e in a || e in b;
  }

  lemma MergeAnswer(s: Git, w: Replies, branch: string, from: nat)
    requires from <= |s.effects| && !HasMerge(s.effects[from..])
    ensures var (s', merged) := Merge(s, w, branch);
            && s.effects <= s'.effects
            && (HasMerge(s'.effects[from..]) <==> !w.merge.Refused? && Mergeable(s, branch))
            && (merged <==> w.merge.Done? && Mergeable(s, branch) && s.default != Some(branch))
  {
    var s' := Merge(s, w, branch).0;
    var ending := MergeShape(s, w, branch);
    assert s'.effects[from..] == s.effects[from..] + ending;
    HasMergeJoin(s.effects[from..], ending);
    if !w.merge.Refused? && Mergeable(s, branch) { assert s'.effects[|s.effects|].Merged? && ending[0] == s'.effects[|s.effects|]; }
  }

  lemma PrAnswer(s: Git, t: Git, w: Replies, branch: string, base: string)
    requires OnlyBranch(s, t, branch)
    ensures var (n, pr) := EnsurePr(t, w, branch, base);
            && (pr <==> PrSeen(s, w, branch, base))
            && (pr ==> (Mergeable(n, branch) <==> PrBase(s, base) in s.refs && PrBase(s, base) != branch))
            && n.default == s.default && n.refs == t.refs && s.effects <= n.effects && !HasMerge(n.effects[|s.effects|..])
  {
    var n := EnsurePr(t, w, branch, base).0;
    if n.effects != t.effects {
      assert n.effects[|s.effects|..] == t.effects[|s.effects|..] + [PrOpened(branch, base)];
      HasMergeJoin(t.effects[|s.effects|..], [PrOpened(branch, base)]);
    }
  }

  /** From the finished commit on, with the trunk in sight. */
  lemma PushThenLandAnswer(s: Git, w: Replies, branch: string, base: string)
    requires s.refs != map[] && s.head < |s.objects|
    ensures var (s', o) := PushThenLand(s, w, branch, base);
            && (Landed(o) <==> BranchPushed(s, w, branch) && Settles(s, w, branch, base))
            && (o.DirectPush? ==> false)
            && s.effects <= s'.effects
            && (HasMerge(s'.effects[|s.effects|..]) <==> BranchPushed(s, w, branch) && Merges(s, w, branch, base))
  {
    if BranchPushed(s, w, branch) {
      hide Push, EnsurePr, Merge, FastForward, OnlyBranch, Mergeable;
      var t := Push(PushRunBranch(s, w.runPush, branch).0, w.landPush, branch).0;
      PushedTwice(s, w, branch);
      PrAnswer(s, t, w, branch, base);
      MergeAnswer(EnsurePr(t, w, branch, base).0, w, branch, |s.effects|);
    } else {
      NotPushed(s, w, branch, base);
    }
  }

  lemma NotPushed(s: Git, w: Replies, branch: string, base: string)
    requires !BranchPushed(s, w, branch) && s.refs != map[] && s.head < |s.objects|
    ensures var (s', o) := PushThenLand(s, w, branch, base);
            o == Threw && s.effects <= s'.effects && !HasMerge(s'.effects[|s.effects|..])
  {
  }

  // ------------------------------------------------------- a whole attempt

  /** The attempt gets as far as the remote. */
  predicate Starts(s: Git, w: Replies, job: Job) {
    !Unmerged(s, w, job) && w.noHarness && !IsRunBranch(Base(s, w, job))
  }

  predicate TrunkSeen(s: Git, w: Replies, job: Job) {
    w.trunkRead && Base(s, w, job) in s.refs
  }

  lemma StartsIff(s: Git, w: Replies, job: Job)
    requires Wf(s)
    ensures Starts(s, w, job) ==> PublishOwned(s, w, job) == Integrate(Prepared(s, w, job), w, job)
    ensures !Starts(s, w, job) ==> PublishOwned(s, w, job).1 == Threw && PublishOwned(s, w, job).0.effects == s.effects
    ensures SameRemote(s, Prepared(s, w, job)) && Wf(Prepared(s, w, job))
  {
    PreparedKeeps(s, w, job);
    hide Squash, Trunk, PushThenLand, FirstPush;
  }

  /**
   * An attempt succeeds exactly if nothing stops it before the remote and: with the trunk in sight, both
   * pushes of the run branch are answered and the pull request settles; otherwise the trunk takes HEAD
   * and the push of the run branch is answered.
   */
  lemma LandsIff(s: Git, w: Replies, job: Job)
    requires Wf(s)
    ensures var p, base := Prepared(s, w, job), Base(s, w, job);
            Landed(PublishOwned(s, w, job).1) <==>
              && Starts(s, w, job)
              && if TrunkSeen(s, w, job) then BranchPushed(p, w, job.branch) && Settles(s, w, job.branch, base)
                 else w.trunkPush.Works? && FastForward(p, base) && w.runPush.Works?
    ensures PublishOwned(s, w, job).1.DirectPush? ==> !TrunkSeen(s, w, job)
    ensures PublishOwned(s, w, job).1.ViaPullRequest? ==> TrunkSeen(s, w, job)
  {
    StartsIff(s, w, job);
    hide PublishOwned, Prepared, Trunk, PushThenLand, FastForward, Wf;
    var p := Prepared(s, w, job);
    if TrunkSeen(s, w, job) { PushThenLandAnswer(p, w, job.branch, Base(s, w, job)); }
    SameAnswers(s, p, w, job.branch, Base(s, w, job));
  }

  lemma SameAnswers(s: Git, p: Git, w: Replies, branch: string, base: string)
    requires SameRemote(s, p)
    ensures Settles(s, w, branch, base) <==> Settles(p, w, branch, base)
    ensures Merges(s, w, branch, base) <==> Merges(p, w, branch, base)
  {
  }

  /** GitHub merges exactly if its gate is open, the request is seen and not refused, and there is a base. */
  lemma MergesIff(s: Git, w: Replies, job: Job)
    requires Wf(s)
    ensures HasMerge(NewEffects(s, w, job)) <==>
              && Starts(s, w, job) && TrunkSeen(s, w, job)
              && BranchPushed(Prepared(s, w, job), w, job.branch) && Merges(s, w, job.branch, Base(s, w, job))
  {
    StartsIff(s, w, job);
    hide PublishOwned, Prepared, Trunk, PushThenLand, FastForward, Wf;
    var p := Prepared(s, w, job);
    SameAnswers(s, p, w, job.branch, Base(s, w, job));
    if Starts(s, w, job) {
      if TrunkSeen(s, w, job) { PushThenLandAnswer(p, w, job.branch, Base(s, w, job)); }
      else { FirstPushShape(p, w, job.branch, Base(s, w, job)); }
    }
  }

  // --------------------------------------------------------- which refs move

  ghost predicate Untouched(s: Git, t: Git, ref: string) {
    (ref in t.refs <==> ref in s.refs) && (ref in s.refs ==> t.refs[ref] == s.refs[ref])
  }

  lemma PushLeaves(s: Git, how: How, to: string, ref: string)
    requires ref != to
    ensures Untouched(s, Push(s, how, to).0, ref) && Push(s, how, to).0.openPr == s.openPr
  {
    hide Reaches;
  }

  lemma MergeLeaves(s: Git, w: Replies, branch: string, ref: string)
    requires ref != branch && s.openPr != Some(ref)
    ensures Untouched(s, Merge(s, w, branch).0, ref)
  {
    hide SquashTree;
  }

  lemma LandLeaves(s: Git, w: Replies, branch: string, base: string, ref: string)
    requires ref != branch && s.openPr != Some(ref) && ref != base
    ensures Untouched(s, Land(s, w, branch, base).0, ref)
  {
    hide Push, Merge;
    var s1 := Push(s, w.landPush, branch).0;
    PushLeaves(s, w.landPush, branch, ref);
    MergeLeaves(EnsurePr(s1, w, branch, base).0, w, branch, ref);
  }

  lemma IntegrateLeaves(s: Git, w: Replies, job: Job, ref: string)
    requires ref != job.branch && s.openPr != Some(ref) && ref != Trunk(s, w, job)
    ensures Untouched(s, Integrate(s, w, job).0, ref)
  {
    hide Land, Trunk, Push, IsRunBranch;
    var base := Trunk(s, w, job);
    PushLeaves(s, w.runPush, job.branch, ref);
    PushLeaves(s, w.trunkPush, base, ref);
    PushLeaves(Push(s, w.trunkPush, base).0, w.runPush, job.branch, ref);
    LandLeaves(Push(s, w.runPush, job.branch).0, w, job.branch, base, ref);
  }

  /**
   * A ticket with a branch of its own moves that branch and its run branch, and any other ticket the
   * default branch, or `main` if the default cannot be read; no other ref moves, except that a pull
   * request that was open already may merge into its own base.
   */
  lemma OtherRefsStay(s: Git, w: Replies, job: Job, ref: string)
    requires Wf(s) && ref != job.branch && s.openPr != Some(ref)
    requires HasTarget(job) ==> ref != job.target
    requires !HasTarget(job) && w.defaultRead && s.default.Some? ==> ref != s.default.value
    requires !HasTarget(job) && !(w.defaultRead && s.default.Some?) ==> ref != "main"
    ensures Untouched(s, PublishOwned(s, w, job).0, ref)
  {
    PreparedKeeps(s, w, job);
    hide Integrate, Squash;
    if Starts(s, w, job) { IntegrateLeaves(Prepared(s, w, job), w, job, ref); }
    StartsIff(s, w, job);
  }
}
