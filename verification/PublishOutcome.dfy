/**
 * What an attempt to publish leaves on the remote, and what a retry can still do: no ref but the
 * merged run branch disappears, none moves backwards, and a run branch that is not an ancestor of HEAD
 * can never be landed through a pull request.
 */
module PublishOutcome {
  import opened Wrappers
  import opened Publish

  // -------------------------------------------------------------- the merge

  /** The state in which the landing asks for the merge, if it gets that far. */
  function Landing(s: Git, w: Replies, branch: string, base: string): Option<Git> {
    var (s1, answer) := Push(s, w.landPush, branch);
    if !answer.Accepted? then None
    else
      var (s2, pr) := EnsurePr(s1, w, branch, base);
      if pr && w.gate.Ready? then Some(s2) else None
  }

  /** The same for an attempt past its checks. */
  function IntegrationAtMerge(s: Git, w: Replies, job: Job): Option<Git> {
    var base := Trunk(s, w, job);
    if IsRunBranch(base) || !w.trunkRead || base !in s.refs then None
    else
      var (s1, durable) := PushRunBranch(s, w.runPush, job.branch);
      if durable then Landing(s1, w, job.branch, base) else None
  }

  /** The same for a whole attempt. */
  function AtMerge(s: Git, w: Replies, job: Job): Option<Git> {
    if ReachesIntegration(s, w, job) then IntegrationAtMerge(Prepared(s, w, job), w, job) else None
  }

  /** The merge is asked for and happens, whatever is heard of it. */
  predicate MergeDone(s: Git, w: Replies, job: Job) {
    AtMerge(s, w, job).Some? && !w.merge.Refused? && Mergeable(AtMerge(s, w, job).value, job.branch)
  }

  /** ... and the run branch goes with it: it could be deleted and is not the default branch. */
  predicate BranchDeleted(s: Git, w: Replies, job: Job) {
    MergeDone(s, w, job) && !w.merge.BranchKept? && AtMerge(s, w, job).value.default != Some(job.branch)
  }

  // ------------------------------------------------------ nothing rewritten

  /** The objects only grow, and this ref is still there at a tip that reaches the old one. */
  ghost predicate Kept(s: Git, s': Git, ref: string)
    requires ref in s.refs
  {
    ref in s'.refs && Reaches(s'.objects, s.refs[ref], s'.refs[ref])
  }

  ghost predicate OnlyForward(s: Git, s': Git) {
    s.objects <= s'.objects && forall ref :: ref in s.refs ==> Kept(s, s', ref)
  }

  lemma {:induction false} ReachesTrans(objects: seq<Commit>, a: Sha, b: Sha, c: Sha)
    requires Reaches(objects, a, b) && Reaches(objects, b, c)
    ensures Reaches(objects, a, c)
    decreases c
  {
    if b != c {
      var p :| p in objects[c].parents && p < c && Reaches(objects, b, p);
      ReachesTrans(objects, a, b, p);
    }
  }

  lemma KeptTrans(s: Git, t: Git, u: Git, ref: string)
    requires Wf(t) && t.objects <= u.objects && ref in s.refs && Kept(s, t, ref) && Kept(t, u, ref)
    ensures Kept(s, u, ref)
  {
    var more := u.objects[|t.objects|..];
    assert u.objects == t.objects + more;
    ReachesGrows(t.objects, more, s.refs[ref], t.refs[ref]);
    ReachesTrans(u.objects, s.refs[ref], t.refs[ref], u.refs[ref]);
  }

  lemma ForwardTrans(s: Git, t: Git, u: Git)
    requires Wf(t) && OnlyForward(s, t) && OnlyForward(t, u)
    ensures OnlyForward(s, u)
  {
    forall ref | ref in s.refs ensures Kept(s, u, ref) { KeptTrans(s, t, u, ref); }
  }

  lemma PushForward(s: Git, how: How, ref: string)
    requires Wf(s)
    ensures Wf(Push(s, how, ref).0) && OnlyForward(s, Push(s, how, ref).0)
    ensures Push(s, how, ref).0.head == s.head && Push(s, how, ref).0.objects == s.objects
  {
  }

  lemma LandingForward(s: Git, w: Replies, branch: string, base: string)
    requires Wf(s)
    ensures match Landing(s, w, branch, base)
            case None => Wf(Land(s, w, branch, base).0) && OnlyForward(s, Land(s, w, branch, base).0)
            case Some(n) =>
              && Wf(n) && OnlyForward(s, n) && n.head == s.head && n.objects == s.objects
              && branch in n.refs && n.refs[branch] == s.head
              && Land(s, w, branch, base).0 == Merge(n, w, branch).0
              && (Landed(Land(s, w, branch, base).1) <==> Merge(n, w, branch).1)
  {
    PushForward(s, w.landPush, branch);
    var (s1, answer) := Push(s, w.landPush, branch);
    if answer.Accepted? {
      var (s2, pr) := EnsurePr(s1, w, branch, base);
      assert Wf(s2) && OnlyForward(s, s2);
    }
  }

  lemma FirstPushForward(s: Git, w: Replies, branch: string, base: string)
    requires Wf(s)
    ensures OnlyForward(s, FirstPush(s, w, branch, base).0)
  {
    var s1 := Push(s, w.trunkPush, base).0;
    PushForward(s, w.trunkPush, base);
    PushForward(s1, w.runPush, branch);
    ForwardTrans(s, s1, Push(s1, w.runPush, branch).0);
  }

  lemma IntegrateForward(s: Git, w: Replies, job: Job)
    requires Wf(s)
    ensures match IntegrationAtMerge(s, w, job)
            case None => OnlyForward(s, Integrate(s, w, job).0)
            case Some(n) =>
              && Wf(n) && OnlyForward(s, n) && n.head == s.head && n.objects == s.objects
              && job.branch in n.refs && n.refs[job.branch] == s.head
              && Integrate(s, w, job).0 == Merge(n, w, job.branch).0
              && (Landed(Integrate(s, w, job).1) <==> Merge(n, w, job.branch).1)
  {
    var base := Trunk(s, w, job);
    if IsRunBranch(base) {
    } else if w.trunkRead && base in s.refs {
      var (s1, durable) := PushRunBranch(s, w.runPush, job.branch);
      PushForward(s, w.runPush, job.branch);
      if durable {
        LandingForward(s1, w, job.branch, base);
        var n := Landing(s1, w, job.branch, base);
        ForwardTrans(s, s1, if n.Some? then n.value else Land(s1, w, job.branch, base).0);
      }
    } else {
      FirstPushForward(s, w, job.branch, base);
    }
  }

  lemma MergeForward(s: Git, w: Replies, branch: string)
    requires Wf(s)
    ensures s.objects <= Merge(s, w, branch).0.objects
    ensures forall ref :: ref in s.refs ==>
              Kept(s, Merge(s, w, branch).0, ref)
              || (ref == branch && !w.merge.Refused? && Mergeable(s, branch) && !w.merge.BranchKept? && s.default != Some(branch))
  {
    if !w.merge.Refused? && Mergeable(s, branch) {
      var target, merged := s.openPr.value, SquashMerged(s, w, branch);
      ReachesChild(s.objects, s.refs[target], SquashTree(s, w, branch), s.refs[target]);
      forall ref | ref in s.refs ensures Kept(s, merged, ref) { }
    }
  }

  /** Nothing before the merge but local work and pushes. */
  lemma AttemptForward(s: Git, w: Replies, job: Job)
    requires Wf(s)
    ensures match AtMerge(s, w, job)
            case None => OnlyForward(s, PublishOwned(s, w, job).0)
            case Some(n) =>
              && Wf(n) && OnlyForward(s, n) && n.head == Prepared(s, w, job).head
              && n.objects == Prepared(s, w, job).objects
              && job.branch in n.refs && n.refs[job.branch] == n.head
              && PublishOwned(s, w, job).0 == Merge(n, w, job.branch).0
              && (Landed(PublishOwned(s, w, job).1) <==> Merge(n, w, job.branch).1)
  {
    PreparedKeeps(s, w, job);
    var p := Prepared(s, w, job);
    assert OnlyForward(s, p) && OnlyForward(s, CommitStray(s, w, job).0);
    if ReachesIntegration(s, w, job) {
      IntegrateForward(p, w, job);
      var n := IntegrationAtMerge(p, w, job);
      ForwardTrans(s, p, if n.Some? then n.value else Integrate(p, w, job).0);
    }
  }

  /**
   * Whatever fails, no ref moves backwards, and the only ref an attempt can remove is the run branch,
   * by deleting it after the merge.
   */
  lemma PublishOnlyForward(s: Git, w: Replies, job: Job)
    requires Wf(s)
    ensures forall ref :: ref in s.refs ==>
              Kept(s, PublishOwned(s, w, job).0, ref) || (ref == job.branch && BranchDeleted(s, w, job))
  {
    AttemptForward(s, w, job);
    if AtMerge(s, w, job).Some? {
      var n, s' := AtMerge(s, w, job).value, PublishOwned(s, w, job).0;
      MergeForward(n, w, job.branch);
      forall ref | ref in s.refs ensures Kept(s, s', ref) || (ref == job.branch && BranchDeleted(s, w, job)) {
        assert Kept(s, n, ref);
        if Kept(n, s', ref) { KeptTrans(s, n, s', ref); }
      }
    }
  }

  /** Some effect from `from` on pushed the ref. */
  ghost predicate PushedSince(effects: seq<Effect>, from: nat, ref: string) {
    exists k :: from <= k < |effects| && effects[k].Pushed? && effects[k].ref == ref
  }

  /** From `s` to `t` the ref appears exactly by being pushed. */
  ghost predicate RefByPush(s: Git, t: Git, ref: string) {
    s.effects <= t.effects && (ref in t.refs <==> ref in s.refs || PushedSince(t.effects, |s.effects|, ref))
  }

  lemma TrackedTrans(s: Git, t: Git, u: Git, ref: string)
    requires RefByPush(s, t, ref) && RefByPush(t, u, ref)
    ensures RefByPush(s, u, ref)
  {
    if PushedSince(t.effects, |s.effects|, ref) {
      var k :| |s.effects| <= k < |t.effects| && t.effects[k].Pushed? && t.effects[k].ref == ref;
      assert u.effects[k] == t.effects[k];
    }
    if PushedSince(u.effects, |s.effects|, ref) {
      var k :| |s.effects| <= k < |u.effects| && u.effects[k].Pushed? && u.effects[k].ref == ref;
      if k < |t.effects| { assert t.effects[k] == u.effects[k]; }
    }
  }

  lemma PushTracked(s: Git, how: How, to: string, ref: string)
    ensures RefByPush(s, Push(s, how, to).0, ref)
    ensures Push(s, how, to).1.Accepted? ==> PushedSince(Push(s, how, to).0.effects, |s.effects|, to)
  {
    var t := Push(s, how, to).0;
    if t.effects != s.effects { assert t.effects[|s.effects|] == Pushed(to, s.head); }
  }

  lemma LandingTracked(s: Git, w: Replies, branch: string, base: string)
    ensures match Landing(s, w, branch, base)
            case None => RefByPush(s, Land(s, w, branch, base).0, branch)
            case Some(n) => RefByPush(s, n, branch) && PushedSince(n.effects, |s.effects|, branch)
  {
    var (s1, answer) := Push(s, w.landPush, branch);
    PushTracked(s, w.landPush, branch, branch);
    if answer.Accepted? {
      var s2 := EnsurePr(s1, w, branch, base).0;
      assert RefByPush(s1, s2, branch);
      TrackedTrans(s, s1, s2, branch);
      var k :| |s.effects| <= k < |s1.effects| && s1.effects[k].Pushed? && s1.effects[k].ref == branch;
      assert s2.effects[k] == s1.effects[k];
    }
  }

  lemma IntegrateTracked(s: Git, w: Replies, job: Job)
    ensures match IntegrationAtMerge(s, w, job)
            case None => RefByPush(s, Integrate(s, w, job).0, job.branch)
            case Some(n) => RefByPush(s, n, job.branch) && PushedSince(n.effects, |s.effects|, job.branch)
  {
    var base := Trunk(s, w, job);
    if IsRunBranch(base) {
    } else if w.trunkRead && base in s.refs {
      var (s1, durable) := PushRunBranch(s, w.runPush, job.branch);
      PushTracked(s, w.runPush, job.branch, job.branch);
      if durable {
        LandingTracked(s1, w, job.branch, base);
        var n := Landing(s1, w, job.branch, base);
        TrackedTrans(s, s1, if n.Some? then n.value else Land(s1, w, job.branch, base).0, job.branch);
      }
    } else {
      var s1 := Push(s, w.trunkPush, base).0;
      PushTracked(s, w.trunkPush, base, job.branch);
      PushTracked(s1, w.runPush, job.branch, job.branch);
      TrackedTrans(s, s1, Push(s1, w.runPush, job.branch).0, job.branch);
    }
  }

  lemma MergeTracked(s: Git, w: Replies, branch: string, from: nat)
    requires branch in s.refs && PushedSince(s.effects, from, branch)
    ensures PushedSince(Merge(s, w, branch).0.effects, from, branch)
    ensures branch in Merge(s, w, branch).0.refs <==>
              w.merge.Refused? || !Mergeable(s, branch) || w.merge.BranchKept? || s.default == Some(branch)
  {
    var k :| from <= k < |s.effects| && s.effects[k].Pushed? && s.effects[k].ref == branch;
    assert Merge(s, w, branch).0.effects[k] == s.effects[k];
  }

  /** The run branch is on the remote after an attempt exactly when it was or was pushed, and is not deleted. */
  lemma BranchThereIff(s: Git, w: Replies, job: Job)
    requires Wf(s)
    ensures var s' := PublishOwned(s, w, job).0;
            job.branch in s'.refs <==>
              (job.branch in s.refs || PushedSince(s'.effects, |s.effects|, job.branch)) && !BranchDeleted(s, w, job)
  {
    PreparedKeeps(s, w, job);
    AttemptForward(s, w, job);
    if ReachesIntegration(s, w, job) { IntegrateTracked(Prepared(s, w, job), w, job); }
    if AtMerge(s, w, job).Some? { MergeTracked(AtMerge(s, w, job).value, w, job.branch, |s.effects|); }
  }

  // ---------------------------------------------------------------- landing

  /** The merge on its own. */
  lemma MergeIs(n: Git, w: Replies, branch: string)
    requires Wf(n) && !w.merge.Refused? && Mergeable(n, branch)
    ensures var (target, sha, s') := (n.openPr.value, |n.objects|, Merge(n, w, branch).0);
            && target in s'.refs && s'.refs[target] == sha < |s'.objects|
            && s'.objects[sha] == Commit([n.refs[target]], SquashTree(n, w, branch))
            && (Reaches(n.objects, n.refs[target], n.refs[branch]) ==> s'.TreeOf(sha) == n.TreeOf(n.refs[branch]))
            && s'.effects == n.effects + if w.merge.BranchKept? || n.default == Some(branch) then [Merged(target, sha)]
                                         else [Merged(target, sha), Deleted(branch)]
  {
    assert n.effects + [Merged(n.openPr.value, |n.objects|)] + [Deleted(branch)]
           == n.effects + [Merged(n.openPr.value, |n.objects|), Deleted(branch)];
  }

  /**
   * After a merge the base of the pull request holds the squash, on top of where it was, and with
   * HEAD's tree if HEAD was ahead of it; the deletion shows among the effects exactly if it happened.
   */
  lemma MergeHoldsSquash(s: Git, w: Replies, job: Job)
    requires Wf(s) && MergeDone(s, w, job)
    ensures var n, s' := AtMerge(s, w, job).value, PublishOwned(s, w, job).0;
            var target, sha := n.openPr.value, |n.objects|;
            && target in s'.refs && s'.refs[target] == sha < |s'.objects|
            && s'.objects[sha].parents == [n.refs[target]]
            && (Reaches(n.objects, n.refs[target], n.head) ==> s'.TreeOf(sha) == n.TreeOf(n.head))
            && Merged(target, sha) in NewEffects(s, w, job)
            && (BranchDeleted(s, w, job) <==> Deleted(job.branch) in NewEffects(s, w, job))
  {
    var n := AtMerge(s, w, job).value;
    AttemptForward(s, w, job);
    MergeIs(n, w, job.branch);
    NoDeletionBefore(s, w, job);
    MergeEffects(s, w, job);
  }

  lemma MergeEffects(s: Git, w: Replies, job: Job)
    requires Wf(s) && MergeDone(s, w, job)
    ensures var n := AtMerge(s, w, job).value;
            var merged := Merged(n.openPr.value, |n.objects|);
            && s.effects <= n.effects
            && NewEffects(s, w, job)
               == n.effects[|s.effects|..] + if BranchDeleted(s, w, job) then [merged, Deleted(job.branch)] else [merged]
  {
    var n := AtMerge(s, w, job).value;
    AttemptForward(s, w, job);
    MergeIs(n, w, job.branch);
    NoDeletionBefore(s, w, job);
  }

  /** Up to the merge only pushes are made. */
  lemma OnlyPushesBefore(p: Git, w: Replies, job: Job)
    requires IntegrationAtMerge(p, w, job).Some?
    ensures var n := IntegrationAtMerge(p, w, job).value;
            p.effects <= n.effects && forall e :: e in n.effects[|p.effects|..] ==> !e.Deleted?
  {
    var s1 := PushRunBranch(p, w.runPush, job.branch).0;
    var s2 := Push(s1, w.landPush, job.branch).0;
    assert forall e :: e in s1.effects[|p.effects|..] ==> e.Pushed?;
    assert forall e :: e in s2.effects[|p.effects|..] ==> e.Pushed?;
  }

  lemma NoDeletionBefore(s: Git, w: Replies, job: Job)
    requires Wf(s) && AtMerge(s, w, job).Some?
    ensures var n := AtMerge(s, w, job).value;
            s.effects <= n.effects && forall e :: e in n.effects[|s.effects|..] ==> !e.Deleted?
  {
    hide Prepared, IntegrationAtMerge, Wf;
    PreparedKeeps(s, w, job);
    OnlyPushesBefore(Prepared(s, w, job), w, job);
  }

  /**
   * What a reported success means.  A direct push: the trunk is at HEAD and the run branch is on the
   * remote.  A merge in this attempt: the base of the pull request holds the squash and the run branch
   * is gone.  A pull request found merged: the run branch is at HEAD.
   */
  lemma LandedIsThere(s: Git, w: Replies, job: Job)
    requires Wf(s) && job.branch != Base(s, w, job) && Landed(PublishOwned(s, w, job).1)
    ensures var (s', o) := PublishOwned(s, w, job);
            var head := Prepared(s, w, job).head;
            match o
            case DirectPush(sha) => sha == head && Base(s, w, job) in s'.refs && s'.refs[Base(s, w, job)] == head && job.branch in s'.refs
            case ViaPullRequest =>
              if AtMerge(s, w, job).Some? then MergeDone(s, w, job) && BranchDeleted(s, w, job) && job.branch !in s'.refs
              else job.branch in s'.refs && s'.refs[job.branch] == head
            case Threw => false
  {
    AttemptForward(s, w, job);
    PreparedKeeps(s, w, job);
    if AtMerge(s, w, job).None? { IntegratedWithoutMerge(Prepared(s, w, job), w, job); }
  }

  lemma IntegratedWithoutMerge(s: Git, w: Replies, job: Job)
    requires Wf(s) && job.branch != Trunk(s, w, job) && Landed(Integrate(s, w, job).1)
    requires IntegrationAtMerge(s, w, job).None?
    ensures var (s', o) := Integrate(s, w, job);
            && job.branch in s'.refs
            && (o.DirectPush? ==> o.sha == s.head && Trunk(s, w, job) in s'.refs && s'.refs[Trunk(s, w, job)] == o.sha)
            && (o.ViaPullRequest? ==> s'.refs[job.branch] == s.head)
  {
    var base := Trunk(s, w, job);
    if w.trunkRead && base in s.refs {
      var s1 := PushRunBranch(s, w.runPush, job.branch).0;
      var s2 := Push(s1, w.landPush, job.branch).0;
      assert s2.refs == s1.refs[job.branch := s.head];
      assert EnsurePr(s2, w, job.branch, base).0.refs == s2.refs;
    }
  }

  /** A merge lands on the trunk of the attempt exactly if no pull request with another base was reused. */
  lemma MergeTargetIs(s: Git, w: Replies, job: Job)
    requires Wf(s) && MergeDone(s, w, job)
    ensures AtMerge(s, w, job).value.openPr == Some(if s.openPr.Some? then s.openPr.value else Base(s, w, job))
  {
    PreparedKeeps(s, w, job);
  }

  // --------------------------------------------------------------- retrying

  const FAIR := Replies(true, true, true, true, true, true, true, true, true, true, true, true, true,
                        true, true, Works, Works, Works, true, Opens, true, true, Ready, Done, map[])

  /** Nothing on GitHub's side stands in the way of merging and deleting the run branch. */
  predicate Deletable(s: Git, branch: string) {
    s.default != Some(branch) && (s.openPr.Some? ==> s.openPr.value in s.refs && s.openPr.value != branch)
  }

  /**
   * With the trunk there, an attempt that meets no failure lands through a pull request exactly when
   * the run branch on the remote is absent or an ancestor of HEAD (and GitHub lets it be merged and
   * deleted); otherwise no attempt that sees the trunk lands.  Swallowing the rejected push does not
   * help, because the landing pushes the same branch again and does not swallow it.
   */
  lemma CanLandIff(s: Git, job: Job)
    requires Wf(s) && job.branch != Trunk(s, FAIR, job)
    requires Trunk(s, FAIR, job) in s.refs && !IsRunBranch(Trunk(s, FAIR, job))
    ensures Landed(Integrate(s, FAIR, job).1) <==> FastForward(s, job.branch) && Deletable(s, job.branch)
    ensures !FastForward(s, job.branch) ==>
              forall w: Replies :: w.trunkRead && Trunk(s, w, job) in s.refs ==> Integrate(s, w, job) == (s, Threw)
  {
    forall w: Replies | !FastForward(s, job.branch) && w.trunkRead && Trunk(s, w, job) in s.refs
      ensures Integrate(s, w, job) == (s, Threw)
    {
      assert PushRunBranch(s, w.runPush, job.branch).0 == s;
    }
    if FastForward(s, job.branch) {
      var s1 := Push(s, Works, job.branch).0;
      assert s1.refs[job.branch] == s.head;
      assert Reaches(s1.objects, s.head, s1.head);
    }
  }

  /** The run branch on the remote has commits that HEAD and the worker's base do not have. */
  ghost predicate Wedged(s: Git, job: Job) {
    && job.branch in s.refs
    && !Reaches(s.objects, s.refs[job.branch], s.head)
    && (job.baseSha.Some? && job.baseSha.value < |s.objects| ==> !Reaches(s.objects, s.refs[job.branch], job.baseSha.value))
  }

  /** Work committed on top of a pushed squash and squashed again onto the same base wedges the branch. */
  lemma ResquashWedges(s: Git, w: Replies, job: Job)
    requires Wf(s) && job.branch in s.refs && Squashed(s, w, job.baseSha)
    requires !Reaches(s.objects, s.refs[job.branch], job.baseSha.value)
    ensures Wedged(Squash(s, w, job.baseSha), job)
  {
    SquashIsOneCommit(s, w, job.baseSha);
    ReachesGrows(s.objects, [Commit([job.baseSha.value], s.index)], s.refs[job.branch], job.baseSha.value);
  }

  /** What is done in the checkout never frees the branch. */
  lemma CommitKeepsWedged(s: Git, works: bool, job: Job)
    requires Wf(s) && Wedged(s, job)
    ensures Wedged(CommitIndex(s, works).0, job)
  {
    var tip := s.refs[job.branch];
    if works && !s.CleanIndex() {
      ReachesChild(s.objects, s.head, s.index, tip);
      if job.baseSha.Some? && job.baseSha.value < |s.objects| {
        ReachesGrows(s.objects, [Commit([s.head], s.index)], tip, job.baseSha.value);
      } else if job.baseSha.Some? && job.baseSha.value == |s.objects| {
        ReachesChild(s.objects, s.head, s.index, tip);
      }
    }
  }

  lemma PreparedKeepsWedged(s: Git, w: Replies, job: Job)
    requires Wf(s) && Wedged(s, job)
    ensures Wedged(Prepared(s, w, job), job) && Wedged(CommitStray(s, w, job).0, job)
  {
    PreparedKeeps(s, w, job);
    CommitKeepsWedged(s.(index := s.work), w.strayCommit, job);
    var s1 := CommitStray(s, w, job).0;
    assert Wedged(s1, job);
    SquashKeepsWedged(s1, w, job);
  }

  lemma SquashKeepsWedged(s: Git, w: Replies, job: Job)
    requires Wf(s) && Wedged(s, job)
    ensures Wedged(Squash(s, w, job.baseSha), job)
  {
    if Squashes(s, w, job.baseSha) {
      var at := s.(head := job.baseSha.value);
      assert Wedged(at, job) && Wf(at);
      CommitKeepsWedged(at, w.squashCommit, job);
    }
  }

  /** The attempt finds its trunk. */
  predicate SeesTrunk(s: Git, w: Replies, job: Job) {
    w.trunkRead && Base(s, w, job) in s.refs
  }

  lemma WedgedPush(s: Git, w: Replies, job: Job)
    requires job.branch in s.refs && !FastForward(s, job.branch)
    ensures Integrate(s, w, job).1.Threw? || IsRunBranch(Trunk(s, w, job)) || !w.trunkRead || Trunk(s, w, job) !in s.refs
    ensures w.trunkRead && Trunk(s, w, job) in s.refs ==> Integrate(s, w, job).0 == s
  {
    if w.trunkRead && Trunk(s, w, job) in s.refs { assert PushRunBranch(s, w.runPush, job.branch).0 == s; }
  }

  lemma WedgedFirstPush(s: Git, w: Replies, branch: string, base: string)
    requires branch in s.refs && !FastForward(s, branch) && branch != base
    ensures Landed(FirstPush(s, w, branch, base).1) <==> w.trunkPush.Works? && w.runPush.Works? && FastForward(s, base)
  {
    assert !FastForward(Push(s, w.trunkPush, base).0, branch);
  }

  /**
   * A wedged attempt reports success exactly when it does not see its trunk, and may push HEAD to it
   * directly; otherwise it throws.
   */
  lemma WedgedLandsIff(s: Git, w: Replies, job: Job)
    requires Wf(s) && Wedged(s, job) && job.branch != Base(s, w, job)
    ensures Landed(PublishOwned(s, w, job).1) <==>
              && ReachesIntegration(s, w, job) && !IsRunBranch(Base(s, w, job)) && !SeesTrunk(s, w, job)
              && w.trunkPush.Works? && w.runPush.Works? && FastForward(Prepared(s, w, job), Base(s, w, job))
    ensures SeesTrunk(s, w, job) ==> SameRemote(s, PublishOwned(s, w, job).0)
  {
    PreparedKeeps(s, w, job);
    PreparedKeepsWedged(s, w, job);
    WedgedPush(Prepared(s, w, job), w, job);
    WedgedFirstPush(Prepared(s, w, job), w, job.branch, Base(s, w, job));
  }

  /** One more attempt, on whatever the worker has left in the working directory meanwhile. */
  datatype Retry = Retry(work: Tree, replies: Replies)

  /** The state after one attempt after another. */
  function Attempts(s: Git, rs: seq<Retry>, job: Job): Git
    decreases |rs|
  {
    if rs == [] then s else Attempts(PublishOwned(s.(work := rs[0].work), rs[0].replies, job).0, rs[1..], job)
  }

  /** Every attempt of the series throws. */
  predicate AllThrow(s: Git, rs: seq<Retry>, job: Job)
    decreases |rs|
  {
    rs == [] || (var (s', o) := PublishOwned(s.(work := rs[0].work), rs[0].replies, job); o.Threw? && AllThrow(s', rs[1..], job))
  }

  /** The trunk an attempt aims at depends on nothing an attempt changes while it is wedged. */
  predicate AimsAtTrunk(s: Git, w: Replies, job: Job) {
    w.trunkRead && Trunk(s, w, job) in s.refs && job.branch != Trunk(s, w, job)
  }

  /**
   * Over any series of retries that each find their trunk, whatever else fails or works and whatever
   * the worker does in between: every one throws and the remote never changes.
   */
  lemma {:induction false} WedgedForever(s: Git, rs: seq<Retry>, job: Job)
    requires Wf(s) && Wedged(s, job)
    requires forall r :: r in rs ==> AimsAtTrunk(s, r.replies, job)
    ensures AllThrow(s, rs, job) && SameRemote(s, Attempts(s, rs, job)) && Wedged(Attempts(s, rs, job), job)
    decreases |rs|
  {
    if rs != [] {
      assert rs[0] in rs;
      var s0, w := s.(work := rs[0].work), rs[0].replies;
      WedgedAttempt(s0, w, job);
      var s' := PublishOwned(s0, w, job).0;
      forall r | r in rs[1..] ensures AimsAtTrunk(s', r.replies, job) { assert r in rs && AimsAtTrunk(s, r.replies, job); }
      WedgedForever(s', rs[1..], job);
    }
  }

  lemma WedgedAttempt(s: Git, w: Replies, job: Job)
    requires Wf(s) && Wedged(s, job) && AimsAtTrunk(s, w, job)
    ensures var (s', o) := PublishOwned(s, w, job); o.Threw? && SameRemote(s, s') && Wf(s') && Wedged(s', job)
  {
    PreparedKeeps(s, w, job);
    WedgedLandsIff(s, w, job);
    WedgedStays(s, w, job);
  }

  lemma WedgedStays(s: Git, w: Replies, job: Job)
    requires Wf(s) && Wedged(s, job) && SeesTrunk(s, w, job)
    ensures Wf(PublishOwned(s, w, job).0) && Wedged(PublishOwned(s, w, job).0, job)
  {
    PreparedKeeps(s, w, job);
    PreparedKeepsWedged(s, w, job);
    WedgedPush(Prepared(s, w, job), w, job);
  }
}
