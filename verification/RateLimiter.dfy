/**
 * The survey form's sliding-window limit: a pruned and occasionally swept map of recent hits, against
 * the whole history of requests.
 */
module RateLimiter {

  const WINDOW: int := 600_000
  const MAX_HITS: nat := 5
  const SWEEP_ABOVE: nat := 5000

  type Client = nat

  type Hits = map<Client, seq<int>>

  datatype Request = Request(client: Client, at: int)

  // --------------------------------------------------------- specification

  /** The times after the cutoff. */
  function Recent(times: seq<int>, cutoff: int): seq<int> {
    if times == [] then []
    else if times[0] > cutoff then [times[0]] + Recent(times[1..], cutoff)
    else Recent(times[1..], cutoff)
  }

  function HitsOf(hits: Hits, c: Client): seq<int> {
    if c in hits then hits[c] else []
  }

  /** The clients the sweep keeps. */
  function Swept(hits: Hits, cutoff: int): Hits {
    map c | c in hits && Recent(hits[c], cutoff) != [] :: hits[c]
  }

  /** `rateLimited`: the new map and the verdict. */
  function Limited(hits: Hits, r: Request): (Hits, bool) {
    var cutoff := r.at - WINDOW;
    var seen := Recent(HitsOf(hits, r.client), cutoff) + [r.at];
    var stored := hits[r.client := seen];
    (if |stored| > SWEEP_ABOVE then Swept(stored, cutoff) else stored, |seen| > MAX_HITS)
  }

  function After(hits: Hits, rs: seq<Request>): Hits {
    if rs == [] then hits else Limited(After(hits, rs[..|rs| - 1]), rs[|rs| - 1]).0
  }

  /** The verdict on the last request of a history. */
  function Verdict(rs: seq<Request>): bool
    requires rs != []
  {
    Limited(After(map[], rs[..|rs| - 1]), rs[|rs| - 1]).1
  }

  /** Every request one client ever made. */
  function TimesOf(rs: seq<Request>, c: Client): seq<int> {
    if rs == [] then []
    else if rs[|rs| - 1].client == c then TimesOf(rs[..|rs| - 1], c) + [rs[|rs| - 1].at]
    else TimesOf(rs[..|rs| - 1], c)
  }

  /** Counting the client's whole history inside the window. */
  function FullVerdict(rs: seq<Request>): bool
    requires rs != []
  {
    var r := rs[|rs| - 1];
    |Recent(TimesOf(rs[..|rs| - 1], r.client), r.at - WINDOW)| + 1 > MAX_HITS
  }

  ghost predicate Nondecreasing(rs: seq<Request>) {
    forall i :: 0 <= i < |rs| - 1 ==> rs[i].at <= rs[i + 1].at
  }

  // ----------------------------------------------------------------- proof

  lemma {:induction false} RecentJoin(a: seq<int>, b: seq<int>, cutoff: int)
    ensures Recent(a + b, cutoff) == Recent(a, cutoff) + Recent(b, cutoff)
  {
    if a == [] {
      assert a + b == b;
    } else {
      assert (a + b)[1..] == a[1..] + b;
      RecentJoin(a[1..], b, cutoff);
    }
  }

  /** Pruning at an earlier cutoff loses nothing a later one would keep. */
  lemma {:induction false} RecentTwice(times: seq<int>, early: int, late: int)
    requires early <= late
    ensures Recent(Recent(times, early), late) == Recent(times, late)
  {
    if times != [] {
      RecentTwice(times[1..], early, late);
      if times[0] > early {
        assert ([times[0]] + Recent(times[1..], early))[1..] == Recent(times[1..], early);
      }
    }
  }

  /** From this cutoff on, the map and the history agree about the client. */
  ghost predicate Agree(kept: seq<int>, all: seq<int>, from: int) {
    forall cutoff :: cutoff >= from ==> Recent(kept, cutoff) == Recent(all, cutoff)
  }

  ghost predicate AllAgree(hits: Hits, rs: seq<Request>, from: int) {
    forall c: Client :: Agree(HitsOf(hits, c), TimesOf(rs, c), from)
  }

  lemma OneAgrees(kept: seq<int>, all: seq<int>, at: int)
    requires Agree(kept, all, at - WINDOW)
    ensures Agree(Recent(kept, at - WINDOW) + [at], all + [at], at - WINDOW)
  {
    forall cutoff | cutoff >= at - WINDOW
      ensures Recent(Recent(kept, at - WINDOW) + [at], cutoff) == Recent(all + [at], cutoff)
    {
      RecentJoin(Recent(kept, at - WINDOW), [at], cutoff);
      RecentTwice(kept, at - WINDOW, cutoff);
      RecentJoin(all, [at], cutoff);
    }
  }

  /** A client swept at some cutoff has nothing after any later one. */
  lemma SweptAgrees(hits: Hits, cutoff: int, c: Client, all: seq<int>)
    requires Agree(HitsOf(hits, c), all, cutoff)
    ensures Agree(HitsOf(Swept(hits, cutoff), c), all, cutoff)
  {
    if c in hits && Recent(hits[c], cutoff) == [] {
      forall later | later >= cutoff ensures Recent([], later) == Recent(all, later) {
        RecentTwice(hits[c], cutoff, later);
      }
    }
  }

  lemma LaterAgrees(kept: seq<int>, all: seq<int>, from: int, later: int)
    requires Agree(kept, all, from) && from <= later
    ensures Agree(kept, all, later)
  {
    forall cutoff | cutoff >= later ensures Recent(kept, cutoff) == Recent(all, cutoff) { }
  }

  lemma TimesAppend(rs: seq<Request>, r: Request, c: Client)
    ensures TimesOf(rs + [r], c) == if r.client == c then TimesOf(rs, c) + [r.at] else TimesOf(rs, c)
  {
    assert (rs + [r])[..|rs|] == rs;
  }

  lemma StepAgrees(hits: Hits, rs: seq<Request>, r: Request, from: int)
    requires AllAgree(hits, rs, from) && from <= r.at - WINDOW
    ensures AllAgree(Limited(hits, r).0, rs + [r], r.at - WINDOW)
  {
    var cutoff := r.at - WINDOW;
    var seen := Recent(HitsOf(hits, r.client), cutoff) + [r.at];
    var stored := hits[r.client := seen];
    forall c: Client ensures Agree(HitsOf(Limited(hits, r).0, c), TimesOf(rs + [r], c), cutoff) {
      LaterAgrees(HitsOf(hits, c), TimesOf(rs, c), from, cutoff);
      TimesAppend(rs, r, c);
      if c == r.client { OneAgrees(HitsOf(hits, c), TimesOf(rs, c), r.at); }
      assert Agree(HitsOf(stored, c), TimesOf(rs + [r], c), cutoff);
      SweptAgrees(stored, cutoff, c, TimesOf(rs + [r], c));
    }
  }

  lemma {:induction false} MapAgrees(rs: seq<Request>, from: int)
    requires Nondecreasing(rs)
    requires rs == [] || from == rs[|rs| - 1].at - WINDOW
    ensures AllAgree(After(map[], rs), rs, from)
  {
    if rs != [] {
      var front, r := rs[..|rs| - 1], rs[|rs| - 1];
      assert front + [r] == rs;
      var before := if front == [] then from else front[|front| - 1].at - WINDOW;
      assert forall i :: 0 <= i < |front| ==> front[i] == rs[i];
      MapAgrees(front, before);
      StepAgrees(After(map[], front), front, r, before);
    }
  }

  /** With a clock that never goes back, pruning and sweeping change no decision. */
  lemma PruningChangesNoVerdict(rs: seq<Request>)
    requires rs != [] && Nondecreasing(rs)
    ensures Verdict(rs) == FullVerdict(rs)
  {
    var front, r := rs[..|rs| - 1], rs[|rs| - 1];
    assert forall i :: 0 <= i < |front| ==> front[i] == rs[i];
    var before := if front == [] then r.at - WINDOW else front[|front| - 1].at - WINDOW;
    MapAgrees(front, before);
    assert Agree(HitsOf(After(map[], front), r.client), TimesOf(front, r.client), before);
  }

  /** So a client is refused exactly when it made five or more requests in the last ten minutes. */
  lemma RefusedIff(rs: seq<Request>)
    requires rs != [] && Nondecreasing(rs)
    ensures var r := rs[|rs| - 1];
            Verdict(rs) <==> |Places(rs[..|rs| - 1], r.client, r.at - 10 * 60 * 1000)| >= 5
  {
    var r := rs[|rs| - 1];
    PruningChangesNoVerdict(rs);
    CountIs(rs[..|rs| - 1], r.client, r.at - WINDOW);
  }

  lemma {:induction false} RecentMembers(times: seq<int>, cutoff: int)
    ensures forall t :: t in Recent(times, cutoff) ==> t in times && t > cutoff
  {
    if times != [] { RecentMembers(times[1..], cutoff); }
  }

  /** The sweep looks at every client; it is left out only if there are few. */
  lemma SweepSpares(hits: Hits, r: Request)
    ensures |Limited(hits, r).0| > SWEEP_ABOVE ==> forall c :: c in Limited(hits, r).0 ==> Recent(Limited(hits, r).0[c], r.at - WINDOW) != []
  {
  }

  lemma RecentHit(times: seq<int>, cutoff: int)
    requires Recent(times, cutoff) != []
    ensures exists t :: t in times && t > cutoff
  {
    RecentMembers(times, cutoff);
    var t := Recent(times, cutoff)[0];
    assert t in Recent(times, cutoff);
    assert t in times && t > cutoff;
  }

  lemma AfterLast(rs: seq<Request>)
    requires rs != []
    ensures After(map[], rs) == Limited(After(map[], rs[..|rs| - 1]), rs[|rs| - 1]).0
  {
    hide Limited;
  }

  /** While more than 5000 clients are remembered, each of them was there in the last ten minutes. */
  lemma CrowdIsRecent(rs: seq<Request>, c: Client)
    requires rs != [] && |After(map[], rs)| > 5000 && c in After(map[], rs)
    ensures exists t :: t in After(map[], rs)[c] && t > rs[|rs| - 1].at - 10 * 60 * 1000
  {
    AfterLast(rs);
    hide After, Limited, Recent;
    SweepSpares(After(map[], rs[..|rs| - 1]), rs[|rs| - 1]);
    RecentHit(After(map[], rs)[c], rs[|rs| - 1].at - WINDOW);
  }

  /** The places of a client's requests after the cutoff. */
  function Places(rs: seq<Request>, c: Client, cutoff: int): set<int> {
    set i | 0 <= i < |rs| && rs[i].client == c && rs[i].at > cutoff
  }

  lemma PlacesAppend(rs: seq<Request>, r: Request, c: Client, cutoff: int)
    ensures |Places(rs + [r], c, cutoff)| == |Places(rs, c, cutoff)| + if r.client == c && r.at > cutoff then 1 else 0
  {
    var before := Places(rs, c, cutoff);
    assert |rs| !in before;
    assert Places(rs + [r], c, cutoff) == before + if r.client == c && r.at > cutoff then {|rs|} else {};
  }

  lemma {:induction false} RecentAppend(times: seq<int>, t: int, cutoff: int)
    ensures Recent(times + [t], cutoff) == if t > cutoff then Recent(times, cutoff) + [t] else Recent(times, cutoff)
  {
    RecentJoin(times, [t], cutoff);
    if t > cutoff { RecentAll([t], cutoff); } else { RecentNone([t], cutoff); }
  }

  lemma {:induction false} CountIs(rs: seq<Request>, c: Client, cutoff: int)
    ensures |Recent(TimesOf(rs, c), cutoff)| == |Places(rs, c, cutoff)|
  {
    if rs == [] {
      assert Places(rs, c, cutoff) == {};
    } else {
      var front, r := rs[..|rs| - 1], rs[|rs| - 1];
      assert rs == front + [r];
      CountIs(front, c, cutoff);
      PlacesAppend(front, r, c, cutoff);
      RecentAppend(TimesOf(front, c), r.at, cutoff);
    }
  }

  // ------------------------------------------------- a clock that goes back

  function Zeros(k: nat): seq<Request> {
    seq(k, _ => Request(0, 0))
  }

  function ZeroTimes(k: nat): seq<int> {
    seq(k, _ => 0)
  }

  lemma {:induction false} RecentAll(times: seq<int>, cutoff: int)
    requires forall t :: t in times ==> t > cutoff
    ensures Recent(times, cutoff) == times
  {
    if times != [] {
      assert times[0] in times && forall t :: t in times[1..] ==> t in times;
      RecentAll(times[1..], cutoff);
    }
  }

  lemma {:induction false} RecentNone(times: seq<int>, cutoff: int)
    requires forall t :: t in times ==> t <= cutoff
    ensures Recent(times, cutoff) == []
  {
    if times != [] {
      assert times[0] in times && forall t :: t in times[1..] ==> t in times;
      RecentNone(times[1..], cutoff);
    }
  }

  lemma {:induction false} ZerosStored(k: nat)
    ensures TimesOf(Zeros(k), 0) == ZeroTimes(k)
    ensures After(map[], Zeros(k)) == if k == 0 then map[] else map[0 := ZeroTimes(k)]
  {
    if k > 0 {
      ZerosStored(k - 1);
      assert Zeros(k)[..k - 1] == Zeros(k - 1);
      assert ZeroTimes(k) == ZeroTimes(k - 1) + [0];
      hide Limited;
      ZeroLimited(k);
    }
  }

  lemma ZeroLimited(k: nat)
    requires k > 0
    ensures Limited(if k == 1 then map[] else map[0 := ZeroTimes(k - 1)], Request(0, 0)).0 == map[0 := ZeroTimes(k)]
  {
    hide Swept;
    var hits: Hits := if k == 1 then map[] else map[0 := ZeroTimes(k - 1)];
    RecentAll(ZeroTimes(k - 1), -WINDOW);
    assert ZeroTimes(k) == ZeroTimes(k - 1) + [0];
    assert hits[0 := ZeroTimes(k)].Keys == {0};
    assert hits[0 := ZeroTimes(k)] == map[0 := ZeroTimes(k)];
  }

  /** A late request prunes every earlier hit from the store. */
  lemma LatePrunes(k: nat)
    ensures After(map[], Zeros(k) + [Request(0, WINDOW)]) == map[0 := [WINDOW]]
  {
    var late := Zeros(k) + [Request(0, WINDOW)];
    assert late[..k] == Zeros(k);
    ZerosStored(k);
    RecentNone(ZeroTimes(k), 0);
    var hits := After(map[], Zeros(k));
    assert hits[0 := [WINDOW]] == map[0 := [WINDOW]];
    assert |map[0 := [WINDOW]]| == 1;
    assert Recent(HitsOf(hits, 0), 0) + [WINDOW] == [WINDOW];
  }

  lemma LateHistory(k: nat)
    requires k >= MAX_HITS
    ensures FullVerdict(Zeros(k) + [Request(0, WINDOW)] + [Request(0, 1)])
  {
    var late := Zeros(k) + [Request(0, WINDOW)];
    ZerosStored(k);
    TimesAppend(Zeros(k), Request(0, WINDOW), 0);
    RecentAll(ZeroTimes(k) + [WINDOW], 1 - WINDOW);
    assert (late + [Request(0, 1)])[..k + 1] == late;
  }

  /** If the clock goes back after a prune, hits the history still counts are forgotten: any number of them. */
  lemma BackwardClockForgets(k: nat)
    requires k >= MAX_HITS
    ensures var rs := Zeros(k) + [Request(0, WINDOW)] + [Request(0, 1)];
            !Verdict(rs) && FullVerdict(rs)
  {
    hide FullVerdict, After;
    var late := Zeros(k) + [Request(0, WINDOW)];
    LatePrunes(k);
    LateHistory(k);
    assert (late + [Request(0, 1)])[..k + 1] == late;
    assert |Recent([WINDOW], 1 - WINDOW)| <= 1 by { assert [WINDOW][1..] == []; }
  }

  // -------------------------------------------------------- the operations

  class Limiter {
    var hits: Hits

    constructor ()
      ensures hits == map[]
    {
      hits := map[];
    }

    method RateLimited(client: Client, now: int) returns (limited: bool)
      modifies this
      ensures (hits, limited) == Limited(old(hits), Request(client, now))
    {
      var cutoff := now - WINDOW;
      var seen := Prune(if client in hits then hits[client] else [], cutoff);
      seen := seen + [now];
      hits := hits[client := seen];
      if |hits| > SWEEP_ABOVE { Sweep(cutoff); }
      limited := |seen| > MAX_HITS;
    }

    /** The cleanup loop: clients without a recent hit are deleted one by one. */
    method Sweep(cutoff: int)
      modifies this
      ensures hits == Swept(old(hits), cutoff)
    {
      var left := hits.Keys;
      while left != {}
        invariant left <= hits.Keys <= old(hits).Keys
        invariant forall c :: c in hits ==> hits[c] == old(hits)[c]
        invariant forall c :: c in old(hits) && c !in left ==> (c in hits <==> Recent(old(hits)[c], cutoff) != [])
        decreases left
      {
        var c :| c in left;
        left := left - {c};
        var recent := Prune(hits[c], cutoff);
        if |recent| == 0 { hits := hits - {c}; }
      }
    }
  }

  method Prune(times: seq<int>, cutoff: int) returns (kept: seq<int>)
    ensures kept == Recent(times, cutoff)
  {
    kept := [];
    for i := 0 to |times|
      invariant kept + Recent(times[i..], cutoff) == Recent(times, cutoff)
    {
      assert times[i..][0] == times[i] && times[i..][1..] == times[i + 1..];
      if times[i] > cutoff { kept := kept + [times[i]]; }
    }
  }
}
