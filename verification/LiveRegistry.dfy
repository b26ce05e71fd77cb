/**
 * The daemon's side of the agent registry: a reader that takes no lock, skips malformed entries and
 * falls back on its last good snapshot, so that it never fails.
 */
module LiveRegistry {
  import opened Wrappers
  import opened AgentStore
  import Lock = AgentLock

  /** What a read of the file gives; an entry that does not parse as an agent is `None`. */
  datatype Text = Missing | Unreadable | Malformed | Envelope(entries: seq<Option<AgentDef>>) {

    /** Does the read replace the snapshot? */
    predicate Good() {
      Missing? || Envelope?
    }
  }

  type Order = (string, string) -> bool

  ghost predicate TotalPreorder(le: Order) {
    && (forall a, b :: le(a, b) || le(b, a))
    && (forall a, b, c :: le(a, b) && le(b, c) ==> le(a, c))
  }

  function Parsed(entries: seq<Option<AgentDef>>): seq<AgentDef> {
    if entries == [] then []
    else (if entries[0].Some? then [entries[0].value] else []) + Parsed(entries[1..])
  }

  /** The library's stable sort by id. */
  function SortById(agents: seq<AgentDef>, le: Order): seq<AgentDef> {
    if agents == [] then [] else Place(agents[0], SortById(agents[1..], le), le)
  }

  function Place(a: AgentDef, sorted: seq<AgentDef>, le: Order): seq<AgentDef> {
    if sorted == [] || le(a.id, sorted[0].id) then [a] + sorted else [sorted[0]] + Place(a, sorted[1..], le)
  }

  lemma {:induction false} PlaceKeeps(a: AgentDef, sorted: seq<AgentDef>, le: Order)
    ensures multiset(Place(a, sorted, le)) == multiset(sorted) + multiset{a}
  {
    if sorted != [] {
      assert sorted == [sorted[0]] + sorted[1..];
      PlaceKeeps(a, sorted[1..], le);
    }
  }

  lemma {:induction false} SortKeeps(agents: seq<AgentDef>, le: Order)
    ensures multiset(SortById(agents, le)) == multiset(agents)
  {
    if agents != [] {
      assert agents == [agents[0]] + agents[1..];
      SortKeeps(agents[1..], le);
      PlaceKeeps(agents[0], SortById(agents[1..], le), le);
    }
  }

  ghost predicate Ordered(agents: seq<AgentDef>, le: Order) {
    forall i, j :: 0 <= i < j < |agents| ==> le(agents[i].id, agents[j].id)
  }

  lemma {:induction false} PlaceOrdered(a: AgentDef, sorted: seq<AgentDef>, le: Order)
    requires TotalPreorder(le) && Ordered(sorted, le)
    ensures Ordered(Place(a, sorted, le), le)
  {
    if sorted != [] {
      var r := Place(a, sorted, le);
      if le(a.id, sorted[0].id) {
        forall j | 1 <= j < |r| ensures le(a.id, r[j].id) {
          assert le(sorted[0].id, sorted[j - 1].id) || j == 1;
        }
      } else {
        PlaceOrdered(a, sorted[1..], le);
        forall j | 1 <= j < |r| ensures le(sorted[0].id, r[j].id) {
          PlaceKeeps(a, sorted[1..], le);
          assert r[j] in multiset(Place(a, sorted[1..], le));
        }
      }
    }
  }

  lemma {:induction false} SortOrdered(agents: seq<AgentDef>, le: Order)
    requires TotalPreorder(le)
    ensures Ordered(SortById(agents, le), le)
  {
    if agents != [] {
      SortOrdered(agents[1..], le);
      PlaceOrdered(agents[0], SortById(agents[1..], le), le);
    }
  }

  /** Skipping is entry by entry: what stands around a malformed entry is read as if it were alone. */
  lemma {:induction false} ParsedJoins(a: seq<Option<AgentDef>>, b: seq<Option<AgentDef>>)
    ensures Parsed(a + b) == Parsed(a) + Parsed(b)
  {
    if a == [] {
      assert a + b == b;
    } else {
      assert (a + b)[1..] == a[1..] + b;
      ParsedJoins(a[1..], b);
    }
  }

  /** The answer to a text is read around each malformed entry, and holds each valid one. */
  lemma EachEntryCounts(a: seq<Option<AgentDef>>, b: seq<Option<AgentDef>>, agent: AgentDef)
    ensures Parsed(a + [None] + b) == Parsed(a + b)
    ensures Parsed(a + [Some(agent)] + b) == Parsed(a) + [agent] + Parsed(b)
  {
    ParsedJoins(a, b);
    forall one | one in {None, Some(agent)} ensures Parsed(a + [one] + b) == Parsed(a) + Parsed([one]) + Parsed(b) {
      ParsedJoins(a + [one], b);
      ParsedJoins(a, [one]);
    }
    assert [Some(agent)][1..] == [] && Parsed([Some(agent)]) == [agent];
    var none: seq<Option<AgentDef>> := [None];
    assert none[1..] == [] && Parsed(none) == [];
  }

  /** The agents whose ids compare equal to this one, in order. */
  function Ties(agents: seq<AgentDef>, id: string, le: Order): seq<AgentDef> {
    if agents == [] then []
    else (if le(agents[0].id, id) && le(id, agents[0].id) then [agents[0]] else []) + Ties(agents[1..], id, le)
  }

  lemma {:induction false} PlaceIsStable(a: AgentDef, sorted: seq<AgentDef>, id: string, le: Order)
    requires TotalPreorder(le) && Ordered(sorted, le)
    ensures Ties(Place(a, sorted, le), id, le) == Ties([a], id, le) + Ties(sorted, id, le)
  {
    assert [a][1..] == [];
    if sorted != [] && !le(a.id, sorted[0].id) {
      assert Place(a, sorted, le)[1..] == Place(a, sorted[1..], le);
      PlaceIsStable(a, sorted[1..], id, le);
    } else {
      assert ([a] + sorted)[1..] == sorted;
    }
  }

  /** Agents whose ids compare equal keep their order. */
  lemma {:induction false} SortIsStable(agents: seq<AgentDef>, id: string, le: Order)
    requires TotalPreorder(le)
    ensures Ties(SortById(agents, le), id, le) == Ties(agents, id, le)
  {
    if agents != [] {
      assert [agents[0]][1..] == [];
      hide Place, Ordered, TotalPreorder;
      SortOrdered(agents[1..], le);
      SortIsStable(agents[1..], id, le);
      PlaceIsStable(agents[0], SortById(agents[1..], le), id, le);
    }
  }

  /** What a good read shows. */
  function Shown(text: Text, le: Order): seq<AgentDef> {
    if text.Envelope? then SortById(Parsed(text.entries), le) else []
  }

  /** The specification of a history of reads: the latest good one counts. */
  function LatestGood(texts: seq<Text>): Option<nat> {
    if texts == [] then None
    else if texts[|texts| - 1].Good() then Some(|texts| - 1)
    else LatestGood(texts[..|texts| - 1])
  }

  function Reply(texts: seq<Text>, le: Order): seq<AgentDef> {
    var k := LatestGood(texts);
    if k.Some? && k.value < |texts| then Shown(texts[k.value], le) else []
  }

  class LiveAgentRegistry {
    const le: Order
    var lastGood: seq<AgentDef>
    ghost var history: seq<Text>

    ghost predicate Valid()
      reads this
    {
      lastGood == Reply(history, le)
    }

    constructor (le: Order)
      ensures Valid() && history == [] && this.le == le
    {
      this.le, lastGood, history := le, [], [];
    }

    /** Never fails, and always answers with the latest good read. */
    method Load(text: Text) returns (agents: seq<AgentDef>)
      requires Valid()
      modifies this
      ensures Valid() && history == old(history) + [text]
      ensures agents == Reply(history, le) && agents == lastGood
      ensures text.Good() ==> multiset(agents) == multiset(if text.Envelope? then Parsed(text.entries) else [])
      ensures !text.Good() ==> agents == old(lastGood)
    {
      history := history + [text];
      ReplyStep(old(history), text, le);
      if text.Missing? {
        lastGood := [];
        return [];
      }
      if text.Unreadable? || text.Malformed? { return lastGood; }
      agents := ParseEntries(text.entries);
      SortKeeps(agents, le);
      agents := SortById(agents, le);
      lastGood := agents;
    }

    /** Malformed entries are skipped one by one. */
    method ParseEntries(entries: seq<Option<AgentDef>>) returns (agents: seq<AgentDef>)
      ensures agents == Parsed(entries)
    {
      agents := [];
      for i := 0 to |entries|
        invariant agents + Parsed(entries[i..]) == Parsed(entries)
      {
        assert entries[i..][0] == entries[i] && entries[i..][1..] == entries[i + 1..];
        if entries[i].Some? { agents := agents + [entries[i].value]; }
      }
    }
  }

  lemma LatestGoodStep(texts: seq<Text>, text: Text)
    ensures LatestGood(texts + [text]) == if text.Good() then Some(|texts|) else LatestGood(texts)
    ensures LatestGood(texts).Some? ==> LatestGood(texts).value < |texts|
  {
    assert (texts + [text])[..|texts|] == texts;
    LatestGoodBound(texts);
  }

  lemma ReplyStep(texts: seq<Text>, text: Text, le: Order)
    ensures Reply(texts + [text], le) == if text.Good() then Shown(text, le) else Reply(texts, le)
  {
    LatestGoodStep(texts, text);
  }

  lemma {:induction false} LatestGoodBound(texts: seq<Text>)
    ensures LatestGood(texts).Some? ==>
              LatestGood(texts).value < |texts| && texts[LatestGood(texts).value].Good()
              && forall j :: LatestGood(texts).value < j < |texts| ==> !texts[j].Good()
    ensures LatestGood(texts).None? <==> forall t :: t in texts ==> !t.Good()
    decreases |texts|
  {
    if texts != [] {
      LatestGoodBound(texts[..|texts| - 1]);
      assert texts == texts[..|texts| - 1] + [texts[|texts| - 1]];
    }
  }

  /**
   * What is answered after any reads: the valid entries of the last read that could be read, sorted, an
   * absent file counting as an empty one; nothing if none could.
   */
  lemma AnswersWithTheLatest(texts: seq<Text>, le: Order, k: nat)
    requires k <= |texts| && forall j :: k <= j < |texts| ==> !texts[j].Good()
    ensures k == 0 ==> Reply(texts, le) == []
    ensures k > 0 && texts[k - 1].Envelope? ==> Reply(texts, le) == SortById(Parsed(texts[k - 1].entries), le)
    ensures k > 0 && texts[k - 1].Missing? ==> Reply(texts, le) == []
  {
    LatestGoodBound(texts);
    if k == 0 { assert forall t :: t in texts ==> !t.Good(); }
    else if texts[k - 1].Good() { assert texts[k - 1] in texts; assert LatestGood(texts) == Some(k - 1); }
  }

  /** A longer history never answers with an older read. */
  lemma {:induction false} LatestGoodAscends(texts: seq<Text>, n: nat, m: nat)
    requires n <= m <= |texts|
    ensures LatestGood(texts[..n]).Some? ==>
              LatestGood(texts[..m]).Some? && LatestGood(texts[..n]).value <= LatestGood(texts[..m]).value
    decreases m
  {
    LatestGoodBound(texts[..n]);
    if n < m {
      assert texts[..m][..m - 1] == texts[..m - 1];
      assert texts[..m] == texts[..m - 1] + [texts[m - 1]];
      LatestGoodStep(texts[..m - 1], texts[m - 1]);
      LatestGoodAscends(texts, n, m - 1);
    }
  }

  // ---------------------------------------------- reading what writers write

  function Whole(agents: seq<AgentDef>): seq<Option<AgentDef>> {
    if agents == [] then [] else [Some(agents[0])] + Whole(agents[1..])
  }

  /** The text a writer leaves behind. */
  function Rendered(file: File): Text {
    match file
    case Absent => Missing
    case Corrupt => Malformed
    case Holds(reg) => Envelope(Whole(reg.agents))
  }

  lemma {:induction false} AllValid(agents: seq<AgentDef>)
    ensures Parsed(Whole(agents)) == agents
  {
    if agents != [] {
      AllValid(agents[1..]);
      assert Whole(agents)[1..] == Whole(agents[1..]);
    }
  }

  /** The latest good read at or before read `i`. */
  function GoodAt(texts: seq<Text>, i: nat): Option<nat>
    requires i < |texts|
  {
    LatestGood(texts[..i + 1])
  }

  /** Each read shows what the file held, or fails. */
  ghost predicate Reading(texts: seq<Text>, observed: seq<File>) {
    && |texts| == |observed|
    && forall i :: 0 <= i < |texts| ==> texts[i] == Rendered(observed[i]) || texts[i] == Unreadable
  }

  lemma ShownIsRendered(file: File, le: Order)
    ensures Shown(Rendered(file), le) == SortById(AgentStore.Load(file).agents, le)
  {
    if file.Holds? { AllValid(file.reg.agents); }
  }

  lemma ReplyIsObserved(texts: seq<Text>, observed: seq<File>, le: Order, i: nat)
    requires Reading(texts, observed) && i < |texts| && GoodAt(texts, i).Some?
    ensures var k := GoodAt(texts, i).value;
            k <= i && Reply(texts[..i + 1], le) == SortById(AgentStore.Load(observed[k]).agents, le)
  {
    var k := GoodAt(texts, i).value;
    LatestGoodBound(texts[..i + 1]);
    ShownIsRendered(observed[k], le);
    assert texts[..i + 1][k] == texts[k];
  }

  /** The answer to read `i` is the sorted agents of one version of the serial history of writers. */
  ghost predicate FromHistory(s: Lock.State, file: File, builtins: seq<AgentDef>, texts: seq<Text>, le: Order, i: nat)
    requires i < |texts| <= |s.marks|
  {
    GoodAt(texts, i).Some? ==>
      var k := GoodAt(texts, i).value;
      && k <= i && s.marks[k] <= |s.log|
      && Reply(texts[..i + 1], le)
         == SortById(AgentStore.Load(After(file, builtins, Lock.Ops(s.log[..s.marks[k]]))).agents, le)
  }

  /** Answer `j` is not of an older version than answer `i`. */
  ghost predicate NotOlder(s: Lock.State, texts: seq<Text>, i: nat, j: nat)
    requires i <= j < |texts| <= |s.marks|
  {
    GoodAt(texts, i).Some? ==>
      && GoodAt(texts, j).Some? && GoodAt(texts, i).value <= GoodAt(texts, j).value < |texts|
      && s.marks[GoodAt(texts, i).value] <= s.marks[GoodAt(texts, j).value]
  }

  lemma OneRead(s: Lock.State, file: File, builtins: seq<AgentDef>, texts: seq<Text>, le: Order, i: nat)
    requires Reading(texts, s.observed) && |s.marks| == |texts| && i < |texts|
    requires forall k :: 0 <= k < |texts| ==> Lock.HistoricRead(s, file, builtins, k)
    ensures FromHistory(s, file, builtins, texts, le, i)
  {
    if GoodAt(texts, i).Some? {
      ReplyIsObserved(texts, s.observed, le, i);
      assert Lock.HistoricRead(s, file, builtins, GoodAt(texts, i).value);
    }
  }

  lemma TwoReads(s: Lock.State, texts: seq<Text>, i: nat, j: nat)
    requires |s.marks| == |texts| && i <= j < |texts| && Lock.MarksAscend(s)
    ensures NotOlder(s, texts, i, j)
  {
    LatestGoodBound(texts[..j + 1]);
    LatestGoodAscends(texts, i + 1, j + 1);
  }

  /**
   * The daemon reading while writers work, some reads failing: each answer is the sorted agents of
   * one committed version of the serial history, and a later answer is never an older version.
   */
  lemma LiveReadsAscend(file: File, builtins: seq<AgentDef>, es: seq<Lock.Event>, texts: seq<Text>, le: Order)
    requires FileOk(file, builtins) && BuiltinsOk(builtins) && Lock.NoSteal(Lock.Init(file), builtins, es)
    requires Reading(texts, Lock.Run(Lock.Init(file), builtins, es).observed)
    ensures var s := Lock.Run(Lock.Init(file), builtins, es);
            && |s.marks| == |texts|
            && (forall i :: 0 <= i < |texts| ==> FromHistory(s, file, builtins, texts, le, i))
            && (forall i, j :: 0 <= i <= j < |texts| ==> NotOlder(s, texts, i, j))
  {
    var s := Lock.Run(Lock.Init(file), builtins, es);
    Lock.ReadersSeeHistory(file, builtins, es);
    forall i | 0 <= i < |texts| ensures FromHistory(s, file, builtins, texts, le, i) {
      OneRead(s, file, builtins, texts, le, i);
    }
    forall i, j | 0 <= i <= j < |texts| ensures NotOlder(s, texts, i, j) {
      TwoReads(s, texts, i, j);
    }
  }
}
