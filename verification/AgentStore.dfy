/**
 * The agent registry file: what one locked read-change-write does to it, and why the list of
 * removed built-ins makes repeated seeding invisible.
 */
module AgentStore {
  import opened Wrappers

  datatype AgentDef = AgentDef(id: string, builtin: bool, body: string)

  datatype Registry = Registry(agents: seq<AgentDef>, removed: seq<string>)

  const EMPTY := Registry([], [])

  /** The file on disk as the strict reader sees it. */
  datatype File = Absent | Corrupt | Holds(reg: Registry)

  datatype Op = List | Get(id: string) | Add(def: AgentDef) | Remove(id: string)

  datatype Answer =
    | Listed(all: set<AgentDef>)
    | Found(agent: Option<AgentDef>)
    | Added(stored: AgentDef)
    | Removed(ok: bool)
    | Threw

  // ------------------------------------------------------- specification

  /** Index of the first agent with this id, or the length. */
  function IndexOf(agents: seq<AgentDef>, id: string): (k: nat)
    ensures k <= |agents|
    ensures k < |agents| ==> agents[k].id == id
    ensures forall i :: 0 <= i < k ==> agents[i].id != id
  {
    if agents == [] || agents[0].id == id then 0 else 1 + IndexOf(agents[1..], id)
  }

  predicate Has(agents: seq<AgentDef>, id: string) {
    IndexOf(agents, id) < |agents|
  }

  function SeedOne(reg: Registry, def: AgentDef): Registry {
    if def.id in reg.removed || Has(reg.agents, def.id) then reg else reg.(agents := reg.agents + [def])
  }

  function Seeded(reg: Registry, builtins: seq<AgentDef>): Registry
    decreases |builtins|
  {
    if builtins == [] then reg else Seeded(SeedOne(reg, builtins[0]), builtins[1..])
  }

  /** The caller's change, applied to the registry read under the lock. */
  function Change(reg: Registry, op: Op): (Registry, Answer) {
    match op
    case List => (reg, Listed(set a | a in reg.agents))
    case Get(id) =>
      var k := IndexOf(reg.agents, id);
      (reg, Found(if k < |reg.agents| then Some(reg.agents[k]) else None))
    case Add(def) =>
      if Has(reg.agents, def.id) then (reg, Threw)
      else (reg.(agents := reg.agents + [def.(builtin := false)]), Added(def.(builtin := false)))
    case Remove(id) =>
      var k := IndexOf(reg.agents, id);
      if k == |reg.agents| then (reg, Removed(false))
      else (Registry(reg.agents[..k] + reg.agents[k + 1..],
                     if reg.agents[k].builtin && id !in reg.removed then reg.removed + [id] else reg.removed),
            Removed(true))
  }

  /** `read` on anything but a corrupt file. */
  function Load(file: File): Registry {
    if file.Holds? then file.reg else EMPTY
  }

  /** One `mutate`; switching seeding off is seeding from no built-ins. */
  function Mutate(file: File, builtins: seq<AgentDef>, op: Op): (File, Answer) {
    if file.Corrupt? then (file, Threw)
    else
      var reg := Seeded(Load(file), builtins);
      var (reg', answer) := Change(reg, op);
      if answer.Threw? then (file, Threw)
      else if reg != Load(file) || reg' != reg then (Holds(reg'), answer)
      else (file, answer)
  }

  /** The file after a sequence of mutations. */
  function After(file: File, builtins: seq<AgentDef>, ops: seq<Op>): File
    decreases |ops|
  {
    if ops == [] then file else After(Mutate(file, builtins, ops[0]).0, builtins, ops[1..])
  }

  function Answers(file: File, builtins: seq<AgentDef>, ops: seq<Op>): seq<Answer>
    decreases |ops|
  {
    if ops == [] then []
    else
      var (file', answer) := Mutate(file, builtins, ops[0]);
      [answer] + Answers(file', builtins, ops[1..])
  }

  // ------------------------------------------------------------ invariant

  ghost predicate UniqueIds(agents: seq<AgentDef>) {
    forall i, j :: 0 <= i < j < |agents| ==> agents[i].id != agents[j].id
  }

  ghost predicate BuiltinsOk(builtins: seq<AgentDef>) {
    UniqueIds(builtins) && forall b :: b in builtins ==> b.builtin
  }

  /** A built-in's id carries the built-in itself until it is removed, and never again afterwards. */
  ghost predicate AgentOk(reg: Registry, builtins: seq<AgentDef>, a: AgentDef) {
    if Has(builtins, a.id) then a.builtin == (a.id !in reg.removed) && (a.builtin ==> a in builtins)
    else !a.builtin
  }

  ghost predicate Good(reg: Registry, builtins: seq<AgentDef>) {
    && UniqueIds(reg.agents)
    && (forall a :: a in reg.agents ==> AgentOk(reg, builtins, a))
    && (forall id :: id in reg.removed ==> Has(builtins, id))
  }

  ghost predicate Accounted(reg: Registry, b: AgentDef) {
    Has(reg.agents, b.id) || b.id in reg.removed
  }

  /** Every built-in is present or remembered as removed. */
  ghost predicate Complete(reg: Registry, builtins: seq<AgentDef>) {
    forall b :: b in builtins ==> Accounted(reg, b)
  }

  lemma HasMember(agents: seq<AgentDef>, a: AgentDef)
    requires a in agents
    ensures Has(agents, a.id)
    ensures UniqueIds(agents) ==> agents[IndexOf(agents, a.id)] == a
  {
    var i :| 0 <= i < |agents| && agents[i] == a;
    assert !(i < IndexOf(agents, a.id));
  }

  lemma HasAppend(agents: seq<AgentDef>, a: AgentDef, id: string)
    ensures Has(agents + [a], id) <==> Has(agents, id) || a.id == id
  {
    var more := agents + [a];
    if Has(agents, id) { HasMember(more, agents[IndexOf(agents, id)]); assert agents[IndexOf(agents, id)] in more; }
    if a.id == id { assert a in more; HasMember(more, a); }
    if Has(more, id) && a.id != id {
      var k := IndexOf(more, id);
      assert more[k] == agents[k] && agents[k] in agents;
      HasMember(agents, agents[k]);
    }
  }

  lemma SeedOneKeeps(reg: Registry, builtins: seq<AgentDef>, b: AgentDef)
    requires Good(reg, builtins) && BuiltinsOk(builtins) && b in builtins
    ensures Good(SeedOne(reg, b), builtins) && Accounted(SeedOne(reg, b), b)
  {
    HasMember(builtins, b);
    HasAppend(reg.agents, b, b.id);
    var reg' := SeedOne(reg, b);
    if reg' != reg {
      forall a | a in reg'.agents ensures AgentOk(reg', builtins, a) {
        assert a == b || (a in reg.agents && AgentOk(reg, builtins, a));
      }
    }
  }

  lemma {:induction false} SeedingCompletes(reg: Registry, builtins: seq<AgentDef>, rest: seq<AgentDef>)
    requires Good(reg, builtins) && BuiltinsOk(builtins)
    requires forall b :: b in rest ==> b in builtins
    ensures Good(Seeded(reg, rest), builtins) && Complete(Seeded(reg, rest), rest)
    ensures forall b: AgentDef :: Accounted(reg, b) ==> Accounted(Seeded(reg, rest), b)
    ensures Seeded(reg, rest).removed == reg.removed && reg.agents <= Seeded(reg, rest).agents
    ensures forall a :: a in Seeded(reg, rest).agents ==> a in reg.agents || (a in rest && a.id !in reg.removed)
    decreases |rest|
  {
    if rest != [] {
      var one := SeedOne(reg, rest[0]);
      SeedOneKeeps(reg, builtins, rest[0]);
      SeedingCompletes(one, builtins, rest[1..]);
      forall b: AgentDef | Accounted(reg, b) ensures Accounted(one, b) {
        HasAppend(reg.agents, rest[0], b.id);
      }
      assert forall b :: b in rest ==> b == rest[0] || b in rest[1..];
    }
  }

  lemma {:induction false} NothingToSeed(reg: Registry, builtins: seq<AgentDef>)
    requires Complete(reg, builtins)
    ensures Seeded(reg, builtins) == reg
    decreases |builtins|
  {
    if builtins != [] {
      assert Accounted(reg, builtins[0]);
      assert forall b :: b in builtins[1..] ==> b in builtins;
      NothingToSeed(reg, builtins[1..]);
    }
  }

  /** What a removal leaves: everything but the agent with that id. */
  lemma RemoveAt(agents: seq<AgentDef>, k: nat)
    requires UniqueIds(agents) && k < |agents|
    ensures var rest := agents[..k] + agents[k + 1..];
            UniqueIds(rest) && !Has(rest, agents[k].id)
            && forall a :: a in rest <==> a in agents && a != agents[k]
  {
    var rest := agents[..k] + agents[k + 1..];
    forall a | a in agents && a != agents[k] ensures a in rest {
      var i :| 0 <= i < |agents| && agents[i] == a;
      if i < k { assert rest[i] == a; } else { assert rest[i - 1] == a; }
    }
    forall i | 0 <= i < |rest| ensures rest[i] in agents && rest[i].id != agents[k].id {
      if i < k { assert rest[i] == agents[i]; } else { assert rest[i] == agents[i + 1]; }
    }
  }

  lemma ChangeKeeps(reg: Registry, builtins: seq<AgentDef>, op: Op)
    requires Good(reg, builtins) && BuiltinsOk(builtins) && Complete(reg, builtins)
    ensures Good(Change(reg, op).0, builtins) && Complete(Change(reg, op).0, builtins)
  {
    var reg' := Change(reg, op).0;
    match op
    case List =>
    case Get(_) =>
    case Add(def) =>
      if !Has(reg.agents, def.id) { AddKeeps(reg, builtins, def.(builtin := false)); }
    case Remove(id) =>
      var k := IndexOf(reg.agents, id);
      if k < |reg.agents| { RemoveKeeps(reg, builtins, k); }
  }

  lemma AddKeeps(reg: Registry, builtins: seq<AgentDef>, def: AgentDef)
    requires Good(reg, builtins) && BuiltinsOk(builtins) && Complete(reg, builtins)
    requires !def.builtin && !Has(reg.agents, def.id)
    ensures var reg' := reg.(agents := reg.agents + [def]); Good(reg', builtins) && Complete(reg', builtins)
  {
    var reg' := reg.(agents := reg.agents + [def]);
    if Has(builtins, def.id) {
      assert Accounted(reg, builtins[IndexOf(builtins, def.id)]);
    }
    forall a | a in reg'.agents ensures AgentOk(reg', builtins, a) {
      assert a == def || (a in reg.agents && AgentOk(reg, builtins, a));
    }
    forall b | b in builtins ensures Accounted(reg', b) {
      assert Accounted(reg, b);
      HasAppend(reg.agents, def, b.id);
    }
  }

  lemma RemoveKeeps(reg: Registry, builtins: seq<AgentDef>, k: nat)
    requires Good(reg, builtins) && BuiltinsOk(builtins) && Complete(reg, builtins)
    requires k < |reg.agents| && k == IndexOf(reg.agents, reg.agents[k].id)
    ensures var reg' := Change(reg, Remove(reg.agents[k].id)).0; Good(reg', builtins) && Complete(reg', builtins)
  {
    var gone := reg.agents[k];
    var reg' := Change(reg, Remove(gone.id)).0;
    RemoveAt(reg.agents, k);
    assert AgentOk(reg, builtins, gone);
    forall a | a in reg'.agents ensures AgentOk(reg', builtins, a) {
      assert AgentOk(reg, builtins, a);
      HasMember(reg'.agents, a);
    }
    forall b | b in builtins ensures Accounted(reg', b) {
      assert Accounted(reg, b);
      HasMember(builtins, b);
      if b.id != gone.id && Has(reg.agents, b.id) {
        var a := reg.agents[IndexOf(reg.agents, b.id)];
        assert a in reg'.agents;
        HasMember(reg'.agents, a);
      }
    }
  }

  /**
   * No agent shadows a built-in: one with a built-in's id is flagged as such, or the built-in was removed.
   * A file written by any release with the same or fewer built-ins may lack some of them.
   */
  ghost predicate Sane(reg: Registry, builtins: seq<AgentDef>) {
    && UniqueIds(reg.agents)
    && forall a :: a in reg.agents && Has(builtins, a.id) && !a.builtin ==> a.id in reg.removed
  }

  ghost predicate FileOk(file: File, builtins: seq<AgentDef>) {
    match file
    case Absent => true
    case Corrupt => false
    case Holds(reg) => Sane(reg, builtins)
  }

  lemma {:induction false} SeedingIsSane(reg: Registry, builtins: seq<AgentDef>, rest: seq<AgentDef>)
    requires Sane(reg, builtins) && forall b :: b in rest ==> b.builtin
    ensures Sane(Seeded(reg, rest), builtins) && Complete(Seeded(reg, rest), rest)
    ensures forall b: AgentDef :: Accounted(reg, b) ==> Accounted(Seeded(reg, rest), b)
    ensures reg.agents <= Seeded(reg, rest).agents && Seeded(reg, rest).removed == reg.removed
    decreases |rest|
  {
    if rest != [] {
      var one := SeedOne(reg, rest[0]);
      HasAppend(reg.agents, rest[0], rest[0].id);
      forall b: AgentDef | Accounted(reg, b) ensures Accounted(one, b) { HasAppend(reg.agents, rest[0], b.id); }
      assert forall a :: a in one.agents ==> a in reg.agents || a == rest[0];
      forall i | 0 <= i < |reg.agents| ensures Has(reg.agents, reg.agents[i].id) { HasMember(reg.agents, reg.agents[i]); }
      assert Sane(one, builtins);
      SeedingIsSane(one, builtins, rest[1..]);
      assert forall b :: b in rest ==> b == rest[0] || b in rest[1..];
    }
  }

  /** The registry every operation sees. */
  lemma SeenIsComplete(file: File, builtins: seq<AgentDef>)
    requires FileOk(file, builtins) && BuiltinsOk(builtins)
    ensures Sane(Seeded(Load(file), builtins), builtins) && Complete(Seeded(Load(file), builtins), builtins)
  {
    SeedingIsSane(Load(file), builtins, builtins);
  }

  lemma AddIsSane(reg: Registry, builtins: seq<AgentDef>, def: AgentDef)
    requires Sane(reg, builtins) && Complete(reg, builtins) && !Has(reg.agents, def.id)
    ensures var reg' := reg.(agents := reg.agents + [def]); Sane(reg', builtins) && Complete(reg', builtins)
  {
    var reg' := reg.(agents := reg.agents + [def]);
    if Has(builtins, def.id) { assert Accounted(reg, builtins[IndexOf(builtins, def.id)]); }
    forall i | 0 <= i < |reg.agents| ensures Has(reg.agents, reg.agents[i].id) { HasMember(reg.agents, reg.agents[i]); }
    assert forall a :: a in reg'.agents ==> a in reg.agents || a == def;
    forall b | b in builtins ensures Accounted(reg', b) {
      assert Accounted(reg, b);
      HasAppend(reg.agents, def, b.id);
    }
  }

  lemma RemoveIsSane(reg: Registry, builtins: seq<AgentDef>, k: nat)
    requires Sane(reg, builtins) && Complete(reg, builtins)
    requires k < |reg.agents| && k == IndexOf(reg.agents, reg.agents[k].id)
    ensures var reg' := Change(reg, Remove(reg.agents[k].id)).0; Sane(reg', builtins) && Complete(reg', builtins)
  {
    var gone := reg.agents[k];
    var reg' := Change(reg, Remove(gone.id)).0;
    RemoveAt(reg.agents, k);
    forall b | b in builtins ensures Accounted(reg', b) {
      assert Accounted(reg, b);
      HasMember(builtins, b);
      if b.id != gone.id && Has(reg.agents, b.id) {
        var a := reg.agents[IndexOf(reg.agents, b.id)];
        assert a in reg'.agents;
        HasMember(reg'.agents, a);
      }
    }
  }

  lemma ChangeIsSane(reg: Registry, builtins: seq<AgentDef>, op: Op)
    requires Sane(reg, builtins) && Complete(reg, builtins)
    ensures Sane(Change(reg, op).0, builtins) && Complete(Change(reg, op).0, builtins)
  {
    match op
    case List =>
    case Get(_) =>
    case Add(def) => if !Has(reg.agents, def.id) { AddIsSane(reg, builtins, def.(builtin := false)); }
    case Remove(id) =>
      var k := IndexOf(reg.agents, id);
      if k < |reg.agents| { RemoveIsSane(reg, builtins, k); }
  }

  /** One mutation keeps the file sane. */
  lemma MutateKeeps(file: File, builtins: seq<AgentDef>, op: Op)
    requires FileOk(file, builtins) && BuiltinsOk(builtins)
    ensures FileOk(Mutate(file, builtins, op).0, builtins)
  {
    SeenIsComplete(file, builtins);
    ChangeIsSane(Seeded(Load(file), builtins), builtins, op);
  }

  /** A mutation that answers leaves a file with every built-in in it or remembered as removed. */
  lemma AnsweredIsComplete(file: File, builtins: seq<AgentDef>, op: Op)
    requires FileOk(file, builtins) && BuiltinsOk(builtins)
    requires !Mutate(file, builtins, op).1.Threw?
    ensures var after := Mutate(file, builtins, op).0; Complete(Load(after), builtins) && (builtins != [] ==> after.Holds?)
  {
    SeenIsComplete(file, builtins);
    ChangeIsSane(Seeded(Load(file), builtins), builtins, op);
    if builtins != [] && file.Absent? { assert Accounted(Seeded(EMPTY, builtins), builtins[0]); }
  }

  /** Every run of operations keeps ids unique and lets nothing shadow a built-in. */
  lemma {:induction false} RegistryStaysSane(file: File, builtins: seq<AgentDef>, ops: seq<Op>)
    requires FileOk(file, builtins) && BuiltinsOk(builtins)
    ensures FileOk(After(file, builtins, ops), builtins)
    decreases |ops|
  {
    if ops != [] {
      MutateKeeps(file, builtins, ops[0]);
      RegistryStaysSane(Mutate(file, builtins, ops[0]).0, builtins, ops[1..]);
    }
  }

  /** A file that only this release has written. */
  ghost predicate FileGood(file: File, builtins: seq<AgentDef>) {
    match file
    case Absent => true
    case Corrupt => false
    case Holds(reg) => Good(reg, builtins) && Complete(reg, builtins)
  }

  lemma GoodStep(file: File, builtins: seq<AgentDef>, op: Op)
    requires FileGood(file, builtins) && BuiltinsOk(builtins)
    ensures FileGood(Mutate(file, builtins, op).0, builtins)
  {
    SeedingCompletes(Load(file), builtins, builtins);
    if file.Holds? { NothingToSeed(file.reg, builtins); }
    hide Seeded, Good, Complete, Change;
    ChangeKeeps(Seeded(Load(file), builtins), builtins, op);
  }

  /** From an absent file, an agent with a built-in's id is that built-in until removed, and never again. */
  lemma {:induction false} RegistryAlwaysGood(file: File, builtins: seq<AgentDef>, ops: seq<Op>)
    requires FileGood(file, builtins) && BuiltinsOk(builtins)
    ensures FileGood(After(file, builtins, ops), builtins)
    decreases |ops|
  {
    if ops != [] {
      GoodStep(file, builtins, ops[0]);
      RegistryAlwaysGood(Mutate(file, builtins, ops[0]).0, builtins, ops[1..]);
    }
  }

  // ----------------------------------------------------------- refinement

  /** The agents by id. */
  function Contents(reg: Registry): (m: map<string, AgentDef>)
    ensures forall id :: id in m <==> Has(reg.agents, id)
    ensures forall id :: id in m ==> Has(reg.agents, id) && m[id] == reg.agents[IndexOf(reg.agents, id)]
  {
    var ids := set a | a in reg.agents :: a.id;
    assert forall a :: a in reg.agents ==> Has(reg.agents, a.id) by {
      forall a | a in reg.agents ensures Has(reg.agents, a.id) { HasMember(reg.agents, a); }
    }
    map id | id in ids && Has(reg.agents, id) :: reg.agents[IndexOf(reg.agents, id)]
  }

  /** What an operation sees: the file after seeding. */
  function View(file: File, builtins: seq<AgentDef>): map<string, AgentDef> {
    Contents(Seeded(Load(file), builtins))
  }

  /** The registry a user would imagine: a map of agents, with no seeding and no list of removals. */
  function PlainStep(m: map<string, AgentDef>, op: Op): (map<string, AgentDef>, Answer) {
    match op
    case List => (m, Listed(m.Values))
    case Get(id) => (m, Found(if id in m then Some(m[id]) else None))
    case Add(def) =>
      if def.id in m then (m, Threw) else (m[def.id := def.(builtin := false)], Added(def.(builtin := false)))
    case Remove(id) => (m - {id}, Removed(id in m))
  }

  function PlainAnswers(m: map<string, AgentDef>, ops: seq<Op>): seq<Answer>
    decreases |ops|
  {
    if ops == [] then []
    else
      var (m', answer) := PlainStep(m, ops[0]);
      [answer] + PlainAnswers(m', ops[1..])
  }

  lemma MemberContents(reg: Registry, a: AgentDef)
    requires UniqueIds(reg.agents) && a in reg.agents
    ensures a.id in Contents(reg) && Contents(reg)[a.id] == a
  {
    HasMember(reg.agents, a);
  }

  lemma ContentsAre(reg: Registry, m: map<string, AgentDef>)
    requires UniqueIds(reg.agents)
    requires forall a :: a in reg.agents ==> a.id in m && m[a.id] == a
    requires forall id :: id in m ==> m[id] in reg.agents && m[id].id == id
    ensures Contents(reg) == m
  {
    forall id | id in m ensures id in Contents(reg) && Contents(reg)[id] == m[id] {
      MemberContents(reg, m[id]);
    }
    forall id | id in Contents(reg) ensures id in m {
      assert Contents(reg)[id] in reg.agents;
    }
  }

  lemma ListIsValues(reg: Registry)
    requires UniqueIds(reg.agents)
    ensures (set a | a in reg.agents) == Contents(reg).Values
  {
    forall a | a in reg.agents ensures a in Contents(reg).Values {
      MemberContents(reg, a);
    }
  }

  lemma AddIsUpdate(reg: Registry, def: AgentDef)
    requires UniqueIds(reg.agents) && !Has(reg.agents, def.id)
    ensures Contents(reg.(agents := reg.agents + [def])) == Contents(reg)[def.id := def]
  {
    var reg' := reg.(agents := reg.agents + [def]);
    var m := Contents(reg)[def.id := def];
    forall a | a in reg'.agents ensures a.id in m && m[a.id] == a {
      if a in reg.agents { MemberContents(reg, a); }
    }
    ContentsAre(reg', m);
  }

  lemma RemoveIsDelete(reg: Registry, k: nat, removed: seq<string>)
    requires UniqueIds(reg.agents) && k < |reg.agents|
    ensures Contents(Registry(reg.agents[..k] + reg.agents[k + 1..], removed)) == Contents(reg) - {reg.agents[k].id}
  {
    var reg' := Registry(reg.agents[..k] + reg.agents[k + 1..], removed);
    RemoveAt(reg.agents, k);
    forall a | a in reg'.agents ensures a.id in Contents(reg) && Contents(reg)[a.id] == a {
      MemberContents(reg, a);
    }
    forall a | a in reg'.agents ensures a.id != reg.agents[k].id { HasMember(reg'.agents, a); }
    forall id | id in Contents(reg) && id != reg.agents[k].id ensures Contents(reg)[id] in reg'.agents {
      assert Contents(reg)[id] in reg.agents;
    }
    ContentsAre(reg', Contents(reg) - {reg.agents[k].id});
  }

  lemma ChangeIsPlain(reg: Registry, op: Op)
    requires UniqueIds(reg.agents)
    ensures Contents(Change(reg, op).0) == PlainStep(Contents(reg), op).0
    ensures Change(reg, op).1 == PlainStep(Contents(reg), op).1
  {
    match op
    case List => ListIsValues(reg);
    case Get(_) =>
    case Add(def) => AdditionIsPlain(reg, def);
    case Remove(id) => RemovalIsPlain(reg, id);
  }

  lemma AdditionIsPlain(reg: Registry, def: AgentDef)
    requires UniqueIds(reg.agents)
    ensures Contents(Change(reg, Add(def)).0) == PlainStep(Contents(reg), Add(def)).0
    ensures Change(reg, Add(def)).1 == PlainStep(Contents(reg), Add(def)).1
  {
    if !Has(reg.agents, def.id) { AddIsUpdate(reg, def.(builtin := false)); }
  }

  lemma NothingToDelete(m: map<string, AgentDef>, id: string)
    requires id !in m
    ensures m - {id} == m
  {
  }

  lemma RemovalIsPlain(reg: Registry, id: string)
    requires UniqueIds(reg.agents)
    ensures Contents(Change(reg, Remove(id)).0) == PlainStep(Contents(reg), Remove(id)).0
    ensures Change(reg, Remove(id)).1 == PlainStep(Contents(reg), Remove(id)).1
  {
    hide Contents, UniqueIds;
    var k := IndexOf(reg.agents, id);
    if k < |reg.agents| {
      assert Has(reg.agents, id);
      RemoveIsDelete(reg, k, Change(reg, Remove(id)).0.removed);
    } else {
      assert !Has(reg.agents, id);
      NothingToDelete(Contents(reg), id);
    }
  }

  lemma RefusedIsUnchanged(reg: Registry, op: Op)
    ensures Change(reg, op).1.Threw? ==> Change(reg, op).0 == reg
  {
  }

  /** One mutation of the file does to what users see exactly what the plain map does. */
  lemma MutateIsPlain(file: File, builtins: seq<AgentDef>, op: Op)
    requires FileOk(file, builtins) && BuiltinsOk(builtins)
    ensures View(Mutate(file, builtins, op).0, builtins) == PlainStep(View(file, builtins), op).0
    ensures Mutate(file, builtins, op).1 == PlainStep(View(file, builtins), op).1
  {
    hide PlainStep, Change, Contents, Seeded;
    var reg := Seeded(Load(file), builtins);
    RefusedIsUnchanged(reg, op);
    SeenIsComplete(file, builtins);
    ChangeIsPlain(reg, op);
    ChangeIsSane(reg, builtins, op);
    NothingToSeed(reg, builtins);
    NothingToSeed(Change(reg, op).0, builtins);
  }

  /** On an absent file users see exactly the built-ins. */
  lemma FreshView(builtins: seq<AgentDef>)
    requires BuiltinsOk(builtins)
    ensures View(Absent, builtins) == Contents(Registry(builtins, []))
  {
    var reg := Seeded(EMPTY, builtins);
    var m := Contents(Registry(builtins, []));
    SeedingCompletes(EMPTY, builtins, builtins);
    forall a | a in reg.agents ensures a.id in m && m[a.id] == a {
      MemberContents(Registry(builtins, []), a);
    }
    forall id | id in m ensures m[id] in reg.agents && m[id].id == id {
      assert m[id] in builtins && Accounted(reg, m[id]);
      var a := reg.agents[IndexOf(reg.agents, id)];
      assert a in reg.agents;
      MemberContents(Registry(builtins, []), a);
    }
    ContentsAre(reg, m);
  }

  /** Every answer of every run of operations is the plain map's, started from the built-ins. */
  lemma {:induction false} StoreRefinesMap(file: File, builtins: seq<AgentDef>, ops: seq<Op>)
    requires FileOk(file, builtins) && BuiltinsOk(builtins)
    ensures Answers(file, builtins, ops) == PlainAnswers(View(file, builtins), ops)
    decreases |ops|
  {
    if ops != [] {
      MutateKeeps(file, builtins, ops[0]);
      MutateIsPlain(file, builtins, ops[0]);
      StoreRefinesMap(Mutate(file, builtins, ops[0]).0, builtins, ops[1..]);
    }
  }

  /** An unreadable file makes every operation fail, reads included, and is never written over. */
  lemma {:induction false} CorruptStays(builtins: seq<AgentDef>, ops: seq<Op>)
    ensures After(Corrupt, builtins, ops) == Corrupt
    ensures Answers(Corrupt, builtins, ops) == seq(|ops|, _ => Threw)
    decreases |ops|
  {
    if ops != [] { CorruptStays(builtins, ops[1..]); }
  }

  /** Exactly: an operation fails on an unreadable file, and when an id is added that users see already. */
  lemma FailsIff(file: File, builtins: seq<AgentDef>, op: Op)
    ensures Mutate(file, builtins, op).1.Threw? <==> file.Corrupt? || (op.Add? && op.def.id in View(file, builtins))
    ensures Mutate(file, builtins, op).1.Threw? ==> Mutate(file, builtins, op).0 == file
  {
  }

  /** Once an operation has answered, looking does not write. */
  lemma LookingDoesNotWrite(file: File, builtins: seq<AgentDef>, op: Op, look: Op)
    requires FileOk(file, builtins) && BuiltinsOk(builtins) && !Mutate(file, builtins, op).1.Threw? && (look.List? || look.Get?)
    ensures var file' := Mutate(file, builtins, op).0; Mutate(file', builtins, look).0 == file'
  {
    AnsweredIsComplete(file, builtins, op);
    NothingToSeed(Load(Mutate(file, builtins, op).0), builtins);
  }

  /** A built-in that was removed stays away until somebody adds an agent of that id. */
  lemma {:induction false} RemovedStaysAway(file: File, builtins: seq<AgentDef>, ops: seq<Op>, id: string)
    requires FileOk(file, builtins) && BuiltinsOk(builtins)
    requires id !in View(file, builtins)
    requires forall op :: op in ops && op.Add? ==> op.def.id != id
    ensures id !in View(After(file, builtins, ops), builtins)
    decreases |ops|
  {
    if ops != [] {
      MutateKeeps(file, builtins, ops[0]);
      MutateIsPlain(file, builtins, ops[0]);
      assert ops[0] in ops;
      assert forall op :: op in ops[1..] ==> op in ops;
      RemovedStaysAway(Mutate(file, builtins, ops[0]).0, builtins, ops[1..], id);
    }
  }

  // ------------------------------------------------- a shadowed built-in

  lemma {:induction false} SeededHas(reg: Registry, rest: seq<AgentDef>, id: string)
    ensures Has(Seeded(reg, rest).agents, id) <==> Has(reg.agents, id) || (Has(rest, id) && id !in reg.removed)
    ensures Seeded(reg, rest).removed == reg.removed
    decreases |rest|
  {
    if rest != [] {
      HasAppend(reg.agents, rest[0], id);
      SeededHas(SeedOne(reg, rest[0]), rest[1..], id);
    }
  }

  lemma {:induction false} SeededUnique(reg: Registry, rest: seq<AgentDef>)
    requires UniqueIds(reg.agents)
    ensures UniqueIds(Seeded(reg, rest).agents)
    decreases |rest|
  {
    if rest != [] {
      forall i | 0 <= i < |reg.agents| ensures Has(reg.agents, reg.agents[i].id) { HasMember(reg.agents, reg.agents[i]); }
      SeededUnique(SeedOne(reg, rest[0]), rest[1..]);
    }
  }

  /**
   * Exactly: an agent that was removed is back at the next look if and only if it shadowed a built-in,
   * that is, it had the id of one that had not been removed and was not flagged as one itself.
   */
  lemma RemovedReturnsIff(file: File, builtins: seq<AgentDef>, id: string)
    requires !file.Corrupt? && UniqueIds(Load(file).agents) && id in View(file, builtins)
    ensures Mutate(file, builtins, Remove(id)).1 == Removed(true)
    ensures id in View(Mutate(file, builtins, Remove(id)).0, builtins) <==>
              Has(builtins, id) && !View(file, builtins)[id].builtin && id !in Load(file).removed
  {
    var reg := Seeded(Load(file), builtins);
    SeededUnique(Load(file), builtins);
    SeededHas(Load(file), builtins, id);
    RemovalForgets(reg, id);
    hide Seeded, UniqueIds, Change;
    SeededHas(Change(reg, Remove(id)).0, builtins, id);
  }

  /** A removal takes the agent out and notes it if it was flagged as built-in. */
  lemma RemovalForgets(reg: Registry, id: string)
    requires UniqueIds(reg.agents) && Has(reg.agents, id)
    ensures var (reg', answer) := Change(reg, Remove(id));
            && answer == Removed(true) && reg' != reg && !Has(reg'.agents, id)
            && (id in reg'.removed <==> id in reg.removed || reg.agents[IndexOf(reg.agents, id)].builtin)
  {
    var k := IndexOf(reg.agents, id);
    RemoveAt(reg.agents, k);
    assert |Change(reg, Remove(id)).0.agents| == |reg.agents| - 1;
  }

  const OWN := AgentDef("scout", false, "")
  const SHIPPED := AgentDef("scout", true, "")

  /** An agent added before a release ships a built-in of its id; removing it brings the built-in. */
  lemma ShadowHappens()
    ensures var file := After(Absent, [], [Add(OWN)]);
            && file == Holds(Registry([OWN], []))
            && Answers(file, [SHIPPED], [Remove("scout"), Get("scout")]) == [Removed(true), Found(Some(SHIPPED))]
  {
    var ops: seq<Op> := [Add(OWN)];
    assert ops[1..] == [] && After(Absent, [], ops) == After(Mutate(Absent, [], ops[0]).0, [], []);
    var file, builtins := Holds(Registry([OWN], [])), [SHIPPED];
    var asks := [Remove("scout"), Get("scout")];
    assert builtins[1..] == [] && asks[1..] == [Get("scout")] && asks[1..][1..] == [];
    assert Seeded(Registry([OWN], []), builtins) == Registry([OWN], []);
    assert [OWN][..0] + [OWN][1..] == [];
    assert Mutate(file, builtins, asks[0]) == (Holds(EMPTY), Removed(true));
    assert Seeded(EMPTY, builtins) == Registry([SHIPPED], []);
    assert Mutate(Holds(EMPTY), builtins, asks[1]) == (Holds(Registry([SHIPPED], [])), Found(Some(SHIPPED)));
    assert Answers(Holds(EMPTY), builtins, [Get("scout")]) == [Found(Some(SHIPPED))] + Answers(Holds(Registry([SHIPPED], [])), builtins, []);
  }

  // -------------------------------------------------------- the operations

  /** The registry object a mutation changes in place. */
  class LoadedRegistry {
    var agents: seq<AgentDef>
    var removed: seq<string>

    constructor (reg: Registry)
      ensures Value() == reg
    {
      agents, removed := reg.agents, reg.removed;
    }

    ghost function Value(): Registry
      reads this
    {
      Registry(agents, removed)
    }

    method Find(id: string) returns (k: nat)
      ensures k == IndexOf(agents, id)
    {
      k := 0;
      while k < |agents| && agents[k].id != id
        invariant k <= |agents|
        invariant IndexOf(agents, id) == k + IndexOf(agents[k..], id)
      {
        assert agents[k..][1..] == agents[k + 1..];
        k := k + 1;
      }
    }

    method Seed(builtins: seq<AgentDef>) returns (changed: bool)
      modifies this
      ensures Value() == Seeded(old(Value()), builtins)
      ensures changed == (Value() != old(Value()))
    {
      changed := false;
      for i := 0 to |builtins|
        invariant Seeded(Value(), builtins[i..]) == Seeded(old(Value()), builtins)
        invariant |agents| >= |old(agents)|
        invariant changed ==> |agents| > |old(agents)|
        invariant !changed ==> Value() == old(Value())
      {
        assert builtins[i..][0] == builtins[i] && builtins[i..][1..] == builtins[i + 1..];
        if builtins[i].id in removed { continue; }
        var k := Find(builtins[i].id);
        if k < |agents| { continue; }
        agents := agents + [builtins[i]];
        changed := true;
      }
    }

    /** The change a caller passes to `mutate`. */
    method Apply(op: Op) returns (answer: Answer)
      modifies this
      ensures (Value(), answer) == Change(old(Value()), op)
    {
      match op
      case List => answer := Listed(set a | a in agents);
      case Get(id) =>
        var k := Find(id);
        answer := Found(if k < |agents| then Some(agents[k]) else None);
      case Add(def) =>
        var k := Find(def.id);
        if k < |agents| { return Threw; }
        agents := agents + [def.(builtin := false)];
        answer := Added(def.(builtin := false));
      case Remove(id) =>
        var k := Find(id);
        if k == |agents| { return Removed(false); }
        var gone := agents[k];
        agents := agents[..k] + agents[k + 1..];
        if gone.builtin && id !in removed { removed := removed + [id]; }
        answer := Removed(true);
    }
  }

  class Store {
    const builtins: seq<AgentDef>
    var file: File

    constructor (builtins: seq<AgentDef>, file: File)
      ensures this.builtins == builtins && this.file == file
    {
      this.builtins, this.file := builtins, file;
    }

    /** The part of `mutate` under the lock. */
    method Perform(op: Op) returns (answer: Answer)
      modifies this
      ensures (file, answer) == Mutate(old(file), builtins, op)
    {
      if file.Corrupt? { return Threw; }
      var reg := new LoadedRegistry(if file.Holds? then file.reg else EMPTY);
      var seeded := reg.Seed(builtins);
      var before := Registry(reg.agents, reg.removed);
      answer := reg.Apply(op);
      if answer.Threw? { return; }
      if seeded || Registry(reg.agents, reg.removed) != before {
        file := Holds(Registry(reg.agents, reg.removed));
      }
    }
  }
}
