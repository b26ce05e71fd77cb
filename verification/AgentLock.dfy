/**
 * Several processes changing the agent registry at once.  A writer takes the lock directory, reads
 * the file, decides, renames a new file into place and removes the directory; each of these is one
 * step, any writer may die between two steps, and readers take no lock at all.
 */
module AgentLock {
  import opened Wrappers
  import opened AgentStore

  const LOCK_ATTEMPTS: nat := 200

  type Who = nat

  datatype Pc =
    | Trying(attempt: nat)                                       // about to make the lock directory
    | Doubting(attempt: nat)                                     // saw a stale directory, about to remove it
    | Holding(ticket: nat)                                       // lock taken, about to read the file
    | Staged(ticket: nat, next: File, answer: Answer)            // temporary file written, about to rename
    | Releasing(ticket: nat, outcome: Option<Answer>)            // about to remove the lock directory
    | Finished(outcome: Option<Answer>)                          // None: an I/O error was thrown
    | LockHeld                                                   // gave up: "lock is held"
    | Dead
  {
    predicate Critical() {
      Holding? || Staged? || Releasing?
    }
  }

  datatype Writer = Writer(op: Op, pc: Pc)

  /** The history of decisions, each with the position of its lock acquisition. */
  datatype Entry = Entry(who: Who, op: Op, answer: Answer, ticket: nat)

  datatype State = State(
    file: File,
    lock: Option<Who>,          // the directory exists; who made it is not recorded in it
    writers: seq<Writer>,
    tickets: nat,               // lock acquisitions so far
    log: seq<Entry>,
    versions: seq<File>,        // the file after each decision
    observed: seq<File>,         // what lock-free readers got, in order
    marks: seq<nat>)            // the version current at each read
  {
    predicate Is(w: Who) {
      w < |writers|
    }

    function At(w: Who, pc: Pc): State
      requires Is(w)
    {
      this.(writers := writers[w := writers[w].(pc := pc)])
    }

    /** The decision of `w` becomes part of the history. */
    function Decide(w: Who, f: File, answer: Answer, ticket: nat): State
      requires Is(w)
    {
      this.(file := f, log := log + [Entry(w, writers[w].op, answer, ticket)], versions := versions + [f])
    }
  }

  datatype Event =
    | Begin(op: Op)
    | Try(who: Who, stale: bool)      // make the directory; if it exists, look at its age
    | Evict(who: Who)                 // remove the directory believed stale
    | ReadFile(who: Who, ok: bool)    // read, seed, change; stage a write if anything changed
    | Rename(who: Who, ok: bool)      // publish the staged file
    | Release(who: Who)               // remove the lock directory, whoever made it
    | Die(who: Who)
    | Load                            // a lock-free reader

  function NextTry(attempt: nat): Pc {
    if attempt + 1 >= LOCK_ATTEMPTS then LockHeld else Trying(attempt + 1)
  }

  function Begun(s: State, op: Op): State {
    s.(writers := s.writers + [Writer(op, Trying(0))])
  }

  function Tried(s: State, w: Who, stale: bool): State
    requires s.Is(w) && s.writers[w].pc.Trying?
  {
    if s.lock.None? then s.At(w, Holding(s.tickets)).(lock := Some(w), tickets := s.tickets + 1)
    else if stale then s.At(w, Doubting(s.writers[w].pc.attempt))
    else s.At(w, NextTry(s.writers[w].pc.attempt))
  }

  function HasRead(s: State, builtins: seq<AgentDef>, w: Who, ok: bool): State
    requires s.Is(w) && s.writers[w].pc.Holding?
  {
    var t := s.writers[w].pc.ticket;
    if !ok then s.At(w, Releasing(t, None))
    else
      var (next, answer) := Mutate(s.file, builtins, s.writers[w].op);
      if next == s.file then s.Decide(w, s.file, answer, t).At(w, Releasing(t, Some(answer)))
      else s.At(w, Staged(t, next, answer))
  }

  function Renamed(s: State, w: Who, ok: bool): State
    requires s.Is(w) && s.writers[w].pc.Staged?
  {
    var pc := s.writers[w].pc;
    if ok then s.Decide(w, pc.next, pc.answer, pc.ticket).At(w, Releasing(pc.ticket, Some(pc.answer)))
    else s.At(w, Releasing(pc.ticket, None))
  }

  function Next(s: State, builtins: seq<AgentDef>, e: Event): State {
    match e
    case Begin(op) => Begun(s, op)
    case Try(w, stale) => if s.Is(w) && s.writers[w].pc.Trying? then Tried(s, w, stale) else s
    case Evict(w) =>
      if s.Is(w) && s.writers[w].pc.Doubting? then s.At(w, NextTry(s.writers[w].pc.attempt)).(lock := None) else s
    case ReadFile(w, ok) => if s.Is(w) && s.writers[w].pc.Holding? then HasRead(s, builtins, w, ok) else s
    case Rename(w, ok) => if s.Is(w) && s.writers[w].pc.Staged? then Renamed(s, w, ok) else s
    case Release(w) =>
      if s.Is(w) && s.writers[w].pc.Releasing? then s.At(w, Finished(s.writers[w].pc.outcome)).(lock := None) else s
    case Die(w) => if s.Is(w) then s.At(w, Dead) else s
    case Load => s.(observed := s.observed + [s.file], marks := s.marks + [|s.log|])
  }

  // ------------------------------------------------------------- invariant

  /** The directory was made by the one writer inside the critical section. */
  ghost predicate Exclusive(s: State) {
    forall w :: 0 <= w < |s.writers| && s.writers[w].pc.Critical() ==> s.lock == Some(w)
  }

  /** The file is what the decisions, one after the other, make of the first version. */
  ghost predicate Serial(s: State, builtins: seq<AgentDef>) {
    && |s.versions| == |s.log| + 1
    && s.versions[|s.log|] == s.file
    && (forall k :: 0 <= k < |s.log| ==>
          (s.versions[k + 1], s.log[k].answer) == Mutate(s.versions[k], builtins, s.log[k].op))
    && (forall i, j :: 0 <= i < j < |s.log| ==> s.log[i].ticket < s.log[j].ticket)
  }

  ghost predicate InLog(s: State, w: Who) {
    exists k :: 0 <= k < |s.log| && s.log[k].who == w
  }

  ghost predicate Logged(s: State, w: Who, answer: Answer) {
    exists k :: 0 <= k < |s.log| && s.log[k].who == w && s.log[k].answer == answer
  }

  /** The history knows a writer's answer exactly when the writer has one. */
  ghost predicate WriterOk(s: State, builtins: seq<AgentDef>, w: Who)
    requires s.Is(w)
  {
    var pc := s.writers[w].pc;
    match pc
    case Trying(_) => !InLog(s, w)
    case Doubting(_) => !InLog(s, w)
    case LockHeld => !InLog(s, w)
    case Holding(t) => !InLog(s, w) && Latest(s, t)
    case Staged(t, next, answer) =>
      !InLog(s, w) && Latest(s, t) && Mutate(s.file, builtins, s.writers[w].op) == (next, answer)
    case Releasing(_, outcome) => if outcome.Some? then Logged(s, w, outcome.value) else !InLog(s, w)
    case Finished(outcome) => if outcome.Some? then Logged(s, w, outcome.value) else !InLog(s, w)
    case Dead => true
  }

  /** A ticket newer than every decision. */
  ghost predicate Latest(s: State, t: nat) {
    t < s.tickets && forall k :: 0 <= k < |s.log| ==> s.log[k].ticket < t
  }

  ghost predicate LogOk(s: State) {
    && (forall k :: 0 <= k < |s.log| ==>
          s.Is(s.log[k].who) && s.log[k].op == s.writers[s.log[k].who].op && s.log[k].ticket < s.tickets)
    && (forall i, j :: 0 <= i < j < |s.log| ==> s.log[i].who != s.log[j].who)
  }

  /** Reads return versions of the file, never an older one after a newer one. */
  ghost predicate ReadsAscend(s: State) {
    && |s.marks| == |s.observed|
    && (forall i :: 0 <= i < |s.observed| ==> s.marks[i] < |s.versions| && s.observed[i] == s.versions[s.marks[i]])
    && (forall i, j :: 0 <= i < j < |s.marks| ==> s.marks[i] <= s.marks[j])
  }

  ghost predicate Safe(s: State, builtins: seq<AgentDef>) {
    && Exclusive(s)
    && Serial(s, builtins)
    && LogOk(s)
    && ReadsAscend(s)
    && (forall w :: 0 <= w < |s.writers| ==> WriterOk(s, builtins, w))
  }

  /** The step removes the directory of a writer that is alive inside the critical section. */
  predicate Steals(s: State, e: Event) {
    && e.Evict?
    && s.Is(e.who) && s.writers[e.who].pc.Doubting?
    && s.lock.Some? && s.Is(s.lock.value) && s.writers[s.lock.value].pc.Critical()
  }

  /** Mutual exclusion is kept by a step exactly when it does not steal a live lock. */
  lemma ExclusionIff(s: State, builtins: seq<AgentDef>, e: Event)
    requires Exclusive(s)
    ensures Exclusive(Next(s, builtins, e)) <==> !Steals(s, e)
  {
    var s' := Next(s, builtins, e);
    if Steals(s, e) {
      assert s'.writers[s.lock.value].pc.Critical();
    } else {
      forall w | 0 <= w < |s'.writers| && s'.writers[w].pc.Critical() ensures s'.lock == Some(w) {
        if w < |s.writers| && s.writers[w].pc.Critical() { assert s.lock == Some(w); }
      }
    }
  }

  /** Taking a step outside the history leaves the history as it was. */
  lemma SameHistory(s: State, s': State, builtins: seq<AgentDef>, w: Who)
    requires s.Is(w) && s'.Is(w) && WriterOk(s, builtins, w)
    requires s'.writers[w] == s.writers[w] && s'.log == s.log && s'.file == s.file && s'.tickets >= s.tickets
    ensures WriterOk(s', builtins, w)
  {
    assert InLog(s', w) <==> InLog(s, w);
    forall a | Logged(s, w, a) ensures Logged(s', w, a) { }
  }

  /** A step that decides nothing leaves the file, and nobody's operation changes. */
  lemma QuietFrame(s: State, builtins: seq<AgentDef>, e: Event)
    requires Next(s, builtins, e).log == s.log
    ensures var s' := Next(s, builtins, e);
            && s'.file == s.file && s'.versions == s.versions && s'.tickets >= s.tickets
            && |s.writers| <= |s'.writers|
            && forall w :: 0 <= w < |s.writers| ==> s'.writers[w].op == s.writers[w].op
  {
  }

  lemma QuietWriter(s: State, builtins: seq<AgentDef>, e: Event, w: Who)
    requires Next(s, builtins, e).log == s.log && LogOk(s)
    requires s.Is(w) ==> WriterOk(s, builtins, w)
    requires Next(s, builtins, e).Is(w)
    ensures WriterOk(Next(s, builtins, e), builtins, w)
  {
    var s' := Next(s, builtins, e);
    QuietFrame(s, builtins, e);
    assert InLog(s', w) <==> InLog(s, w);
    if !s.Is(w) {
      assert !InLog(s, w);
    } else if s'.writers[w] == s.writers[w] {
      SameHistory(s, s', builtins, w);
    } else if s.writers[w].pc.Releasing? && s.writers[w].pc.outcome.Some? {
      assert Logged(s', w, s.writers[w].pc.outcome.value) <==> Logged(s, w, s.writers[w].pc.outcome.value);
    }
  }

  /** A step that decides nothing. */
  lemma QuietStep(s: State, builtins: seq<AgentDef>, e: Event)
    requires Safe(s, builtins) && !Steals(s, e)
    requires Next(s, builtins, e).log == s.log
    ensures Safe(Next(s, builtins, e), builtins)
  {
    var s' := Next(s, builtins, e);
    ExclusionIff(s, builtins, e);
    QuietFrame(s, builtins, e);
    assert Serial(s', builtins);
    assert LogOk(s');
    QuietReads(s, builtins, e);
    forall w | 0 <= w < |s'.writers| ensures WriterOk(s', builtins, w) {
      if w < |s.writers| { assert WriterOk(s, builtins, w); }
      QuietWriter(s, builtins, e, w);
    }
  }

  lemma QuietReads(s: State, builtins: seq<AgentDef>, e: Event)
    requires ReadsAscend(s) && Serial(s, builtins) && Next(s, builtins, e).log == s.log
    ensures ReadsAscend(Next(s, builtins, e))
  {
    QuietFrame(s, builtins, e);
  }

  /** The history grows by the decision of the one writer inside the critical section. */
  lemma DecisionStep(s: State, builtins: seq<AgentDef>, w: Who, f: File, answer: Answer, t: nat)
    requires Safe(s, builtins) && s.Is(w) && (s.writers[w].pc.Holding? || s.writers[w].pc.Staged?)
    requires t == s.writers[w].pc.ticket && Mutate(s.file, builtins, s.writers[w].op) == (f, answer)
    ensures Safe(s.Decide(w, f, answer, t).At(w, Releasing(t, Some(answer))), builtins)
  {
    var s' := s.Decide(w, f, answer, t).At(w, Releasing(t, Some(answer)));
    assert WriterOk(s, builtins, w);
    var n := |s.log|;
    assert s'.log[n].who == w && s'.log[n].answer == answer;
    assert Exclusive(s') by {
      forall v | 0 <= v < |s'.writers| && s'.writers[v].pc.Critical() ensures s'.lock == Some(v) {
        assert s.writers[v].pc.Critical();
      }
    }
    forall k | 0 <= k < n ensures s'.log[k] == s.log[k] && s.log[k].who != w { }
    forall v | 0 <= v < |s'.writers| ensures WriterOk(s', builtins, v) {
      assert WriterOk(s, builtins, v);
      if v == w { assert Logged(s', w, answer); }
      else {
        assert s.lock == Some(w) && !s.writers[v].pc.Critical();
        assert InLog(s', v) <==> InLog(s, v);
        forall a | Logged(s, v, a) ensures Logged(s', v, a) {
          var k :| 0 <= k < n && s.log[k].who == v && s.log[k].answer == a;
          assert s'.log[k] == s.log[k];
        }
      }
    }
  }

  /** Every step that steals no live lock keeps the whole invariant. */
  lemma SafeStep(s: State, builtins: seq<AgentDef>, e: Event)
    requires Safe(s, builtins) && !Steals(s, e)
    ensures Safe(Next(s, builtins, e), builtins)
  {
    if Next(s, builtins, e).log == s.log {
      QuietStep(s, builtins, e);
    } else {
      var w := e.who;
      assert WriterOk(s, builtins, w);
      var (f, answer) := Mutate(s.file, builtins, s.writers[w].op);
      DecisionStep(s, builtins, w, f, answer, s.writers[w].pc.ticket);
    }
  }

  // ------------------------------------------------------------------ runs

  function Init(file: File): State {
    State(file, None, [], 0, [], [file], [], [])
  }

  function Run(s: State, builtins: seq<AgentDef>, es: seq<Event>): State
    decreases |es|
  {
    if es == [] then s else Run(Next(s, builtins, es[0]), builtins, es[1..])
  }

  ghost predicate NoSteal(s: State, builtins: seq<AgentDef>, es: seq<Event>)
    decreases |es|
  {
    es == [] || (!Steals(s, es[0]) && NoSteal(Next(s, builtins, es[0]), builtins, es[1..]))
  }

  lemma {:induction false} SafeRun(s: State, builtins: seq<AgentDef>, es: seq<Event>)
    requires Safe(s, builtins) && NoSteal(s, builtins, es)
    ensures Safe(Run(s, builtins, es), builtins)
    ensures s.versions <= Run(s, builtins, es).versions
    decreases |es|
  {
    if es != [] {
      SafeStep(s, builtins, es[0]);
      SafeRun(Next(s, builtins, es[0]), builtins, es[1..]);
    }
  }

  /** While no directory ever looks stale, nobody can steal. */
  lemma {:induction false} FreshLocksAreNotStolen(s: State, builtins: seq<AgentDef>, es: seq<Event>)
    requires forall w :: 0 <= w < |s.writers| ==> !s.writers[w].pc.Doubting?
    requires forall e :: e in es && e.Try? ==> !e.stale
    ensures NoSteal(s, builtins, es)
    decreases |es|
  {
    if es != [] {
      assert es[0] in es;
      assert forall e :: e in es[1..] ==> e in es;
      FreshLocksAreNotStolen(Next(s, builtins, es[0]), builtins, es[1..]);
    }
  }

  /** A directory that looks stale was not made by a writer that is alive inside the critical section. */
  predicate HonestAge(s: State, e: Event) {
    e.Try? && e.stale && s.lock.Some? && s.Is(s.lock.value) ==> !s.writers[s.lock.value].pc.Critical()
  }

  /** Nobody begins to doubt while somebody else does. */
  ghost predicate AloneInDoubt(s: State, e: Event) {
    e.Try? && e.stale ==> forall w :: 0 <= w < |s.writers| ==> !s.writers[w].pc.Doubting?
  }

  ghost predicate Honest(s: State, builtins: seq<AgentDef>, es: seq<Event>)
    decreases |es|
  {
    es == [] || (HonestAge(s, es[0]) && Honest(Next(s, builtins, es[0]), builtins, es[1..]))
  }

  ghost predicate OneDoubter(s: State, builtins: seq<AgentDef>, es: seq<Event>)
    decreases |es|
  {
    es == [] || (AloneInDoubt(s, es[0]) && OneDoubter(Next(s, builtins, es[0]), builtins, es[1..]))
  }

  /** The one doubter, if any, doubts a directory whose maker is gone, and so the directory stays until it acts. */
  ghost predicate Guarded(s: State) {
    && Exclusive(s)
    && (s.lock.Some? ==> s.Is(s.lock.value))
    && (forall v, w :: 0 <= v < |s.writers| && 0 <= w < |s.writers| && s.writers[v].pc.Doubting? && s.writers[w].pc.Doubting? ==> v == w)
    && (forall w :: 0 <= w < |s.writers| && s.writers[w].pc.Doubting? ==>
          s.lock.Some? && s.Is(s.lock.value) && !s.writers[s.lock.value].pc.Critical())
  }

  lemma GuardedStep(s: State, builtins: seq<AgentDef>, e: Event)
    requires Guarded(s) && HonestAge(s, e) && AloneInDoubt(s, e)
    ensures !Steals(s, e) && Guarded(Next(s, builtins, e))
  {
    hide Next;
    ExclusionIff(s, builtins, e);
    OnlyOneMoves(s, builtins, e);
    var s' := Next(s, builtins, e);
    forall w | 0 <= w < |s'.writers| && s'.writers[w].pc.Doubting?
      ensures s'.lock.Some? && s'.Is(s'.lock.value) && !s'.writers[s'.lock.value].pc.Critical()
    {
      assert s.Is(w) && s.lock.Some? && !s.writers[s.lock.value].pc.Critical();
      assert s'.lock == s.lock;
    }
  }

  /** Who doubts after a step, who is inside, and what became of the directory. */
  lemma OnlyOneMoves(s: State, builtins: seq<AgentDef>, e: Event)
    requires Exclusive(s) && (s.lock.Some? ==> s.Is(s.lock.value))
    ensures var s' := Next(s, builtins, e);
            && |s.writers| <= |s'.writers|
            && (forall w :: 0 <= w < |s'.writers| && s'.writers[w].pc.Doubting? ==>
                  s.Is(w) && (s.writers[w].pc.Doubting? || (e == Try(w, true) && s.lock.Some?)))
            && (s.lock.None? ==> s'.lock.None? || s'.Is(s'.lock.value))
            && (s.lock.Some? && s'.lock != s.lock ==>
                  s'.lock.None? && (s.writers[s.lock.value].pc.Critical() || (e.Evict? && s.Is(e.who) && s.writers[e.who].pc.Doubting? && !s'.writers[e.who].pc.Doubting?)))
            && (s.lock.Some? && !s.writers[s.lock.value].pc.Critical() && s'.lock == s.lock ==> !s'.writers[s.lock.value].pc.Critical())
  {
    hide Mutate;
  }

  lemma {:induction false} GuardedRun(s: State, builtins: seq<AgentDef>, es: seq<Event>)
    requires Guarded(s) && Honest(s, builtins, es) && OneDoubter(s, builtins, es)
    ensures NoSteal(s, builtins, es)
    decreases |es|
  {
    if es != [] {
      GuardedStep(s, builtins, es[0]);
      GuardedRun(Next(s, builtins, es[0]), builtins, es[1..]);
    }
  }

  /**
   * What a deployment can see to: if no directory of a live holder ever looks stale, and at most one
   * waiter at a time is about to remove a stale one, then no lock is stolen.
   */
  lemma OneDoubterNeverSteals(file: File, builtins: seq<AgentDef>, es: seq<Event>)
    requires Honest(Init(file), builtins, es) && OneDoubter(Init(file), builtins, es)
    ensures NoSteal(Init(file), builtins, es)
  {
    GuardedRun(Init(file), builtins, es);
  }

  function Ops(log: seq<Entry>): seq<Op> {
    seq(|log|, k requires 0 <= k < |log| => log[k].op)
  }

  /** The serial history, replayed one operation at a time. */
  lemma {:induction false} ReplayFrom(s: State, builtins: seq<AgentDef>, k: nat)
    requires Serial(s, builtins) && k <= |s.log|
    ensures After(s.versions[k], builtins, Ops(s.log[k..])) == s.file
    ensures Answers(s.versions[k], builtins, Ops(s.log[k..])) == seq(|s.log| - k, i requires 0 <= i < |s.log| - k => s.log[k + i].answer)
    decreases |s.log| - k
  {
    if k < |s.log| {
      ReplayFrom(s, builtins, k + 1);
      assert Ops(s.log[k..])[1..] == Ops(s.log[k + 1..]);
      assert Ops(s.log[k..])[0] == s.log[k].op;
    }
  }

  /**
   * No update is lost: the file is the changes applied one by one in lock order, every writer that
   * got an answer is in that order exactly once with the answer of the plain map, and a writer that
   * was refused the lock or failed changed nothing.
   */
  lemma NoLostUpdate(file: File, builtins: seq<AgentDef>, es: seq<Event>)
    requires FileOk(file, builtins) && BuiltinsOk(builtins)
    requires NoSteal(Init(file), builtins, es)
    ensures var s := Run(Init(file), builtins, es);
            && s.file == After(file, builtins, Ops(s.log))
            && (forall i, j :: 0 <= i < j < |s.log| ==> s.log[i].ticket < s.log[j].ticket && s.log[i].who != s.log[j].who)
            && (forall k :: 0 <= k < |s.log| ==>
                  k < |PlainAnswers(View(file, builtins), Ops(s.log))|
                  && s.log[k].answer == PlainAnswers(View(file, builtins), Ops(s.log))[k])
            && (forall w :: 0 <= w < |s.writers| ==> Accountable(s, w))
    ensures FileOk(Run(Init(file), builtins, es).file, builtins)
  {
    var s := Run(Init(file), builtins, es);
    SafeRun(Init(file), builtins, es);
    ReplayFrom(s, builtins, 0);
    assert s.log[0..] == s.log;
    StoreRefinesMap(file, builtins, Ops(s.log));
    RegistryStaysSane(file, builtins, Ops(s.log));
    forall w | 0 <= w < |s.writers| ensures Accountable(s, w) {
      assert WriterOk(s, builtins, w);
    }
  }

  /** Answered means in the history; refused or failed means not. */
  ghost predicate Accountable(s: State, w: Who)
    requires s.Is(w)
  {
    match s.writers[w].pc
    case Finished(outcome) => if outcome.Some? then Logged(s, w, outcome.value) else !InLog(s, w)
    case LockHeld => !InLog(s, w)
    case _ => true
  }

  /** Read `i` returned the file as it was after some number of decisions. */
  ghost predicate HistoricRead(s: State, file: File, builtins: seq<AgentDef>, i: nat)
    requires i < |s.observed| && i < |s.marks|
  {
    && s.marks[i] <= |s.log|
    && s.observed[i] == After(file, builtins, Ops(s.log[..s.marks[i]]))
    && FileOk(s.observed[i], builtins)
  }

  ghost predicate MarksAscend(s: State) {
    forall i, j :: 0 <= i < j < |s.marks| ==> s.marks[i] <= s.marks[j]
  }

  /** Lock-free reads see only whole versions of that serial history, in its order. */
  lemma ReadersSeeHistory(file: File, builtins: seq<AgentDef>, es: seq<Event>)
    requires FileOk(file, builtins) && BuiltinsOk(builtins) && NoSteal(Init(file), builtins, es)
    ensures var s := Run(Init(file), builtins, es);
            && |s.marks| == |s.observed|
            && MarksAscend(s)
            && (forall i :: 0 <= i < |s.observed| ==> HistoricRead(s, file, builtins, i))
  {
    var s := Run(Init(file), builtins, es);
    SafeRun(Init(file), builtins, es);
    assert s.versions[0] == file;
    forall i | 0 <= i < |s.observed| ensures HistoricRead(s, file, builtins, i) {
      var m := s.marks[i];
      var past := s.(log := s.log[..m], versions := s.versions[..m + 1], file := s.versions[m]);
      ReplayFrom(past, builtins, 0);
      assert past.log[0..] == s.log[..m];
      RegistryStaysSane(file, builtins, Ops(s.log[..m]));
    }
  }

  // ------------------------------------------------------ an unreadable file

  /** The file is unreadable, has only been seen so, and nobody was answered otherwise. */
  ghost predicate Hopeless(s: State) {
    && s.file == Corrupt
    && (forall i :: 0 <= i < |s.observed| ==> s.observed[i] == Corrupt)
    && (forall i :: 0 <= i < |s.versions| ==> s.versions[i] == Corrupt)
    && (forall k :: 0 <= k < |s.log| ==> s.log[k].answer == Threw)
    && (forall w :: 0 <= w < |s.writers| ==>
          && !s.writers[w].pc.Staged?
          && (s.writers[w].pc.Releasing? || s.writers[w].pc.Finished? ==> s.writers[w].pc.outcome in {None, Some(Threw)}))
  }

  /** Whatever any number of writers do, stolen locks included, nobody repairs it by overwriting it. */
  lemma {:induction false} CorruptFileStays(s: State, builtins: seq<AgentDef>, es: seq<Event>)
    requires Hopeless(s)
    ensures Hopeless(Run(s, builtins, es))
    decreases |es|
  {
    if es != [] { CorruptFileStays(Next(s, builtins, es[0]), builtins, es[1..]); }
  }

  lemma CorruptFromStart(builtins: seq<AgentDef>, es: seq<Event>)
    ensures Hopeless(Run(Init(Corrupt), builtins, es))
  {
    CorruptFileStays(Init(Corrupt), builtins, es);
  }

  // --------------------------------------------------- what stealing costs

  const FIRST := AgentDef("first", false, "")
  const SECOND := AgentDef("second", false, "")

  /** Two waiters judge the directory of a dead writer stale. */
  const BOTH_DOUBT: seq<Event> := [
    Begin(List), Begin(Add(FIRST)), Begin(Add(SECOND)), Try(0, false), Die(0), Try(1, true), Try(2, true)]

  /** The faster one removes it and takes the lock; the slower one removes the fresh directory. */
  const FIRST_ENTERS: seq<Event> := [Evict(1), Try(1, false), ReadFile(1, true)]
  const SECOND_ENTERS: seq<Event> := [Evict(2), Try(2, false), ReadFile(2, true)]
  const THEFT: seq<Event> := FIRST_ENTERS + SECOND_ENTERS

  /** Both are inside and both publish. */
  const BOTH_PUBLISH: seq<Event> := [Rename(1, true), Rename(2, true), Release(1), Release(2)]

  /**
   * Then an update that was answered as done is lost, although the only lock that ever looked stale
   * was a dead writer's: honest ages alone are not enough.
   */
  lemma StealingLosesUpdates()
    ensures var es := BOTH_DOUBT + (THEFT + BOTH_PUBLISH);
            var s := Run(Init(Holds(EMPTY)), [], es);
            && Honest(Init(Holds(EMPTY)), [], es) && !NoSteal(Init(Holds(EMPTY)), [], es)
            && |s.writers| == 3 && s.writers[1..] == [Writer(Add(FIRST), Finished(Some(Added(FIRST)))),
                                  Writer(Add(SECOND), Finished(Some(Added(SECOND))))]
            && s.file == Holds(Registry([SECOND], []))
  {
    var s0 := Init(Holds(EMPTY));
    RunSplit(s0, BOTH_DOUBT, THEFT + BOTH_PUBLISH);
    Doubts();
    var s1 := Run(s0, [], BOTH_DOUBT);
    RunSplit(s1, THEFT, BOTH_PUBLISH);
    Thieves(s1);
    Publishers(Run(s1, [], THEFT));
  }

  lemma {:induction false} RunSplit(s: State, es: seq<Event>, more: seq<Event>)
    ensures Run(s, [], es + more) == Run(Run(s, [], es), [], more)
    ensures NoSteal(s, [], es + more) ==> NoSteal(s, [], es) && NoSteal(Run(s, [], es), [], more)
    ensures Honest(s, [], es) && Honest(Run(s, [], es), [], more) ==> Honest(s, [], es + more)
    decreases |es|
  {
    if es == [] {
      assert es + more == more;
    } else {
      assert (es + more)[1..] == es[1..] + more;
      RunSplit(Next(s, [], es[0]), es[1..], more);
    }
  }

  lemma Unroll(s: State, es: seq<Event>)
    requires es != []
    ensures Run(s, [], es) == Run(Next(s, [], es[0]), [], es[1..])
    ensures NoSteal(s, [], es) ==> !Steals(s, es[0]) && NoSteal(Next(s, [], es[0]), [], es[1..])
    ensures Honest(s, [], es) <==> HonestAge(s, es[0]) && Honest(Next(s, [], es[0]), [], es[1..])
  {}

  ghost predicate Doubted(s: State) {
    && s.file == Holds(EMPTY) && s.lock == Some(0) && s.tickets == 1
    && s.writers == [Writer(List, Dead), Writer(Add(FIRST), Doubting(0)), Writer(Add(SECOND), Doubting(0))]
  }

  lemma Doubts()
    ensures Doubted(Run(Init(Holds(EMPTY)), [], BOTH_DOUBT)) && Honest(Init(Holds(EMPTY)), [], BOTH_DOUBT)
  {
    var es := BOTH_DOUBT;
    var s0 := Init(Holds(EMPTY));
    var s1 := Next(s0, [], es[0]);
    var s2 := Next(s1, [], es[1]);
    var s3 := Next(s2, [], es[2]);
    assert s3.writers == [Writer(List, Trying(0)), Writer(Add(FIRST), Trying(0)), Writer(Add(SECOND), Trying(0))];
    Unroll(s0, es);
    Unroll(s1, es[1..]);
    Unroll(s2, es[2..]);
    var s4 := Next(s3, [], es[3]);
    var s5 := Next(s4, [], es[4]);
    assert s5.writers == [Writer(List, Dead), Writer(Add(FIRST), Trying(0)), Writer(Add(SECOND), Trying(0))];
    Unroll(s3, es[3..]);
    Unroll(s4, es[4..]);
    var s6 := Next(s5, [], es[5]);
    Unroll(s5, es[5..]);
    Unroll(s6, es[6..]);
    assert es[7..] == [];
  }

  ghost predicate BothInside(s: State) {
    && s.file == Holds(EMPTY) && s.lock == Some(2)
    && s.writers == [Writer(List, Dead),
                     Writer(Add(FIRST), Staged(1, Holds(Registry([FIRST], [])), Added(FIRST))),
                     Writer(Add(SECOND), Staged(2, Holds(Registry([SECOND], [])), Added(SECOND)))]
  }

  ghost predicate FirstInside(s: State) {
    && s.file == Holds(EMPTY) && s.lock == Some(1) && s.tickets == 2
    && s.writers == [Writer(List, Dead),
                     Writer(Add(FIRST), Staged(1, Holds(Registry([FIRST], [])), Added(FIRST))),
                     Writer(Add(SECOND), Doubting(0))]
  }

  lemma FirstEnters(s0: State)
    requires Doubted(s0)
    ensures FirstInside(Run(s0, [], FIRST_ENTERS)) && Honest(s0, [], FIRST_ENTERS)
  {
    var es := FIRST_ENTERS;
    var s1 := Next(s0, [], es[0]);
    var s2 := Next(s1, [], es[1]);
    assert s2.writers == [Writer(List, Dead), Writer(Add(FIRST), Holding(1)), Writer(Add(SECOND), Doubting(0))];
    Unroll(s0, es);
    Unroll(s1, es[1..]);
    var s3 := Next(s2, [], es[2]);
    assert s3.writers[1].pc == Staged(1, Holds(Registry([FIRST], [])), Added(FIRST));
    Unroll(s2, es[2..]);
    assert es[3..] == [];
  }

  lemma SecondEnters(s3: State)
    requires FirstInside(s3)
    ensures BothInside(Run(s3, [], SECOND_ENTERS)) && !NoSteal(s3, [], SECOND_ENTERS) && Honest(s3, [], SECOND_ENTERS)
  {
    var es := SECOND_ENTERS;
    assert Steals(s3, es[0]);
    var s4 := Next(s3, [], es[0]);
    var s5 := Next(s4, [], es[1]);
    assert s5.writers[2].pc == Holding(2);
    var s6 := Next(s5, [], es[2]);
    assert s6.writers[2].pc == Staged(2, Holds(Registry([SECOND], [])), Added(SECOND));
    Unroll(s3, es);
    Unroll(s4, es[1..]);
    Unroll(s5, es[2..]);
    assert es[3..] == [];
  }

  lemma Thieves(s0: State)
    requires Doubted(s0)
    ensures BothInside(Run(s0, [], THEFT)) && !NoSteal(s0, [], THEFT) && Honest(s0, [], THEFT)
  {
    FirstEnters(s0);
    SecondEnters(Run(s0, [], FIRST_ENTERS));
    RunSplit(s0, FIRST_ENTERS, SECOND_ENTERS);
  }

  lemma Publishers(s0: State)
    requires BothInside(s0)
    ensures var s := Run(s0, [], BOTH_PUBLISH);
            && |s.writers| == 3 && s.writers[1..] == [Writer(Add(FIRST), Finished(Some(Added(FIRST)))),
                                  Writer(Add(SECOND), Finished(Some(Added(SECOND))))]
            && s.file == Holds(Registry([SECOND], []))
    ensures Honest(s0, [], BOTH_PUBLISH)
  {
    var es := BOTH_PUBLISH;
    var s1 := Next(s0, [], es[0]);
    var s2 := Next(s1, [], es[1]);
    assert s2.file == Holds(Registry([SECOND], []));
    Unroll(s0, es);
    Unroll(s1, es[1..]);
    Unroll(s2, es[2..]);
    Unroll(Next(s2, [], es[2]), es[3..]);
    assert es[4..] == [];
  }

  // --------------------------------------------------------- one acquirer

  /** What one attempt to make the directory meets. */
  datatype Sight = Free | Fresh | Stale | Vanished | Broken

  /** `acquireLock` in a world that shows it `world(k)` at attempt k. */
  method AcquireLock(world: nat -> Sight) returns (got: bool, attempts: nat)
    ensures attempts <= 200
    ensures forall k :: 0 <= k < attempts ==> !world(k).Free? && !world(k).Broken?
    ensures got <==> attempts < 200 && world(attempts).Free?
    ensures !got <==> attempts == 200 || world(attempts).Broken?
  {
    for attempt := 0 to LOCK_ATTEMPTS
      invariant forall k :: 0 <= k < attempt ==> !world(k).Free? && !world(k).Broken?
    {
      match world(attempt)
      case Free => return true, attempt;
      case Broken => return false, attempt;
      case _ =>
    }
    return false, LOCK_ATTEMPTS;
  }
}
