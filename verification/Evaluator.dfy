/**
 * The sandbox evaluator's phase clock: markers are looked for in output that arrives in chunks, one
 * timer guards the current phase, and the markers are removed from the result.
 */
module Evaluator {
  import opened Wrappers

  const STARTED := "\U{2}beckett:eval-started\U{2}"
  const FINISHED := "\U{2}beckett:eval-finished\U{2}"
  const MAX_CHARS: nat := 1_000_000

  datatype Phase = Startup | Snippet | Teardown

  datatype Watch = Watch(
    text: string,
    sawStarted: bool,
    sawFinished: bool,
    overflow: bool,              // the reader threw: output exceeded the limit
    phase: Phase,
    killed: Option<Phase>,       // the phase in which a timer killed the child
    timer: nat,                  // the timer the clock holds on to
    armed: map<nat, nat>,        // every timer that may still fire, with its budget
    nextTimer: nat)

  datatype Budgets = Budgets(startup: nat, snippet: nat)

  predicate At(text: string, m: string, i: nat) {
    i + |m| <= |text| && text[i..i + |m|] == m
  }

  predicate Includes(text: string, m: string) {
    exists i: nat :: i <= |text| && At(text, m, i)
  }

  function Arm(w: Watch, budget: nat): Watch {
    w.(timer := w.nextTimer, armed := w.armed[w.nextTimer := budget], nextTimer := w.nextTimer + 1)
  }

  /** Duplicate and out-of-order markers are ignored. */
  function Enter(w: Watch, next: Phase, budget: nat): Watch {
    if (next.Snippet? && !w.phase.Startup?) || (next.Teardown? && !w.phase.Snippet?) then w
    else Arm(w.(phase := next, armed := w.armed - {w.timer}), budget)
  }

  function Begin(b: Budgets): Watch {
    Arm(Watch("", false, false, false, Startup, None, 0, map[], 0), b.startup)
  }

  function SeeStarted(w: Watch, b: Budgets): Watch {
    if !w.sawStarted && Includes(w.text, STARTED) then Enter(w.(sawStarted := true), Snippet, b.snippet) else w
  }

  function SeeFinished(w: Watch, b: Budgets): Watch {
    if !w.sawFinished && Includes(w.text, FINISHED) then Enter(w.(sawFinished := true), Teardown, b.startup) else w
  }

  /** One chunk of output. */
  function Feed(w: Watch, chunk: string, b: Budgets): Watch {
    if w.overflow then w
    else if |w.text + chunk| > MAX_CHARS then w.(text := w.text + chunk, overflow := true)
    else SeeFinished(SeeStarted(w.(text := w.text + chunk), b), b)
  }

  /** An armed timer fires: it kills the child and records the phase at that moment. */
  function Expire(w: Watch, t: nat): Watch {
    if t in w.armed then w.(killed := Some(w.phase), armed := w.armed - {t}) else w
  }

  datatype Event = Chunk(text: string) | Fires(timer: nat)

  function Step(w: Watch, e: Event, b: Budgets): Watch {
    match e
    case Chunk(c) => Feed(w, c, b)
    case Fires(t) => Expire(w, t)
  }

  function Run(es: seq<Event>, b: Budgets): Watch {
    if es == [] then Begin(b) else Step(Run(es[..|es| - 1], b), es[|es| - 1], b)
  }

  /** The output read so far. */
  function Output(es: seq<Event>): string {
    if es == [] then ""
    else Output(es[..|es| - 1]) + if es[|es| - 1].Chunk? then es[|es| - 1].text else ""
  }

  // ------------------------------------------------------------ one timer

  function BudgetOf(phase: Phase, b: Budgets): nat {
    if phase.Snippet? then b.snippet else b.startup
  }

  /** At most one timer can fire; it is the one held on to, and its budget is the current phase's. */
  ghost predicate OneTimer(w: Watch, b: Budgets) {
    && w.timer < w.nextTimer
    && (w.armed == map[] || w.armed == map[w.timer := BudgetOf(w.phase, b)])
    && (w.armed == map[] ==> w.killed.Some?)
  }

  lemma EnterOneTimer(w: Watch, next: Phase, b: Budgets)
    requires OneTimer(w, b)
    ensures OneTimer(Enter(w, next, BudgetOf(next, b)), b)
  {
    assert w.armed - {w.timer} == map[];
    var w' := Enter(w, next, BudgetOf(next, b));
    assert w' != w ==> w'.timer in w'.armed;
  }

  lemma FeedOneTimer(w: Watch, c: string, b: Budgets)
    requires OneTimer(w, b)
    ensures OneTimer(Feed(w, c, b), b)
  {
    var w1 := w.(text := w.text + c);
    EnterOneTimer(w1.(sawStarted := true), Snippet, b);
    var w2 := SeeStarted(w1, b);
    assert OneTimer(w2, b);
    EnterOneTimer(w2.(sawFinished := true), Teardown, b);
  }

  /** At every moment of every run one timer guards the phase, until a timer has killed the child. */
  lemma {:induction false} OneTimerAlways(es: seq<Event>, b: Budgets)
    ensures OneTimer(Run(es, b), b)
  {
    if es == [] {
      assert 0 in Begin(b).armed;
    } else {
      var w, e := Run(es[..|es| - 1], b), es[|es| - 1];
      OneTimerAlways(es[..|es| - 1], b);
      match e
      case Fires(t) =>
        if t in w.armed { assert w.armed - {t} == map[]; }
      case Chunk(c) => FeedOneTimer(w, c, b);
    }
  }

  // ------------------------------------------------------ phases and chunks

  lemma IncludesGrows(text: string, more: string, m: string)
    requires Includes(text, m)
    ensures Includes(text + more, m)
  {
    var i: nat :| i <= |text| && At(text, m, i);
    assert (text + more)[i..i + |m|] == text[i..i + |m|];
    assert At(text + more, m, i);
  }

  lemma IncludesPrefix(text: string, n: nat, m: string)
    requires n <= |text| && Includes(text[..n], m)
    ensures Includes(text, m)
  {
    IncludesGrows(text[..n], text[n..], m);
    assert text[..n] + text[n..] == text;
  }

  /** After some event the output held the second marker but not yet the first. */
  predicate FinishedFirst(es: seq<Event>) {
    es != [] && (FinishedFirst(es[..|es| - 1]) || (Includes(Output(es), FINISHED) && !Includes(Output(es), STARTED)))
  }

  /** The phase as a function of the output and of that one accident of chunking. */
  function Verdict(es: seq<Event>): Phase {
    if !Includes(Output(es), STARTED) then Startup
    else if Includes(Output(es), FINISHED) && !FinishedFirst(es) then Teardown
    else Snippet
  }

  lemma NoMarkerInNothing()
    ensures !Includes("", STARTED) && !Includes("", FINISHED)
  {
  }

  /** What feeding one chunk does, in terms of the output before and after it. */
  lemma FeedSees(w: Watch, c: string, b: Budgets)
    requires !w.overflow && |w.text + c| <= MAX_CHARS
    requires w.sawStarted == Includes(w.text, STARTED) && w.sawFinished == Includes(w.text, FINISHED)
    requires w.phase.Startup? <==> !w.sawStarted
    requires w.phase.Teardown? ==> w.sawFinished
    ensures var w' := Feed(w, c, b);
            && w'.text == w.text + c && !w'.overflow
            && w'.sawStarted == Includes(w'.text, STARTED) && w'.sawFinished == Includes(w'.text, FINISHED)
            && w'.phase == (if !w'.sawStarted then Startup
                            else if w'.sawFinished && !w.sawFinished then Teardown
                            else if w.sawStarted then w.phase else Snippet)
  {
    if w.sawStarted { IncludesGrows(w.text, c, STARTED); }
    if w.sawFinished { IncludesGrows(w.text, c, FINISHED); }
  }

  lemma {:induction false} PhaseIsVerdict(es: seq<Event>, b: Budgets)
    requires |Output(es)| <= MAX_CHARS
    ensures var w := Run(es, b);
            && w.text == Output(es) && !w.overflow
            && w.sawStarted == Includes(Output(es), STARTED) && w.sawFinished == Includes(Output(es), FINISHED)
            && w.phase == Verdict(es)
  {
    if es == [] {
      NoMarkerInNothing();
    } else {
      var front, e := es[..|es| - 1], es[|es| - 1];
      PhaseIsVerdict(front, b);
      FinishedFirstShows(front);
      if e.Chunk? { FeedSees(Run(front, b), e.text, b); }
    }
  }

  /** Once early, the second marker stays in the output; if it is there without the first, it is early. */
  lemma {:induction false} FinishedFirstShows(es: seq<Event>)
    ensures FinishedFirst(es) ==> Includes(Output(es), FINISHED)
    ensures Includes(Output(es), FINISHED) && !Includes(Output(es), STARTED) ==> FinishedFirst(es)
  {
    if es == [] {
      NoMarkerInNothing();
    } else {
      var front := es[..|es| - 1];
      FinishedFirstShows(front);
      if FinishedFirst(front) && es[|es| - 1].Chunk? { IncludesGrows(Output(front), es[|es| - 1].text, FINISHED); }
      assert !es[|es| - 1].Chunk? ==> Output(es) == Output(front);
    }
  }

  // ------------------------------------------------- independence of chunks

  /** Some prefix of the output holds the second marker but not the first. */
  ghost predicate OutOfOrder(text: string) {
    exists n: nat :: n <= |text| && Ahead(text, n)
  }

  predicate Ahead(text: string, n: nat)
    requires n <= |text|
  {
    Includes(text[..n], FINISHED) && !Includes(text[..n], STARTED)
  }

  lemma {:induction false} FinishedFirstIsAhead(es: seq<Event>)
    requires FinishedFirst(es)
    ensures OutOfOrder(Output(es))
  {
    var text, front := Output(es), es[..|es| - 1];
    if FinishedFirst(front) {
      FinishedFirstIsAhead(front);
      var n: nat :| n <= |Output(front)| && Ahead(Output(front), n);
      assert text[..n] == Output(front)[..n];
      assert Ahead(text, n);
    } else {
      assert text[..|text|] == text;
      assert Ahead(text, |text|);
    }
  }

  /** The same output, whole and cut in two. */
  lemma CutInTwo(text: string, n: nat)
    requires n <= |text|
    ensures Output([Chunk(text)]) == text && Output([Chunk(text[..n]), Chunk(text[n..])]) == text
    ensures FinishedFirst([Chunk(text)]) <==> Includes(text, FINISHED) && !Includes(text, STARTED)
    ensures Ahead(text, n) ==> FinishedFirst([Chunk(text[..n]), Chunk(text[n..])])
  {
    assert [Chunk(text)][..0] == [];
    var two := [Chunk(text[..n]), Chunk(text[n..])];
    assert two[..1] == [Chunk(text[..n])];
    assert [Chunk(text[..n])][..0] == [];
    assert Output(two[..1]) == text[..n];
    assert text[..n] + text[n..] == text;
  }

  /**
   * The final phase of an output is the same for every chunking, and every timing of the timers, if
   * and only if no prefix of an output with the first marker has the second one alone.
   */
  lemma ChunkingIrrelevantIff(text: string, b: Budgets)
    requires |text| <= MAX_CHARS
    ensures (forall es, es' :: Output(es) == text && Output(es') == text ==> Run(es, b).phase == Run(es', b).phase)
            <==> !(Includes(text, STARTED) && OutOfOrder(text))
  {
    if Includes(text, STARTED) && OutOfOrder(text) {
      var n: nat :| n <= |text| && Ahead(text, n);
      IncludesPrefix(text, n, FINISHED);
      CutInTwo(text, n);
      PhaseIsVerdict([Chunk(text)], b);
      PhaseIsVerdict([Chunk(text[..n]), Chunk(text[n..])], b);
    } else {
      forall es, es' | Output(es) == text && Output(es') == text ensures Run(es, b).phase == Run(es', b).phase {
        PhaseIsVerdict(es, b);
        PhaseIsVerdict(es', b);
        if FinishedFirst(es) { FinishedFirstIsAhead(es); }
        if FinishedFirst(es') { FinishedFirstIsAhead(es'); }
      }
    }
  }

  /** Output that starts with the first marker, as the evaluator's does, is in order. */
  lemma StartedComesFirst(rest: string)
    ensures !OutOfOrder(STARTED + rest)
  {
    var text := STARTED + rest;
    forall n: nat | n <= |text| ensures !Ahead(text, n) {
      if n >= |STARTED| {
        assert text[..n][0..|STARTED|] == STARTED;
        assert At(text[..n], STARTED, 0);
      }
    }
  }

  /** The phase that the markers seen so far stand for. */
  function PhaseOf(text: string): Phase {
    if !Includes(text, STARTED) then Startup else if !Includes(text, FINISHED) then Snippet else Teardown
  }

  lemma {:induction false} OutputGrows(es: seq<Event>, k: nat)
    requires k <= |es|
    ensures Output(es[..k]) <= Output(es)
  {
    if k < |es| {
      OutputGrows(es[..|es| - 1], k);
      assert es[..|es| - 1][..k] == es[..k];
    } else {
      assert es[..k] == es;
    }
  }

  lemma AheadStays(text: string, more: string)
    requires OutOfOrder(text) && text <= more
    ensures OutOfOrder(more)
  {
    var n: nat :| n <= |text| && Ahead(text, n);
    assert more[..n] == text[..n];
    assert Ahead(more, n);
  }

  /** While the output is in order, the phase after each event is that of the markers seen. */
  lemma InOrderPhases(es: seq<Event>, b: Budgets, k: nat)
    requires |Output(es)| <= MAX_CHARS && !OutOfOrder(Output(es)) && k <= |es|
    ensures Run(es[..k], b).phase == PhaseOf(Output(es[..k]))
  {
    hide Run, Output, FinishedFirst, OutOfOrder, Includes;
    OutputGrows(es, k);
    PhaseIsVerdict(es[..k], b);
    if FinishedFirst(es[..k]) {
      FinishedFirstIsAhead(es[..k]);
      AheadStays(Output(es[..k]), Output(es));
    }
  }

  /**
   * The evaluator's own output, in any chunks and with any timers between them: after each event the
   * clock is in startup until the first marker is complete, then in snippet until the second is, then in
   * teardown, where it ends.
   */
  lemma OrderedOutputEndsInTeardown(es: seq<Event>, middle: string, envelope: string, b: Budgets)
    requires Output(es) == STARTED + middle + FINISHED + envelope && |Output(es)| <= MAX_CHARS
    ensures forall k: nat :: k <= |es| ==> Run(es[..k], b).phase == PhaseOf(Output(es[..k]))
    ensures Run(es, b).phase == Teardown
  {
    var text := Output(es);
    StartedComesFirst(middle + FINISHED + envelope);
    assert text == STARTED + (middle + FINISHED + envelope);
    assert At(text, STARTED, 0);
    assert At(text, FINISHED, |STARTED + middle|);
    hide OutOfOrder, Run;
    forall k: nat | k <= |es| ensures Run(es[..k], b).phase == PhaseOf(Output(es[..k])) { InOrderPhases(es, b, k); }
    assert es[..|es|] == es;
  }

  /** Phases only advance, one at a time. */
  lemma PhasesAdvance(w: Watch, e: Event, b: Budgets)
    requires w.phase.Startup? <==> !w.sawStarted
    ensures var p, p' := w.phase, Step(w, e, b).phase;
            p' == p || (p.Startup? && !p'.Startup?) || (p.Snippet? && p'.Teardown?)
  {
  }

  // -------------------------------------------------------------- stripping

  /** `text.split(m).join("")`. */
  function Remove(text: string, m: string): string
    requires m != ""
    decreases |text|
  {
    if m <= text then Remove(text[|m|..], m)
    else if text == "" then ""
    else [text[0]] + Remove(text[1..], m)
  }

  function Strip(text: string): string {
    Remove(Remove(text, STARTED), FINISHED)
  }

  const MARK: char := '\U{2}'

  /** Text without the marker byte is passed over. */
  lemma {:induction false} PassOver(front: string, rest: string, m: string)
    requires m != "" && m[0] == MARK && MARK !in front
    ensures Remove(front + rest, m) == front + Remove(rest, m)
  {
    var text := front + rest;
    if front == "" {
      assert text == rest;
    } else {
      assert text[0] == front[0] && front[0] in front;
      assert text[1..] == front[1..] + rest;
      PassOver(front[1..], rest, m);
    }
  }

  lemma Matched(m: string, rest: string)
    requires m != ""
    ensures Remove(m + rest, m) == Remove(rest, m)
  {
    assert (m + rest)[|m|..] == rest;
  }

  lemma {:induction false} NothingToRemove(text: string, m: string)
    requires m != "" && m[0] == MARK && MARK !in text
    ensures Remove(text, m) == text
  {
    PassOver(text, "", m);
    assert text + "" == text && Remove("", m) == "";
  }

  /** The second marker is not mistaken for the first. */
  lemma PassFinished(rest: string)
    requires MARK !in rest
    ensures Remove(FINISHED + rest, STARTED) == FINISHED + rest
  {
    var body := FINISHED[1..|FINISHED| - 1];
    var text := FINISHED + rest;
    var tail := [MARK] + rest;
    assert FINISHED == [MARK] + body + [MARK];
    assert text == [MARK] + (body + tail);
    assert FINISHED[10] != STARTED[10] || FINISHED[15] != STARTED[15];
    assert text[1..] == body + tail;
    PassOver(body, tail, STARTED);
    assert tail[1..] == rest;
    if |rest| >= |STARTED| - 1 {
      assert tail[|STARTED| - 1] == rest[|STARTED| - 2] && rest[|STARTED| - 2] in rest;
    }
    NothingToRemove(rest, STARTED);
  }

  /** Stripping gives back everything written around the two markers. */
  lemma StripKeepsTheRest(before: string, middle: string, after: string)
    requires MARK !in before && MARK !in middle && MARK !in after
    ensures Strip(before + STARTED + middle + FINISHED + after) == before + middle + after
  {
    var text := before + STARTED + middle + FINISHED + after;
    var tail := middle + (FINISHED + after);
    assert text == before + (STARTED + tail);
    PassOver(before, STARTED + tail, STARTED);
    Matched(STARTED, tail);
    PassOver(middle, FINISHED + after, STARTED);
    PassFinished(after);
    var once := before + middle;
    assert Remove(text, STARTED) == once + (FINISHED + after);
    PassOver(once, FINISHED + after, FINISHED);
    Matched(FINISHED, after);
    NothingToRemove(after, FINISHED);
  }

  // ---------------------------------------------------------------- verdict

  /** What `JSON.parse` makes of the stripped output, and its `ok` field if that is a boolean. */
  datatype Parsed = NotJson | NoVerdict | Verdictful(ok: bool)

  datatype Report =
    | TooMuchOutput
    | Uncertain
    | NeverStarted
    | InvalidOutput
    | InvalidEnvelope
    | BadExit
    | Response(text: string)

  /** What the run reports once the child is gone: the child's response or the error thrown. */
  function Reported(w: Watch, parse: string -> Parsed, exitCode: int): Report {
    if w.overflow then TooMuchOutput
    else if w.killed == Some(Snippet) then Uncertain
    else if w.killed == Some(Startup) then NeverStarted
    else
      var text := Strip(w.text);
      match parse(text)
      case NotJson => InvalidOutput
      case NoVerdict => InvalidEnvelope
      case Verdictful(ok) => if ok && exitCode != 0 && w.killed.None? then BadExit else Response(text)
  }

  /** The child claims success, but left with a failure and of its own accord. */
  predicate Contradicted(p: Parsed, exitCode: int, killed: Option<Phase>) {
    p.Verdictful? && p.ok && exitCode != 0 && killed.None?
  }

  /**
   * An evaluator that wrote its markers and an envelope before any timer fired gets the envelope back
   * unchanged, for every chunking of the output and any exit code, even if teardown is killed: exactly
   * unless the envelope is malformed, or claims success that the exit code of an unkilled child denies.
   */
  lemma FinishedWorkIsReported(es: seq<Event>, late: seq<Event>, envelope: string, b: Budgets,
                               parse: string -> Parsed, exitCode: int)
    requires Output(es) == STARTED + FINISHED + envelope && MARK !in envelope && |Output(es)| <= MAX_CHARS
    requires forall e :: e in es ==> e.Chunk?
    requires forall e :: e in late ==> e.Fires?
    ensures var w := Run(es + late, b);
            Reported(w, parse, exitCode) == Response(envelope)
            <==> parse(envelope).Verdictful? && !Contradicted(parse(envelope), exitCode, w.killed)
    ensures late == [] ==> Run(es + late, b).killed.None?
  {
    hide Run, Output, Strip;
    WorkIsIn(es, late, envelope, b);
    StripEnvelope(envelope);
  }

  /** The whole envelope was read, and nothing but teardown can have been killed. */
  lemma WorkIsIn(es: seq<Event>, late: seq<Event>, envelope: string, b: Budgets)
    requires Output(es) == STARTED + FINISHED + envelope && |Output(es)| <= MAX_CHARS
    requires (forall e :: e in es ==> e.Chunk?) && (forall e :: e in late ==> e.Fires?)
    ensures var w := Run(es + late, b);
            w.text == STARTED + FINISHED + envelope && !w.overflow && (w.killed.None? || w.killed == Some(Teardown))
    ensures late == [] ==> Run(es + late, b).killed.None?
  {
    hide Run, Output;
    assert STARTED + FINISHED + envelope == STARTED + "" + FINISHED + envelope;
    OrderedOutputEndsInTeardown(es, "", envelope, b);
    PhaseIsVerdict(es, b);
    NotKilled(es, b);
    LateFires(es, late, b);
    if late == [] { assert es + late == es; }
  }

  lemma StripEnvelope(envelope: string)
    requires MARK !in envelope
    ensures Strip(STARTED + FINISHED + envelope) == envelope
  {
    assert STARTED + FINISHED + envelope == "" + STARTED + "" + FINISHED + envelope;
    StripKeepsTheRest("", "", envelope);
    assert "" + "" + envelope == envelope;
  }

  lemma {:induction false} NotKilled(es: seq<Event>, b: Budgets)
    requires forall e :: e in es ==> e.Chunk?
    ensures Run(es, b).killed.None?
  {
    if es != [] { NotKilled(es[..|es| - 1], b); }
  }

  lemma {:induction false} LateFires(es: seq<Event>, late: seq<Event>, b: Budgets)
    requires Run(es, b).phase.Teardown? && Run(es, b).killed.None?
    requires forall e :: e in late ==> e.Fires?
    ensures var w, w' := Run(es, b), Run(es + late, b);
            && w'.text == w.text && w'.overflow == w.overflow && w'.phase == w.phase
            && (w'.killed.None? || w'.killed == Some(Teardown))
    decreases |late|
  {
    if late == [] {
      assert es + late == es;
    } else {
      var n := |late| - 1;
      assert forall e :: e in late[..n] ==> e in late;
      LateFires(es, late[..n], b);
      assert (es + late)[..|es + late| - 1] == es + late[..n];
      assert (es + late)[|es + late| - 1] == late[n] && late[n] in late;
    }
  }

  // -------------------------------------------------------- the operations

  class PhaseClock {
    const budgets: Budgets
    var text: string
    var sawStarted: bool
    var sawFinished: bool
    var overflow: bool
    var phase: Phase
    var killed: Option<Phase>
    var timer: nat
    var armed: map<nat, nat>
    var nextTimer: nat

    ghost function Value(): Watch
      reads this
    {
      Watch(text, sawStarted, sawFinished, overflow, phase, killed, timer, armed, nextTimer)
    }

    constructor (budgets: Budgets)
      ensures this.budgets == budgets && Value() == Begin(budgets)
    {
      this.budgets := budgets;
      text, sawStarted, sawFinished, overflow := "", false, false, false;
      phase, killed, timer, armed, nextTimer := Startup, None, 0, map[], 0;
      new;
      ArmTimer(budgets.startup);
    }

    method ArmTimer(budget: nat)
      modifies this`timer, this`armed, this`nextTimer
      ensures Value() == Arm(old(Value()), budget)
    {
      timer := nextTimer;
      armed := armed[timer := budget];
      nextTimer := timer + 1;
    }

    method EnterPhase(next: Phase, budget: nat)
      modifies this`phase, this`timer, this`armed, this`nextTimer
      ensures Value() == Enter(old(Value()), next, budget)
    {
      if (next.Snippet? && !phase.Startup?) || (next.Teardown? && !phase.Snippet?) { return; }
      phase := next;
      armed := armed - {timer};
      ArmTimer(budget);
    }

    /** One read of the child's output. */
    method OnChunk(chunk: string)
      modifies this
      ensures Value() == Feed(old(Value()), chunk, budgets)
    {
      if overflow { return; }
      text := text + chunk;
      if |text| > MAX_CHARS {
        overflow := true;
        return;
      }
      if !sawStarted && Includes(text, STARTED) {
        sawStarted := true;
        EnterPhase(Snippet, budgets.snippet);
      }
      if !sawFinished && Includes(text, FINISHED) {
        sawFinished := true;
        EnterPhase(Teardown, budgets.startup);
      }
    }

    method OnTimer(t: nat)
      requires t in armed
      modifies this`killed, this`armed
      ensures Value() == Expire(old(Value()), t)
    {
      killed := Some(phase);
      armed := armed - {t};
    }
  }

  // ------------------------------------------------- what the report goes by

  /** Event `k` is the firing of a timer that can still fire. */
  ghost predicate Strikes(es: seq<Event>, b: Budgets, k: nat)
    requires k < |es|
  {
    es[k].Fires? && es[k].timer in Run(es[..k], b).armed
  }

  /** ... and no timer fires after it. */
  ghost predicate LastStrike(es: seq<Event>, b: Budgets, k: nat) {
    k < |es| && Strikes(es, b, k) && forall j: nat :: k < j < |es| ==> !Strikes(es, b, j)
  }

  ghost predicate NoStrike(es: seq<Event>, b: Budgets) {
    forall j: nat :: j < |es| ==> !Strikes(es, b, j)
  }

  /** A strike is seen from any later moment as it was. */
  lemma StrikesBefore(es: seq<Event>, b: Budgets, n: nat, k: nat)
    requires k < n <= |es|
    ensures Strikes(es[..n], b, k) <==> Strikes(es, b, k)
  {
    assert es[..n][..k] == es[..k];
  }

  lemma StepSpares(w: Watch, e: Event, b: Budgets)
    ensures Step(w, e, b).killed == if e.Fires? && e.timer in w.armed then Some(w.phase) else w.killed
  {
  }

  /** What the recorded phase says of the strikes. */
  ghost predicate Records(es: seq<Event>, b: Budgets) {
    && (NoStrike(es, b) ==> Run(es, b).killed.None?)
    && (forall k: nat :: LastStrike(es, b, k) ==> Run(es, b).killed == Some(Run(es[..k], b).phase))
    && (!NoStrike(es, b) ==> exists k: nat :: LastStrike(es, b, k))
  }

  lemma SameStrikes(es: seq<Event>, b: Budgets, n: nat)
    requires n <= |es|
    ensures forall j: nat :: j < n ==> (Strikes(es[..n], b, j) <==> Strikes(es, b, j))
  {
    forall j: nat | j < n ensures Strikes(es[..n], b, j) <==> Strikes(es, b, j) { StrikesBefore(es, b, n, j); }
  }

  lemma SameLast(es: seq<Event>, b: Budgets, n: nat, k: nat)
    requires |es| == n + 1 && !Strikes(es, b, n)
    ensures LastStrike(es, b, k) <==> LastStrike(es[..n], b, k)
  {
    SameStrikes(es, b, n);
    hide Strikes;
  }

  /** The last event is no strike: the strikes and the record are those before it. */
  lemma NoneMore(es: seq<Event>, b: Budgets, n: nat)
    requires |es| == n + 1 && Records(es[..n], b) && !Strikes(es, b, n)
    requires Run(es, b).killed == Run(es[..n], b).killed
    ensures Records(es, b)
  {
    SameStrikes(es, b, n);
    hide Run, Strikes, LastStrike;
    forall k: nat ensures LastStrike(es, b, k) <==> LastStrike(es[..n], b, k) { SameLast(es, b, n, k); }
    forall k: nat | LastStrike(es, b, k) ensures k <= n && es[..n][..k] == es[..k] { LastIsIn(es, b, n, k); }
  }

  lemma LastIsIn(es: seq<Event>, b: Budgets, n: nat, k: nat)
    requires |es| == n + 1 && LastStrike(es, b, k)
    ensures k <= n && es[..n][..k] == es[..k]
  {
  }

  lemma RecordsMore(es: seq<Event>, b: Budgets)
    requires es != [] && Records(es[..|es| - 1], b)
    ensures Records(es, b)
  {
    var n := |es| - 1;
    assert Run(es, b) == Step(Run(es[..n], b), es[n], b);
    StepSpares(Run(es[..n], b), es[n], b);
    if Strikes(es, b, n) {
      assert LastStrike(es, b, n) && Run(es, b).killed == Some(Run(es[..n], b).phase);
      hide Step, Run, Strikes;
    } else {
      hide Step, Run, Records;
      NoneMore(es, b, n);
    }
  }

  /** The recorded phase is that of the last strike. */
  lemma {:induction false} KilledIsLastStrike(es: seq<Event>, b: Budgets)
    ensures Records(es, b)
  {
    if es != [] {
      KilledIsLastStrike(es[..|es| - 1], b);
      hide Records;
      RecordsMore(es, b);
    }
  }

  lemma {:induction false} OverflowIff(es: seq<Event>, b: Budgets)
    ensures Run(es, b).overflow <==> |Output(es)| > MAX_CHARS
    ensures !Run(es, b).overflow ==> Run(es, b).text == Output(es)
  {
    if es != [] {
      OverflowIff(es[..|es| - 1], b);
      hide Includes;
    }
  }

  /** Too much output, exactly when the output is longer than a million characters. */
  lemma TooMuchOutputIff(es: seq<Event>, b: Budgets, parse: string -> Parsed, exitCode: int)
    ensures Reported(Run(es, b), parse, exitCode) == TooMuchOutput <==> |Output(es)| > 1_000_000
  {
    OverflowIff(es, b);
  }

  /** Before event `k` the first marker was in, and the clock had not gone on to teardown. */
  predicate InSnippet(es: seq<Event>, k: nat)
    requires k <= |es|
  {
    Includes(Output(es[..k]), STARTED) && (Includes(Output(es[..k]), FINISHED) ==> FinishedFirst(es[..k]))
  }

  lemma StrikePhase(es: seq<Event>, b: Budgets, k: nat)
    requires |Output(es)| <= MAX_CHARS && k <= |es|
    ensures Run(es[..k], b).phase == Verdict(es[..k])
  {
    OutputGrows(es, k);
    PhaseIsVerdict(es[..k], b);
  }

  /** Nothing ran, exactly when the last timer to fire did so with no first marker in. */
  lemma NeverStartedIff(es: seq<Event>, b: Budgets, parse: string -> Parsed, exitCode: int)
    requires |Output(es)| <= MAX_CHARS
    ensures Reported(Run(es, b), parse, exitCode) == NeverStarted
            <==> exists k: nat :: LastStrike(es, b, k) && !Includes(Output(es[..k]), STARTED)
  {
    hide Run, Output, Includes, FinishedFirst, Strikes;
    OverflowIff(es, b);
    KilledIsLastStrike(es, b);
    forall k: nat | LastStrike(es, b, k) ensures Run(es[..k], b).phase == Verdict(es[..k]) { StrikePhase(es, b, k); }
  }

  /** Uncertain, exactly when it did so with the first marker in and the clock not in teardown. */
  lemma UncertainIff(es: seq<Event>, b: Budgets, parse: string -> Parsed, exitCode: int)
    requires |Output(es)| <= MAX_CHARS
    ensures Reported(Run(es, b), parse, exitCode) == Uncertain
            <==> exists k: nat :: LastStrike(es, b, k) && InSnippet(es, k)
  {
    hide Run, Output, Includes, FinishedFirst, Strikes;
    OverflowIff(es, b);
    KilledIsLastStrike(es, b);
    forall k: nat | LastStrike(es, b, k) ensures Run(es[..k], b).phase == Verdict(es[..k]) { StrikePhase(es, b, k); }
  }

  /** No timer fired, or the last one that did fired in teardown. */
  ghost predicate Undisturbed(es: seq<Event>, b: Budgets) {
    forall k: nat :: LastStrike(es, b, k) ==> Includes(Output(es[..k]), STARTED) && !InSnippet(es, k)
  }

  /** Otherwise the report goes by the child's own words and, if no timer fired, by its exit code. */
  lemma OwnWordsCount(es: seq<Event>, b: Budgets, parse: string -> Parsed, exitCode: int)
    requires |Output(es)| <= MAX_CHARS && Undisturbed(es, b)
    ensures var report, words := Reported(Run(es, b), parse, exitCode), Strip(Output(es));
            && (report == InvalidOutput <==> parse(words) == NotJson)
            && (report == InvalidEnvelope <==> parse(words) == NoVerdict)
            && (report == BadExit <==> parse(words) == Verdictful(true) && exitCode != 0 && NoStrike(es, b))
            && (report == Response(words) <==>
                 parse(words) == Verdictful(false) || (parse(words) == Verdictful(true) && (exitCode == 0 || !NoStrike(es, b))))
  {
    hide Run, Output, Includes, FinishedFirst, Strikes, Strip;
    OverflowIff(es, b);
    KilledIsLastStrike(es, b);
    forall k: nat | LastStrike(es, b, k) ensures Run(es[..k], b).phase == Verdict(es[..k]) { StrikePhase(es, b, k); }
  }

  /**
   * "Nothing ran" is no promise: a child killed in startup may have written the first marker already,
   * and the output that was still in the pipe is read after the kill.
   */
  lemma StartedAfterAll(b: Budgets, parse: string -> Parsed, exitCode: int)
    ensures var es := [Fires(0), Chunk(STARTED)];
            && Reported(Run(es, b), parse, exitCode) == NeverStarted && Includes(Output(es), STARTED)
  {
    var es := [Fires(0), Chunk(STARTED)];
    var w := Run(es[..1], b);
    assert es[..1] == [Fires(0)] && es[..1][..0] == [] && es[..|es| - 1] == es[..1];
    assert Run([], b) == Begin(b) && 0 in Begin(b).armed;
    assert w == Step(Begin(b), Fires(0), b);
    assert w.killed == Some(Startup);
    assert Output(es[..1]) == "" && Output(es) == Output(es[..1]) + STARTED;
    assert "" + STARTED == STARTED && STARTED[0..|STARTED|] == STARTED;
    assert At(STARTED, STARTED, 0);
    assert Run(es, b) == Step(w, es[1], b);
    hide Run, Step, Output;
    StepSpares(w, es[1], b);
    OverflowIff(es, b);
  }
}
