/**
 * Carving a persona file down to what fits beside the rewrite gate's framing: whole sections from the
 * end of the file, or failing that whole lines, or failing that characters.
 */
module Persona {
  import opened Jsonl

  const SYSTEM_MAX := 2000
  const OPEN := "<voice_reference>"
  const CLOSE := "</voice_reference>"

  // ------------------------------------------------------------------ text

  predicate Space(c: char) {
    c in " \t\r\n"
  }

  function TrimStart(text: string): string {
    if text != "" && Space(text[0]) then TrimStart(text[1..]) else text
  }

  function TrimEnd(text: string): string {
    if text != "" && Space(text[|text| - 1]) then TrimEnd(text[..|text| - 1]) else text
  }

  function Trim(text: string): string {
    TrimEnd(TrimStart(text))
  }

  /** Neither end is a space. */
  predicate Trimmed(text: string) {
    text == "" || (!Space(text[0]) && !Space(text[|text| - 1]))
  }

  function Join(parts: seq<string>, sep: string): string {
    if parts == [] then ""
    else if |parts| == 1 then parts[0]
    else parts[0] + sep + Join(parts[1..], sep)
  }

  /** `text.slice(-budget)`, whose argument is 0 when the budget is. */
  function SliceTail(text: string, budget: int): string {
    if budget >= |text| || budget == 0 then text
    else if budget > 0 then text[|text| - budget..]
    else if -budget <= |text| then text[-budget..]
    else ""
  }

  // -------------------------------------------------------------- sections

  predicate Heading(line: string) {
    |line| >= 3 && line[..2] == "##" && Space(line[2])
  }

  /** Lines grouped so that a heading starts a new group. */
  function Grouped(lines: seq<string>): seq<seq<string>> {
    if lines == [] then [] else AddLine(Grouped(lines[..|lines| - 1]), lines[|lines| - 1])
  }

  function AddLine(groups: seq<seq<string>>, line: string): seq<seq<string>> {
    if groups == [] || Heading(line) then groups + [[line]]
    else groups[..|groups| - 1] + [groups[|groups| - 1] + [line]]
  }

  function Texts(groups: seq<seq<string>>): seq<string> {
    if groups == [] then []
    else
      var text := Trim(Join(groups[|groups| - 1], "\n"));
      Texts(groups[..|groups| - 1]) + if text == "" then [] else [text]
  }

  function Sections(text: string): seq<string> {
    Texts(Grouped(Lines(text)))
  }

  // -------------------------------------------------------------- the carve

  /** Where the kept tail starts, going backwards from `k` with `used` characters spent. */
  function KeepFrom(parts: seq<string>, k: nat, used: int, sep: nat, budget: int): (start: nat)
    requires k <= |parts|
    ensures start <= k
  {
    if k == 0 then 0
    else
      var cost := |parts[k - 1]| + if k < |parts| then sep else 0;
      if used + cost > budget then k else KeepFrom(parts, k - 1, used + cost, sep, budget)
  }

  function KeptTail(parts: seq<string>, sep: string, budget: int): seq<string> {
    parts[KeepFrom(parts, |parts|, 0, |sep|, budget)..]
  }

  function TailLines(text: string, budget: int): string {
    var whole := Trim(Join(KeptTail(Lines(text), "\n", budget), "\n"));
    if whole != "" then whole else Trim(SliceTail(text, budget))
  }

  /** The text to send: the marked regions if there are any, else the whole file. */
  function Candidate(persona: string, marked: seq<string>): string {
    Trim(if marked != [] then Join(marked, "\n\n") else persona)
  }

  datatype How = Whole | Marked | Carved

  /** `selectPersonaForGate`; `marked` are the trimmed, non-empty regions between the file's markers. */
  function Select(persona: string, marked: seq<string>, budget: int): (string, How) {
    var candidate := Candidate(persona, marked);
    if |candidate| <= budget then (candidate, if marked != [] then Marked else Whole)
    else
      var kept := KeptTail(Sections(candidate), "\n\n", budget);
      (if kept != [] then Join(kept, "\n\n") else TailLines(candidate, budget), Carved)
  }

  function PersonaBudget(preamble: string, max: int): int {
    max - |preamble| - |OPEN| - |CLOSE| - 4
  }

  function Compose(preamble: string, text: string): string {
    preamble + "\n\n" + OPEN + "\n" + text + "\n" + CLOSE
  }

  // ----------------------------------------------------------- trim lemmas

  lemma {:induction false} TrimStartIs(text: string)
    ensures |TrimStart(text)| <= |text| && TrimStart(text) == text[|text| - |TrimStart(text)|..]
    ensures TrimStart(text) != "" ==> !Space(TrimStart(text)[0])
    ensures text != "" && !Space(text[|text| - 1]) ==> TrimStart(text) != ""
  {
    if text != "" && Space(text[0]) { TrimStartIs(text[1..]); }
  }

  lemma {:induction false} TrimEndIs(text: string)
    ensures |TrimEnd(text)| <= |text| && TrimEnd(text) == text[..|TrimEnd(text)|]
    ensures TrimEnd(text) != "" ==> !Space(TrimEnd(text)[|TrimEnd(text)| - 1])
  {
    if text != "" && Space(text[|text| - 1]) { TrimEndIs(text[..|text| - 1]); }
  }

  lemma TrimIs(text: string)
    ensures |Trim(text)| <= |text| && Trimmed(Trim(text))
    ensures Trimmed(text) ==> Trim(text) == text
    ensures text != "" && !Space(text[|text| - 1]) ==> Trim(text) != ""
  {
    TrimStartIs(text);
    TrimEndIs(TrimStart(text));
  }

  lemma {:induction false} TrimStartDrops(text: string)
    ensures |TrimStart(text)| <= |text| && forall i :: 0 <= i < |text| - |TrimStart(text)| ==> Space(text[i])
  {
    TrimStartIs(text);
    if text != "" && Space(text[0]) {
      TrimStartDrops(text[1..]);
      forall i | 1 <= i < |text| - |TrimStart(text)| ensures Space(text[i]) { assert text[i] == text[1..][i - 1]; }
    }
  }

  lemma {:induction false} TrimEndDrops(text: string)
    ensures |TrimEnd(text)| <= |text| && forall i :: |TrimEnd(text)| <= i < |text| ==> Space(text[i])
  {
    TrimEndIs(text);
    if text != "" && Space(text[|text| - 1]) {
      var front := text[..|text| - 1];
      TrimEndDrops(front);
      forall i | |TrimEnd(text)| <= i < |text| - 1 ensures Space(text[i]) { assert text[i] == front[i]; }
    }
  }

  /** `part` is `text` from `i` to `j`, and everything around it is space. */
  ghost predicate Core(part: string, text: string, i: nat, j: nat) {
    && i <= j <= |text| && part == text[i..j]
    && forall k :: 0 <= k < |text| && !(i <= k < j) ==> Space(text[k])
  }

  /** Trimming takes off spaces at both ends and nothing else. */
  lemma TrimDropsSpaces(text: string)
    ensures exists i: nat, j: nat :: Core(Trim(text), text, i, j)
  {
    hide TrimStart, TrimEnd;
    var one := TrimStart(text);
    var i, j := |text| - |one|, |text| - |one| + |Trim(text)|;
    TrimStartIs(text);
    TrimStartDrops(text);
    TrimEndIs(one);
    TrimEndDrops(one);
    forall k | j <= k < |text| ensures Space(text[k]) { assert text[k] == one[k - i]; }
    assert Core(Trim(text), text, i, j);
  }

  // ----------------------------------------------------------- carve lemmas

  lemma JoinCons(part: string, rest: seq<string>, sep: string)
    ensures |Join([part] + rest, sep)| == |part| + if rest == [] then 0 else |sep| + |Join(rest, sep)|
  {
    assert ([part] + rest)[1..] == rest;
  }

  /** Characters the tail from `k` on takes. */
  function Length(parts: seq<string>, k: nat, sep: nat): nat
    requires k <= |parts|
    decreases |parts| - k
  {
    if k == |parts| then 0 else |parts[k]| + (if k + 1 < |parts| then sep else 0) + Length(parts, k + 1, sep)
  }

  lemma {:induction false} LengthIsJoin(parts: seq<string>, k: nat, sep: string)
    requires k <= |parts|
    ensures Length(parts, k, |sep|) == |Join(parts[k..], sep)|
    decreases |parts| - k
  {
    if k < |parts| {
      LengthIsJoin(parts, k + 1, sep);
      assert parts[k..] == [parts[k]] + parts[k + 1..];
      JoinCons(parts[k], parts[k + 1..], sep);
    }
  }

  lemma {:induction false} LongerIsLonger(parts: seq<string>, k: nat, j: nat, sep: nat)
    requires j <= k <= |parts|
    ensures Length(parts, j, sep) >= Length(parts, k, sep)
    decreases k - j
  {
    if j < k { LongerIsLonger(parts, k, j + 1, sep); }
  }

  /** The kept tail fits, and the next longer one does not. */
  lemma {:induction false} KeepFromIsLongest(parts: seq<string>, k: nat, sep: nat, budget: int)
    requires k <= |parts| && (k < |parts| ==> Length(parts, k, sep) <= budget)
    ensures var start := KeepFrom(parts, k, Length(parts, k, sep), sep, budget);
            && (start < |parts| ==> Length(parts, start, sep) <= budget)
            && (start > 0 ==> Length(parts, start - 1, sep) > budget)
  {
    if k > 0 && Length(parts, k - 1, sep) <= budget { KeepFromIsLongest(parts, k - 1, sep, budget); }
  }

  /** `kept` is the longest tail of `parts` that fits. */
  ghost predicate LongestFitting(kept: seq<string>, parts: seq<string>, sep: string, budget: int) {
    && |kept| <= |parts| && kept == parts[|parts| - |kept|..]
    && (kept != [] ==> |Join(kept, sep)| <= budget)
    && (forall j :: 0 <= j < |parts| - |kept| ==> |Join(parts[j..], sep)| > budget)
  }

  lemma KeptTailIsLongest(parts: seq<string>, sep: string, budget: int)
    ensures LongestFitting(KeptTail(parts, sep, budget), parts, sep, budget)
  {
    var start := KeepFrom(parts, |parts|, 0, |sep|, budget);
    KeepFromIsLongest(parts, |parts|, |sep|, budget);
    LengthIsJoin(parts, start, sep);
    forall j | 0 <= j < start ensures |Join(parts[j..], sep)| > budget {
      LongerIsLonger(parts, start - 1, j, |sep|);
      LengthIsJoin(parts, j, sep);
    }
  }

  /** What is left of the last characters, as the source counts them. */
  lemma LastCharacters(text: string, budget: int)
    requires |text| > budget
    ensures SliceTail(text, budget) ==
              if budget > 0 then text[|text| - budget..]
              else if budget == 0 then text
              else if -budget <= |text| then text[-budget..]
              else ""
  {
  }

  /** The longest tail that fits is one text, however it is found. */
  lemma LongestIsOne(a: seq<string>, b: seq<string>, parts: seq<string>, sep: string, budget: int)
    requires LongestFitting(a, parts, sep, budget) && LongestFitting(b, parts, sep, budget)
    ensures a == b
  {
    assert |Join(parts[|parts| - |a|..], sep)| == |Join(a, sep)|;
    assert |Join(parts[|parts| - |b|..], sep)| == |Join(b, sep)|;
  }

  /** What fits is sent as it is. */
  lemma WhatFitsIsSent(persona: string, marked: seq<string>, budget: int)
    ensures var candidate := Trim(if marked != [] then Join(marked, "\n\n") else persona);
            |candidate| <= budget ==>
              Select(persona, marked, budget) == (candidate, if marked != [] then Marked else Whole)
  {
  }

  /**
   * A carve, for whatever tail of sections is the longest that fits and whatever tail of lines is: the
   * sections if there are any; else the lines, trimmed, unless only spaces are left of them; only then
   * the last characters, trimmed.
   */
  lemma CarveIsLongestTail(persona: string, marked: seq<string>, budget: int, kept: seq<string>, lines: seq<string>)
    requires |Candidate(persona, marked)| > budget
    requires LongestFitting(kept, Sections(Candidate(persona, marked)), "\n\n", budget)
    requires LongestFitting(lines, Lines(Candidate(persona, marked)), "\n", budget)
    ensures var candidate := Trim(if marked != [] then Join(marked, "\n\n") else persona);
            var (text, how) := Select(persona, marked, budget);
            && how == Carved
            && (kept != [] ==> text == Join(kept, "\n\n"))
            && (kept == [] && Trim(Join(lines, "\n")) != "" ==> text == Trim(Join(lines, "\n")))
            && (kept == [] && Trim(Join(lines, "\n")) == "" ==>
                 text == Trim(if budget > 0 then candidate[|candidate| - budget..]
                              else if budget == 0 then candidate
                              else if -budget <= |candidate| then candidate[-budget..]
                              else ""))
  {
    hide Sections, Trim, KeptTail, LongestFitting;
    var candidate := Candidate(persona, marked);
    KeptTailIsLongest(Sections(candidate), "\n\n", budget);
    LongestIsOne(kept, KeptTail(Sections(candidate), "\n\n", budget), Sections(candidate), "\n\n", budget);
    KeptTailIsLongest(Lines(candidate), "\n", budget);
    LongestIsOne(lines, KeptTail(Lines(candidate), "\n", budget), Lines(candidate), "\n", budget);
    LastCharacters(candidate, budget);
  }

  /** There always are such tails. */
  lemma LongestExists(parts: seq<string>, sep: string, budget: int) returns (kept: seq<string>)
    ensures LongestFitting(kept, parts, sep, budget)
  {
    kept := KeptTail(parts, sep, budget);
    KeptTailIsLongest(parts, sep, budget);
  }

  // -------------------------------------------------------------- the bound

  lemma TailLinesFits(text: string, budget: int)
    requires budget >= 1
    ensures |TailLines(text, budget)| <= budget
  {
    var kept := KeptTail(Lines(text), "\n", budget);
    KeptTailIsLongest(Lines(text), "\n", budget);
    TrimIs(Join(kept, "\n"));
    TrimIs(SliceTail(text, budget));
  }

  lemma {:induction false} TextsNotEmpty(groups: seq<seq<string>>)
    ensures forall t :: t in Texts(groups) ==> t != ""
  {
    if groups != [] { TextsNotEmpty(groups[..|groups| - 1]); }
  }

  /** The last line of a text that does not end in a newline is not empty. */
  lemma {:induction false} LastLineNotEmpty(text: string)
    requires text != "" && text[|text| - 1] != '\n'
    ensures Lines(text) != [] && Lines(text)[|Lines(text)| - 1] != ""
  {
    var rest := text[1..];
    LinesSome(rest);
    if rest == "" {
      assert Lines(rest) == [""];
      assert Lines(text) == Extend(text[0], [""]);
    } else {
      assert rest[|rest| - 1] == text[|text| - 1];
      LastLineNotEmpty(rest);
      var lines := Lines(rest);
      if text[0] == '\n' {
        assert Lines(text) == [""] + lines;
      } else {
        assert Lines(text) == [[text[0]] + lines[0]] + lines[1..];
      }
    }
  }

  /** With nothing to spend nothing is kept. */
  lemma NothingKept(parts: seq<string>, sep: string)
    requires parts != [] ==> parts[|parts| - 1] != ""
    ensures KeptTail(parts, sep, 0) == []
  {
  }

  lemma EmptyBudgetSendsAll(candidate: string)
    requires candidate != "" && Trimmed(candidate)
    ensures KeptTail(Sections(candidate), "\n\n", 0) == []
    ensures TailLines(candidate, 0) == candidate
  {
    TextsNotEmpty(Grouped(Lines(candidate)));
    var parts := Sections(candidate);
    assert parts != [] ==> parts[|parts| - 1] in parts;
    NothingKept(parts, "\n\n");
    LastLineNotEmpty(candidate);
    NothingKept(Lines(candidate), "\n");
    assert Trim("") == "";
    TrimIs(candidate);
  }

  /**
   * The text fits its budget exactly when the budget is at least one character (or nothing is to be
   * sent): a budget of zero slices nothing off and sends the whole text.
   */
  lemma WithinBudgetIff(persona: string, marked: seq<string>, budget: int)
    ensures |Select(persona, marked, budget).0| <= budget <==>
              budget >= 1 || (budget == 0 && Candidate(persona, marked) == "")
  {
    var candidate := Candidate(persona, marked);
    TrimIs(if marked != [] then Join(marked, "\n\n") else persona);
    if |candidate| > budget {
      KeptTailIsLongest(Sections(candidate), "\n\n", budget);
      if budget >= 1 { TailLinesFits(candidate, budget); }
      if budget == 0 { EmptyBudgetSendsAll(candidate); }
    }
  }

  /** With nothing to spend, a persona of one character is sent. */
  lemma ZeroBudgetOverflows()
    ensures |Select("a", [], 0).0| > 0
  {
    assert Candidate("a", []) == "a" by { assert TrimStart("a") == "a"; assert TrimEnd("a") == "a"; }
    WithinBudgetIff("a", [], 0);
  }

  /** The composed prompt fits the gate's cap under the same condition. */
  lemma PromptFitsIff(preamble: string, persona: string, marked: seq<string>, max: int)
    ensures var budget := PersonaBudget(preamble, max);
            |Compose(preamble, Select(persona, marked, budget).0)| <= max <==>
              budget >= 1 || (budget == 0 && Candidate(persona, marked) == "")
  {
    WithinBudgetIff(persona, marked, PersonaBudget(preamble, max));
  }

  /** With the shipped framing the prompt never exceeds 2000 characters. */
  lemma DefaultPromptFits(preamble: string, persona: string, marked: seq<string>)
    requires |preamble| == 739
    ensures |Compose(preamble, Select(persona, marked, PersonaBudget(preamble, SYSTEM_MAX)).0)| <= 2000
  {
    PromptFitsIff(preamble, persona, marked, SYSTEM_MAX);
  }

  lemma KeptNotEmpty(candidate: string, budget: int)
    requires KeptTail(Sections(candidate), "\n\n", budget) != []
    ensures Join(KeptTail(Sections(candidate), "\n\n", budget), "\n\n") != ""
  {
    hide Grouped, KeepFrom, Trim;
    var kept := KeptTail(Sections(candidate), "\n\n", budget);
    TextsNotEmpty(Grouped(Lines(candidate)));
    KeptTailIsLongest(Sections(candidate), "\n\n", budget);
    assert kept[0] in Sections(candidate);
    assert kept == [kept[0]] + kept[1..];
    JoinCons(kept[0], kept[1..], "\n\n");
  }

  /** Something is always sent: a budget of one character or more never carves a persona to nothing. */
  lemma NeverEmpty(persona: string, marked: seq<string>, budget: int)
    requires budget >= 1 && Candidate(persona, marked) != ""
    ensures Select(persona, marked, budget).0 != ""
  {
    hide KeptTail, Sections, Join;
    var candidate := Candidate(persona, marked);
    TrimIs(if marked != [] then Join(marked, "\n\n") else persona);
    if |candidate| > budget {
      if KeptTail(Sections(candidate), "\n\n", budget) != [] { KeptNotEmpty(candidate, budget); }
      else { TrimIs(SliceTail(candidate, budget)); }
    }
  }

  // --------------------------------------------------- sections lose nothing

  function Flat(groups: seq<seq<string>>): seq<string> {
    if groups == [] then [] else Flat(groups[..|groups| - 1]) + groups[|groups| - 1]
  }

  lemma FlatAppend(groups: seq<seq<string>>, g: seq<string>)
    ensures Flat(groups + [g]) == Flat(groups) + g
  {
    assert (groups + [g])[..|groups|] == groups;
  }

  lemma AddLineFlat(groups: seq<seq<string>>, line: string)
    ensures Flat(AddLine(groups, line)) == Flat(groups) + [line]
  {
    if groups == [] || Heading(line) {
      FlatAppend(groups, [line]);
    } else {
      var n := |groups| - 1;
      FlatAppend(groups[..n], groups[n] + [line]);
    }
  }

  /** Headings only at the start of a group, and at the start of every group but the first. */
  ghost predicate WellGrouped(groups: seq<seq<string>>) {
    && (forall k :: 0 <= k < |groups| ==> groups[k] != [] && OneHeading(groups[k]))
    && (forall k :: 1 <= k < |groups| ==> Starts(groups[k]))
  }

  ghost predicate OneHeading(group: seq<string>) {
    forall i :: 1 <= i < |group| ==> !Heading(group[i])
  }

  ghost predicate Starts(group: seq<string>) {
    group != [] && Heading(group[0])
  }

  lemma AddLineWell(groups: seq<seq<string>>, line: string)
    requires WellGrouped(groups)
    ensures WellGrouped(AddLine(groups, line))
  {
  }

  /** The groups are the lines in order, cut exactly before the headings. */
  lemma {:induction false} GroupsAreLines(lines: seq<string>)
    ensures Flat(Grouped(lines)) == lines && WellGrouped(Grouped(lines))
  {
    if lines != [] {
      var front, line := lines[..|lines| - 1], lines[|lines| - 1];
      GroupsAreLines(front);
      AddLineFlat(Grouped(front), line);
      AddLineWell(Grouped(front), line);
      assert lines == front + [line];
    }
  }

  /** The sections are what trimming leaves of each group, in order, without the blank ones. */
  lemma {:induction false} TextsJoin(a: seq<seq<string>>, b: seq<seq<string>>)
    ensures Texts(a + b) == Texts(a) + Texts(b)
    ensures |b| == 1 ==> Texts(b) == var text := Trim(Join(b[0], "\n")); if text == "" then [] else [text]
    decreases |b|
  {
    if b == [] {
      assert a + b == a;
    } else {
      var n := |b| - 1;
      assert (a + b)[..|a + b| - 1] == a + b[..n] && (a + b)[|a + b| - 1] == b[n];
      TextsJoin(a, b[..n]);
      if n == 0 { assert Texts(b[..0]) == []; }
    }
  }

  /** The prompt is the framing around the text. */
  lemma PromptIsFramed(preamble: string, text: string)
    ensures var prompt := Compose(preamble, text);
            && preamble <= prompt && |CLOSE| <= |prompt| && prompt[|prompt| - |CLOSE|..] == CLOSE
            && var start := |preamble| + 2 + |OPEN| + 1;
               start + |text| + 1 + |CLOSE| == |prompt| && prompt[start..start + |text|] == text
  {
  }

  // -------------------------------------------------------- the operations

  method FindSections(text: string) returns (chunks: seq<string>)
    ensures chunks == Sections(text)
  {
    var groups := GroupLines(Lines(text));
    chunks := TrimAll(groups);
  }

  method GroupLines(lines: seq<string>) returns (groups: seq<seq<string>>)
    ensures groups == Grouped(lines)
  {
    groups := [];
    var current: seq<string> := [];
    for i := 0 to |lines|
      invariant Grouped(lines[..i]) == Closed(groups, current)
      invariant current == [] ==> i == 0 && groups == []
    {
      assert lines[..i + 1][..i] == lines[..i];
      CloseAdd(groups, current, lines[i]);
      if Heading(lines[i]) && |current| > 0 {
        groups := groups + [current];
        current := [];
      }
      current := current + [lines[i]];
    }
    assert lines[..|lines|] == lines;
    if |current| > 0 { groups := groups + [current]; }
  }

  /** The groups once the current one is closed. */
  function Closed(groups: seq<seq<string>>, current: seq<string>): seq<seq<string>> {
    if current == [] then groups else groups + [current]
  }

  lemma CloseAdd(groups: seq<seq<string>>, current: seq<string>, line: string)
    requires current == [] ==> groups == []
    ensures AddLine(Closed(groups, current), line)
            == if Heading(line) && current != [] then Closed(groups + [current], [] + [line]) else Closed(groups, current + [line])
  {
    if current == [] {
      assert current + [line] == [line];
    } else {
      var all := groups + [current];
      assert all[..|all| - 1] == groups && all[|all| - 1] == current;
      assert [] + [line] == [line];
    }
  }

  method TrimAll(groups: seq<seq<string>>) returns (texts: seq<string>)
    ensures texts == Texts(groups)
  {
    texts := [];
    for i := 0 to |groups|
      invariant texts == Texts(groups[..i])
    {
      assert groups[..i + 1][..i] == groups[..i];
      var text := Trim(Join(groups[i], "\n"));
      if text != "" { texts := texts + [text]; }
    }
    assert groups[..|groups|] == groups;
  }

  /** The backwards loop of both carves: stop at the first part that does not fit. */
  method KeepTail(parts: seq<string>, sep: nat, budget: int) returns (kept: seq<string>)
    ensures kept == parts[KeepFrom(parts, |parts|, 0, sep, budget)..]
  {
    kept := [];
    var used, k := 0, |parts|;
    while k > 0
      invariant 0 <= k <= |parts| && kept == parts[k..]
      invariant KeepFrom(parts, k, used, sep, budget) == KeepFrom(parts, |parts|, 0, sep, budget)
    {
      var cost := |parts[k - 1]| + if |kept| > 0 then sep else 0;
      if used + cost > budget { break; }
      kept := [parts[k - 1]] + kept;
      used, k := used + cost, k - 1;
    }
  }

  method SelectPersonaForGate(persona: string, marked: seq<string>, budget: int) returns (text: string, how: How)
    ensures (text, how) == Select(persona, marked, budget)
  {
    var candidate := Candidate(persona, marked);
    if |candidate| <= budget { return candidate, if |marked| > 0 then Marked else Whole; }
    var sections := FindSections(candidate);
    var kept := KeepTail(sections, |"\n\n"|, budget);
    how := Carved;
    if |kept| > 0 { return Join(kept, "\n\n"), Carved; }
    kept := KeepTail(Lines(candidate), |"\n"|, budget);
    text := Trim(Join(kept, "\n"));
    if text == "" { text := Trim(SliceTail(candidate, budget)); }
  }
}
