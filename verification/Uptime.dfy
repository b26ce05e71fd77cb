/**
 * The daemon's lifecycle ledger: boots, clean shutdowns and the marker a boot leaves when the boot
 * before it never shut down.
 */
module Uptime {
  import opened Wrappers
  import opened Jsonl

  datatype Kind = Boot | CleanShutdown | UncleanRestart

  /** `at` in milliseconds. */
  datatype Event = Event(kind: Kind, at: int)

  /** What happens to the ledger, with the bytes of each append that reach the file. */
  datatype Action =
    | Start(now: int, markerCut: nat, bootCut: nat)
    | Shutdown(now: int, cut: nat)

  predicate EndsInBoot(events: seq<Event>) {
    events != [] && events[|events| - 1].kind.Boot?
  }

  /** `recordBoot`: a short write of the marker throws before the boot is appended. */
  function Started(body: Bytes, now: int, markerCut: nat, bootCut: nat, codec: Codec<Event>): Bytes {
    var marker, boot := Event(UncleanRestart, now), Event(Boot, now);
    if !EndsInBoot(ReadLedger(body, codec)) then Appended(body, Write(boot, bootCut), codec)
    else
      var marked := Appended(body, Write(marker, markerCut), codec);
      if markerCut < |Frame(marker, codec)| then marked else Appended(marked, Write(boot, bootCut), codec)
  }

  function Act(body: Bytes, a: Action, codec: Codec<Event>): Bytes {
    match a
    case Start(now, markerCut, bootCut) => Started(body, now, markerCut, bootCut, codec)
    case Shutdown(now, cut) => Appended(body, Write(Event(CleanShutdown, now), cut), codec)
  }

  function Run(body: Bytes, actions: seq<Action>, codec: Codec<Event>): Bytes
    decreases |actions|
  {
    if actions == [] then body else Run(Act(body, actions[0], codec), actions[1..], codec)
  }

  // ------------------------------------------------------------ counting

  /** A boot never follows a boot, and a marker follows nothing else. */
  ghost predicate Lawful(events: seq<Event>) {
    && (forall i :: 0 <= i < |events| - 1 && events[i].kind.Boot? ==> !events[i + 1].kind.Boot?)
    && (forall i :: 0 <= i < |events| && events[i].kind.UncleanRestart? ==> i > 0 && events[i - 1].kind.Boot?)
  }

  function Count(events: seq<Event>, kind: Kind): nat {
    if events == [] then 0 else Count(events[..|events| - 1], kind) + if events[|events| - 1].kind == kind then 1 else 0
  }

  /** Shutdowns directly after a boot. */
  function PairedShutdowns(events: seq<Event>): nat {
    if |events| < 2 then 0
    else
      PairedShutdowns(events[..|events| - 1])
      + if events[|events| - 1].kind.CleanShutdown? && events[|events| - 2].kind.Boot? then 1 else 0
  }

  /** Every boot ended unclean, ended clean, or is the one running. */
  lemma {:induction false} BootsAreAccounted(events: seq<Event>)
    requires Lawful(events)
    ensures Count(events, Boot)
            == Count(events, UncleanRestart) + PairedShutdowns(events) + if EndsInBoot(events) then 1 else 0
    decreases |events|
  {
    if events != [] {
      var before := events[..|events| - 1];
      assert forall i :: 0 <= i < |before| ==> before[i] == events[i];
      BootsAreAccounted(before);
      if |events| == 1 {
        assert before == [];
      }
    }
  }

  lemma LawfulAppend(events: seq<Event>, e: Event)
    requires Lawful(events)
    requires e.kind.Boot? ==> !EndsInBoot(events)
    requires e.kind.UncleanRestart? ==> EndsInBoot(events)
    ensures Lawful(events + [e])
  {
  }

  lemma ActKeepsLaw(body: Bytes, a: Action, codec: Codec<Event>)
    requires Sound(codec) && Lawful(ReadLedger(body, codec))
    ensures Lawful(ReadLedger(Act(body, a, codec), codec))
  {
    var events := ReadLedger(body, codec);
    match a
    case Shutdown(now, cut) =>
      AppendReads(body, Write(Event(CleanShutdown, now), cut), codec);
      LawfulAppend(events, Event(CleanShutdown, now));
    case Start(now, markerCut, bootCut) =>
      var marker, boot := Event(UncleanRestart, now), Event(Boot, now);
      if EndsInBoot(events) {
        AppendReads(body, Write(marker, markerCut), codec);
        LawfulAppend(events, marker);
        var marked := Appended(body, Write(marker, markerCut), codec);
        if markerCut >= |Frame(marker, codec)| {
          AppendReads(marked, Write(boot, bootCut), codec);
          LawfulAppend(events + [marker], boot);
        }
      } else {
        AppendReads(body, Write(boot, bootCut), codec);
        LawfulAppend(events, boot);
      }
  }

  /** Over any run of boots, shutdowns and crashes in the middle of any append. */
  lemma {:induction false} LedgerAlwaysLawful(body: Bytes, actions: seq<Action>, codec: Codec<Event>)
    requires Sound(codec) && Lawful(ReadLedger(body, codec))
    ensures var events := ReadLedger(Run(body, actions, codec), codec);
            && Lawful(events)
            && Count(events, Boot)
               == Count(events, UncleanRestart) + PairedShutdowns(events) + if EndsInBoot(events) then 1 else 0
    decreases |actions|
  {
    if actions == [] {
      BootsAreAccounted(ReadLedger(body, codec));
    } else {
      ActKeepsLaw(body, actions[0], codec);
      LedgerAlwaysLawful(Act(body, actions[0], codec), actions[1..], codec);
    }
  }

  // ------------------------------------------------------------- durations

  datatype Window = Window(shutdownAt: int, bootAt: int, duration: nat)

  function Max0(x: int): nat {
    if x < 0 then 0 else x
  }

  /** The downtime windows of a ledger, oldest first. */
  function Windows(events: seq<Event>): seq<Window> {
    if |events| < 2 then []
    else
      var a, b := events[|events| - 2], events[|events| - 1];
      Windows(events[..|events| - 1])
      + if a.kind.CleanShutdown? && b.kind.Boot? then [Window(a.at, b.at, Max0(b.at - a.at))] else []
  }

  function Total(windows: seq<Window>): nat {
    if windows == [] then 0 else Total(windows[..|windows| - 1]) + windows[|windows| - 1].duration
  }

  /** Time from a boot to its clean shutdown. */
  function KnownUptime(events: seq<Event>): int {
    if |events| < 2 then 0
    else
      var a, b := events[|events| - 2], events[|events| - 1];
      KnownUptime(events[..|events| - 1]) + if a.kind.Boot? && b.kind.CleanShutdown? then b.at - a.at else 0
  }

  /** Every other stretch between two events: before a marker, after a marker, or after a lost boot. */
  function Unaccounted(events: seq<Event>): int {
    if |events| < 2 then 0
    else
      var a, b := events[|events| - 2], events[|events| - 1];
      var known := (a.kind.CleanShutdown? && b.kind.Boot?) || (a.kind.Boot? && b.kind.CleanShutdown?);
      Unaccounted(events[..|events| - 1]) + if known then 0 else b.at - a.at
  }

  ghost predicate Monotone(events: seq<Event>, now: int) {
    && (forall i :: 0 <= i < |events| - 1 ==> events[i].at <= events[i + 1].at)
    && (events != [] ==> events[|events| - 1].at <= now)
  }

  datatype Snapshot = Snapshot(
    currentUptime: Option<int>, bootedAt: Option<int>, windows: seq<Window>, totalDowntime: Option<int>, uncleanRestarts: nat)

  function LastBoot(events: seq<Event>): Option<int> {
    if events == [] then None
    else if events[|events| - 1].kind.Boot? then Some(events[|events| - 1].at)
    else LastBoot(events[..|events| - 1])
  }

  /** `readUptime` on the events of the ledger. */
  function Snap(events: seq<Event>, now: int): Snapshot {
    var windows := Windows(events);
    Snapshot(
      if EndsInBoot(events) then Some(Max0(now - events[|events| - 1].at)) else None,
      LastBoot(events), windows, if windows == [] then None else Some(Total(windows)), Count(events, UncleanRestart))
  }

  function OrZero(x: Option<int>): int {
    if x.Some? then x.value else 0
  }

  lemma TotalAppend(windows: seq<Window>, w: Window)
    ensures Total(windows + [w]) == Total(windows) + w.duration
  {
    assert (windows + [w])[..|windows|] == windows;
  }

  /** The last stretch belongs to exactly one of the three kinds. */
  lemma LastStretch(events: seq<Event>)
    requires |events| > 1 && events[|events| - 2].at <= events[|events| - 1].at
    ensures var before := events[..|events| - 1];
            && Total(Windows(events)) + KnownUptime(events) + Unaccounted(events)
               == Total(Windows(before)) + KnownUptime(before) + Unaccounted(before)
                  + events[|events| - 1].at - events[|events| - 2].at
            && KnownUptime(events) >= KnownUptime(before) && Unaccounted(events) >= Unaccounted(before)
  {
    hide Total;
    var a, b := events[|events| - 2], events[|events| - 1];
    TotalAppend(Windows(events[..|events| - 1]), Window(a.at, b.at, Max0(b.at - a.at)));
    assert Windows(events[..|events| - 1]) + [] == Windows(events[..|events| - 1]);
  }

  lemma {:induction false} StretchesAddUp(events: seq<Event>, now: int)
    requires Monotone(events, now) && events != []
    ensures Total(Windows(events)) + KnownUptime(events) + Unaccounted(events) == events[|events| - 1].at - events[0].at
    ensures KnownUptime(events) >= 0 && Unaccounted(events) >= 0
    decreases |events|
  {
    if |events| == 1 {
      assert Windows(events) == [];
    } else {
      hide Total, Windows, KnownUptime, Unaccounted;
      var before := events[..|events| - 1];
      assert forall i :: 0 <= i < |before| ==> before[i] == events[i];
      StretchesAddUp(before, now);
      LastStretch(events);
    }
  }

  /**
   * With clocks that never go back, the time since the first event is split without overlap into
   * reported downtime, finished uptime, unaccounted time and the time since the last event, which is
   * the reported current uptime if the daemon runs.
   */
  lemma TimeIsConserved(events: seq<Event>, now: int)
    requires Monotone(events, now) && events != []
    ensures var s := Snap(events, now);
            && OrZero(s.totalDowntime) + KnownUptime(events) + Unaccounted(events)
               + (now - events[|events| - 1].at) == now - events[0].at
            && (s.currentUptime.Some? ==> s.currentUptime.value == now - events[|events| - 1].at && s.bootedAt == Some(events[|events| - 1].at))
            && OrZero(s.totalDowntime) + OrZero(s.currentUptime) <= now - events[0].at
  {
    StretchesAddUp(events, now);
  }

  lemma {:induction false} LastBootIs(events: seq<Event>)
    ensures LastBoot(events).None? ==> Count(events, Boot) == 0
    ensures LastBoot(events).Some? ==>
              exists i: nat :: i < |events| && events[i] == Event(Boot, LastBoot(events).value)
                               && forall j :: i < j < |events| ==> !events[j].kind.Boot?
  {
    if events != [] {
      var n := |events| - 1;
      LastBootIs(events[..n]);
      if !events[n].kind.Boot? && LastBoot(events).Some? {
        var i: nat :| i < n && events[..n][i] == Event(Boot, LastBoot(events).value) && forall j :: i < j < n ==> !events[..n][j].kind.Boot?;
        assert events[i] == events[..n][i];
        assert forall j :: i < j < n ==> events[j] == events[..n][j];
      } else if events[n].kind.Boot? {
        assert events[n] == Event(Boot, LastBoot(events).value);
      }
    }
  }

  /**
   * After any boots, shutdowns and crashes inside an append, what is reported: the daemon is up exactly
   * if the last event is a boot; each boot was lost and is counted as such, or was shut down, or is the
   * one that is up; and the boot time is that of the last boot there was.
   */
  lemma EveryBootIsReported(actions: seq<Action>, codec: Codec<Event>, now: int)
    requires Sound(codec)
    ensures var events := ReadLedger(Run("", actions, codec), codec);
            var s := Snap(events, now);
            && (s.currentUptime.Some? <==> events != [] && events[|events| - 1].kind.Boot?)
            && Count(events, Boot) == s.uncleanRestarts + PairedShutdowns(events) + (if s.currentUptime.Some? then 1 else 0)
            && (s.bootedAt.None? <==> Count(events, Boot) == 0)
            && (s.bootedAt.Some? ==>
                  exists i: nat :: i < |events| && events[i] == Event(Boot, s.bootedAt.value)
                                   && forall j :: i < j < |events| ==> !events[j].kind.Boot?)
  {
    EmptyLedger(codec);
    LedgerAlwaysLawful("", actions, codec);
    hide ReadLedger, Run, Lawful, PairedShutdowns, Windows, Total;
    var events := ReadLedger(Run("", actions, codec), codec);
    LastBootIs(events);
    if LastBoot(events).Some? {
      var i: nat :| i < |events| && events[i].kind.Boot?;
      CountSees(events, i);
    }
  }

  lemma {:induction false} CountSees(events: seq<Event>, i: nat)
    requires i < |events|
    ensures Count(events, events[i].kind) > 0
  {
    if i < |events| - 1 {
      assert events[..|events| - 1][i] == events[i];
      CountSees(events[..|events| - 1], i);
    }
  }

  // --------------------------------------------------- the clocks of a run

  function When(a: Action): int {
    a.now
  }

  /** No clock reading is earlier than the one before it, nor than `from`. */
  predicate ClocksAscend(actions: seq<Action>, from: int)
    decreases |actions|
  {
    actions == [] || (from <= When(actions[0]) && ClocksAscend(actions[1..], When(actions[0])))
  }

  function LastReading(actions: seq<Action>, from: int): int {
    if actions == [] then from else When(actions[|actions| - 1])
  }

  lemma LaterIsMonotone(events: seq<Event>, from: int, e: Event)
    requires Monotone(events, from) && from <= e.at
    ensures Monotone(events + [e], e.at) && Monotone(events, e.at)
  {
  }

  /** What an action adds bears its own time. */
  lemma ActIsMonotone(body: Bytes, a: Action, codec: Codec<Event>, from: int)
    requires Sound(codec) && Monotone(ReadLedger(body, codec), from) && from <= When(a)
    ensures Monotone(ReadLedger(Act(body, a, codec), codec), When(a))
  {
    hide ReadLedger, Appended;
    var events := ReadLedger(body, codec);
    match a
    case Shutdown(now, cut) =>
      AppendReads(body, Write(Event(CleanShutdown, now), cut), codec);
      LaterIsMonotone(events, from, Event(CleanShutdown, now));
    case Start(now, markerCut, bootCut) =>
      var marker, boot := Event(UncleanRestart, now), Event(Boot, now);
      var marked := Appended(body, Write(marker, markerCut), codec);
      AppendReads(body, Write(marker, markerCut), codec);
      AppendReads(body, Write(boot, bootCut), codec);
      AppendReads(marked, Write(boot, bootCut), codec);
      LaterIsMonotone(events, from, marker);
      LaterIsMonotone(events, from, boot);
      LaterIsMonotone(events + [marker], now, boot);
  }

  /** Nondecreasing clocks over a run make the ledger it reads back nondecreasing. */
  lemma {:induction false} RunIsMonotone(body: Bytes, actions: seq<Action>, codec: Codec<Event>, from: int)
    requires Sound(codec) && Monotone(ReadLedger(body, codec), from) && ClocksAscend(actions, from)
    ensures Monotone(ReadLedger(Run(body, actions, codec), codec), LastReading(actions, from))
    decreases |actions|
  {
    if actions != [] {
      hide Act, ReadLedger, Monotone;
      ActIsMonotone(body, actions[0], codec, from);
      RunIsMonotone(Act(body, actions[0], codec), actions[1..], codec, When(actions[0]));
    }
  }

  /**
   * After any boots, shutdowns and crashes inside an append under nondecreasing clocks, read at any later
   * time: the time since the first event is reported downtime, finished uptime, unaccounted time and the
   * time since the last event; so reported downtime and current uptime never exceed the time there was.
   */
  lemma ReportsFitTheClock(actions: seq<Action>, codec: Codec<Event>, from: int, now: int)
    requires Sound(codec) && ClocksAscend(actions, from) && LastReading(actions, from) <= now
    ensures var events := ReadLedger(Run("", actions, codec), codec);
            var s := Snap(events, now);
            && (events != [] ==>
                  OrZero(s.totalDowntime) + KnownUptime(events) + Unaccounted(events) + (now - events[|events| - 1].at)
                  == now - events[0].at)
            && OrZero(s.totalDowntime) + OrZero(s.currentUptime) <= now - from
  {
    EmptyLedger(codec);
    RunIsMonotone("", actions, codec, from);
    AscendingAfter(actions, from);
    StartsAfter("", actions, codec, from);
    hide ReadLedger, Run, Snap, Windows, Total, KnownUptime, Unaccounted;
    var events := ReadLedger(Run("", actions, codec), codec);
    if events == [] {
      NothingReported(now);
      AscendingEnds(actions, from);
    } else {
      TimeIsConserved(events, now);
    }
  }

  lemma EmptyLedger(codec: Codec<Event>)
    ensures ReadLedger("", codec) == []
  {
    ReadLine("", codec);
  }

  lemma NothingReported(now: int)
    ensures var s := Snap([], now); OrZero(s.totalDowntime) == 0 && OrZero(s.currentUptime) == 0
  {
  }

  lemma {:induction false} AscendingEnds(actions: seq<Action>, from: int)
    requires ClocksAscend(actions, from)
    ensures from <= LastReading(actions, from)
    decreases |actions|
  {
    if actions != [] { AscendingEnds(actions[1..], When(actions[0])); }
  }

  /** Every event of the ledger is at `from` or later. */
  ghost predicate NoneBefore(events: seq<Event>, from: int) {
    forall i :: 0 <= i < |events| ==> from <= events[i].at
  }

  lemma ActAfter(body: Bytes, a: Action, codec: Codec<Event>, from: int)
    requires Sound(codec) && NoneBefore(ReadLedger(body, codec), from) && from <= When(a)
    ensures NoneBefore(ReadLedger(Act(body, a, codec), codec), from)
  {
    hide ReadLedger, Appended;
    match a
    case Shutdown(now, cut) => AppendReads(body, Write(Event(CleanShutdown, now), cut), codec);
    case Start(now, markerCut, bootCut) =>
      var marker, boot := Event(UncleanRestart, now), Event(Boot, now);
      AppendReads(body, Write(marker, markerCut), codec);
      AppendReads(body, Write(boot, bootCut), codec);
      AppendReads(Appended(body, Write(marker, markerCut), codec), Write(boot, bootCut), codec);
  }

  lemma {:induction false} StartsAfter(body: Bytes, actions: seq<Action>, codec: Codec<Event>, from: int)
    requires Sound(codec) && NoneBefore(ReadLedger(body, codec), from)
    requires forall i :: 0 <= i < |actions| ==> from <= When(actions[i])
    ensures NoneBefore(ReadLedger(Run(body, actions, codec), codec), from)
    decreases |actions|
  {
    if actions != [] {
      ActAfter(body, actions[0], codec, from);
      StartsAfter(Act(body, actions[0], codec), actions[1..], codec, from);
    }
  }

  lemma {:induction false} AscendingAfter(actions: seq<Action>, from: int)
    requires ClocksAscend(actions, from)
    ensures forall i :: 0 <= i < |actions| ==> from <= When(actions[i])
    decreases |actions|
  {
    if actions != [] {
      AscendingAfter(actions[1..], When(actions[0]));
      assert forall i :: 1 <= i < |actions| ==> actions[i] == actions[1..][i - 1];
    }
  }

  // -------------------------------------------------------- the operations

  class LifecycleLedger {
    const file: LedgerFile<Event>

    constructor (file: LedgerFile<Event>)
      ensures this.file == file
    {
      this.file := file;
    }

    method RecordBoot(now: int, markerCut: nat, bootCut: nat) returns (ok: bool)
      modifies file
      ensures file.body == Started(old(file.body), now, markerCut, bootCut, file.codec)
      ensures ok <==>
                && (EndsInBoot(ReadLedger(old(file.body), file.codec)) ==> markerCut >= |Frame(Event(UncleanRestart, now), file.codec)|)
                && bootCut >= |Frame(Event(Boot, now), file.codec)|
      ensures Sound(file.codec) && ok ==> EndsInBoot(ReadLedger(file.body, file.codec))
    {
      var prior := file.Read();
      if |prior| > 0 && prior[|prior| - 1].kind.Boot? {
        ok := file.Append(Event(UncleanRestart, now), markerCut);
        if !ok { return; }
      }
      ghost var marked := file.body;
      ok := file.Append(Event(Boot, now), bootCut);
      if Sound(file.codec) { AppendReads(marked, Write(Event(Boot, now), bootCut), file.codec); }
    }

    method RecordCleanShutdown(now: int, cut: nat) returns (ok: bool)
      modifies file
      ensures file.body == Act(old(file.body), Shutdown(now, cut), file.codec)
      ensures ok <==> cut >= |Frame(Event(CleanShutdown, now), file.codec)|
    {
      ok := file.Append(Event(CleanShutdown, now), cut);
    }

    method ReadUptime(now: int) returns (s: Snapshot)
      ensures s == Snap(ReadLedger(file.body, file.codec), now)
    {
      hide ReadLedger, Windows, Total, Count;
      var events := file.Read();
      var windows, total := FindWindows(events);
      var unclean, lastBoot := CountMarkers(events);
      var running := |events| > 0 && events[|events| - 1].kind.Boot?;
      s := Snapshot(if lastBoot.Some? && running then Some(Max0(now - lastBoot.value)) else None,
                    lastBoot, windows, if |windows| > 0 then Some(total) else None, unclean);
    }
  }

  method FindWindows(events: seq<Event>) returns (windows: seq<Window>, total: nat)
    ensures windows == Windows(events) && total == Total(windows)
  {
    windows, total := [], 0;
    if |events| == 0 { return; }
    for n := 1 to |events|
      invariant windows == Windows(events[..n]) && total == Total(windows)
    {
      assert events[..n + 1][..n] == events[..n];
      var shutdown, boot := events[n - 1], events[n];
      if !shutdown.kind.CleanShutdown? || !boot.kind.Boot? { continue; }
      var w := Window(shutdown.at, boot.at, Max0(boot.at - shutdown.at));
      assert (windows + [w])[..|windows|] == windows;
      windows, total := windows + [w], total + w.duration;
    }
    assert events[..|events|] == events;
  }

  method CountMarkers(events: seq<Event>) returns (unclean: nat, lastBoot: Option<int>)
    ensures unclean == Count(events, UncleanRestart) && lastBoot == LastBoot(events)
  {
    unclean, lastBoot := 0, None;
    for n := 0 to |events|
      invariant unclean == Count(events[..n], UncleanRestart) && lastBoot == LastBoot(events[..n])
    {
      assert events[..n + 1][..n] == events[..n];
      if events[n].kind.UncleanRestart? { unclean := unclean + 1; }
      if events[n].kind.Boot? { lastBoot := Some(events[n].at); }
    }
    assert events[..|events|] == events;
  }
}
