/** The integrity score (backend/internal/interview/domain/proctoring.go). Times are nanoseconds since
    the zero time, so that a time is zero exactly when the source's IsZero says so. */
module Proctoring {
  const SECOND: int := 1_000_000_000
  const RESIZE_INTERVAL: int := 30 * SECOND

  datatype EventType = TabSwitch | FocusLost | FocusRegained | Paste | WindowResize | AudioAnomaly | OtherType

  /** `pasted` is the reported length of the pasted text, 0 when there are no details. */
  datatype Event = Event(kind: EventType, at: int, pasted: int)

  datatype Risk = NoRisk | Low | Medium | High

  datatype Summary = Summary(score: int, risk: Risk, tabSwitches: int, awaySeconds: int, pastes: int,
                             suspicious: int, audio: int, flags: seq<Flag>)

  datatype Flag = TabFlag(n: int) | AwayFlag(n: int) | LargePasteFlag(n: int) | MinorPasteFlag(n: int) | AudioFlag(n: int)

  // ----------------------------------------- what each event contributes

  /** How many events of a history satisfy `p`, which may look at all that came before. */
  function Count(events: seq<Event>, p: (seq<Event>, Event) -> bool): nat {
    if events == [] then 0
    else
      var n := |events| - 1;
      Count(events[..n], p) + if p(events[..n], events[n]) then 1 else 0
  }

  function IsTab(before: seq<Event>, e: Event): bool { e.kind == TabSwitch }
  function IsPaste(before: seq<Event>, e: Event): bool { e.kind == Paste }
  function IsSuspicious(before: seq<Event>, e: Event): bool { e.kind == Paste && e.pasted > 150 }
  function IsAudio(before: seq<Event>, e: Event): bool { e.kind == AudioAnomaly }

  /** The time of the last focus loss, zero when there was none. */
  function LastLost(events: seq<Event>): int {
    if events == [] then 0
    else if events[|events| - 1].kind == FocusLost then events[|events| - 1].at
    else LastLost(events[..|events| - 1])
  }

  /** Whole seconds away that a focus_regained event ends. */
  function AwayAt(before: seq<Event>, e: Event): int {
    if e.kind == FocusRegained && LastLost(before) != 0 && e.at > LastLost(before)
    then (e.at - LastLost(before)) / SECOND
    else 0
  }

  function IsLongAway(before: seq<Event>, e: Event): bool { AwayAt(before, e) > 10 }

  function Away(events: seq<Event>): int {
    if events == [] then 0
    else
      var n := |events| - 1;
      Away(events[..n]) + AwayAt(events[..n], events[n])
  }

  /** The time of the last resize that cost points, zero when there was none. */
  function LastCharged(events: seq<Event>): int
    decreases |events|, 0
  {
    if events == [] then 0
    else
      var n := |events| - 1;
      if IsCharged(events[..n], events[n]) then events[n].at else LastCharged(events[..n])
  }

  function IsCharged(before: seq<Event>, e: Event): bool
    decreases |before|, 1
  {
    e.kind == WindowResize && (LastCharged(before) == 0 || e.at - LastCharged(before) >= RESIZE_INTERVAL)
  }

  // ------------------------------------------------------------- the score

  /** The weighted counts. */
  function Deduction(events: seq<Event>): int {
    5 * Count(events, IsTab) + 5 * Count(events, IsLongAway)
    + 15 * Count(events, IsSuspicious) + 3 * (Count(events, IsPaste) - Count(events, IsSuspicious))
    + 15 * Count(events, IsAudio) + 2 * Count(events, IsCharged)
  }

  function Score(events: seq<Event>): int {
    var s := 100 - Deduction(events);
    if s < 0 then 0 else if s > 100 then 100 else s
  }

  function RiskOf(score: int): Risk {
    if score >= 85 then Low else if score >= 60 then Medium else High
  }

  function FlagsOf(tabs: int, away: int, pastes: int, suspicious: int, audio: int): seq<Flag> {
    (if tabs > 0 then [TabFlag(tabs)] else [])
    + (if away > 5 then [AwayFlag(away)] else [])
    + (if suspicious > 0 then [LargePasteFlag(suspicious)] else if pastes > 0 then [MinorPasteFlag(pastes)] else [])
    + (if audio > 0 then [AudioFlag(audio)] else [])
  }

  /** No telemetry: the summary stays at its zero value, a score of 0 and no risk level. */
  const EMPTY := Summary(0, NoRisk, 0, 0, 0, 0, 0, [])

  function Summarize(events: seq<Event>): Summary {
    if events == [] then EMPTY
    else
      var tabs, away, pastes := Count(events, IsTab), Away(events), Count(events, IsPaste);
      var suspicious, audio := Count(events, IsSuspicious), Count(events, IsAudio);
      Summary(Score(events), RiskOf(Score(events)), tabs, away, pastes, suspicious, audio,
              FlagsOf(tabs, away, pastes, suspicious, audio))
  }

  /** What one event takes off. */
  function Cost(before: seq<Event>, e: Event): int {
    match e.kind
    case TabSwitch => 5
    case FocusRegained => if IsLongAway(before, e) then 5 else 0
    case Paste => if e.pasted > 150 then 15 else 3
    case AudioAnomaly => 15
    case WindowResize => if IsCharged(before, e) then 2 else 0
    case _ => 0
  }

  lemma Extend(before: seq<Event>, e: Event, p: (seq<Event>, Event) -> bool)
    ensures Count(before + [e], p) == Count(before, p) + if p(before, e) then 1 else 0
  {
    assert (before + [e])[..|before|] == before;
  }

  lemma DeductionGrows(before: seq<Event>, e: Event)
    ensures Deduction(before + [e]) == Deduction(before) + Cost(before, e)
  {
    Extend(before, e, IsTab);
    Extend(before, e, IsPaste);
    Extend(before, e, IsSuspicious);
    Extend(before, e, IsAudio);
    Extend(before, e, IsLongAway);
    Extend(before, e, IsCharged);
  }

  lemma TrackersGrow(before: seq<Event>, e: Event)
    ensures Away(before + [e]) == Away(before) + AwayAt(before, e)
    ensures LastLost(before + [e]) == if e.kind == FocusLost then e.at else LastLost(before)
    ensures LastCharged(before + [e]) == if IsCharged(before, e) then e.at else LastCharged(before)
  {
    assert (before + [e])[..|before|] == before;
  }

  /** The counters of CalculateProctoringSummary after its loop. */
  datatype Tally = Tally(score: int, tabs: int, away: int, pastes: int, suspicious: int, audio: int)

  function TallyOf(events: seq<Event>): Tally {
    Tally(100 - Deduction(events), Count(events, IsTab), Away(events), Count(events, IsPaste),
          Count(events, IsSuspicious), Count(events, IsAudio))
  }

  lemma TallyGrows(before: seq<Event>, e: Event)
    ensures var t := TallyOf(before);
            TallyOf(before + [e]) == Tally(
              t.score - Cost(before, e),
              t.tabs + if e.kind == TabSwitch then 1 else 0,
              t.away + AwayAt(before, e),
              t.pastes + if e.kind == Paste then 1 else 0,
              t.suspicious + if e.kind == Paste && e.pasted > 150 then 1 else 0,
              t.audio + if e.kind == AudioAnomaly then 1 else 0)
  {
    DeductionGrows(before, e);
    TrackersGrow(before, e);
    Extend(before, e, IsTab);
    Extend(before, e, IsPaste);
    Extend(before, e, IsSuspicious);
    Extend(before, e, IsAudio);
  }

  /** The loop over the events. */
  method TallyEvents(events: seq<Event>) returns (r: Tally)
    ensures r == TallyOf(events)
  {
    var score, tabs, away, pastes, suspicious, audio := 100, 0, 0, 0, 0, 0;
    var lastFocusLost, lastResize := 0, 0;
    for i := 0 to |events|
      invariant lastFocusLost == LastLost(events[..i]) && lastResize == LastCharged(events[..i])
      invariant Tally(score, tabs, away, pastes, suspicious, audio) == TallyOf(events[..i])
    {
      var ev := events[i];
      assert events[..i + 1] == events[..i] + [ev];
      TallyGrows(events[..i], ev);
      TrackersGrow(events[..i], ev);
      match ev.kind {
        case TabSwitch =>
          tabs := tabs + 1;
          score := score - 5;
        case FocusLost =>
          lastFocusLost := ev.at;
        case FocusRegained =>
          if lastFocusLost != 0 && ev.at > lastFocusLost {
            var awaySec := (ev.at - lastFocusLost) / SECOND;
            if awaySec > 0 {
              away := away + awaySec;
              if awaySec > 10 {
                score := score - 5;
              }
            }
          }
        case Paste =>
          pastes := pastes + 1;
          if ev.pasted > 150 {
            suspicious := suspicious + 1;
            score := score - 15;
          } else {
            score := score - 3;
          }
        case AudioAnomaly =>
          audio := audio + 1;
          score := score - 15;
        case WindowResize =>
          if lastResize == 0 || ev.at - lastResize >= RESIZE_INTERVAL {
            lastResize := ev.at;
            score := score - 2;
          }
        case OtherType =>
      }
    }
    assert events[..|events|] == events;
    return Tally(score, tabs, away, pastes, suspicious, audio);
  }

  method RaiseFlags(tabs: int, away: int, pastes: int, suspicious: int, audio: int) returns (flags: seq<Flag>)
    ensures flags == FlagsOf(tabs, away, pastes, suspicious, audio)
  {
    flags := [];
    if tabs > 0 {
      flags := flags + [TabFlag(tabs)];
    }
    if away > 5 {
      flags := flags + [AwayFlag(away)];
    }
    if suspicious > 0 {
      flags := flags + [LargePasteFlag(suspicious)];
    } else if pastes > 0 {
      flags := flags + [MinorPasteFlag(pastes)];
    }
    if audio > 0 {
      flags := flags + [AudioFlag(audio)];
    }
  }

  /** CalculateProctoringSummary. */
  method Calculate(events: seq<Event>) returns (r: Summary)
    ensures r == Summarize(events)
  {
    if |events| == 0 {
      return EMPTY;
    }
    var tally := TallyEvents(events);
    var Tally(score, tabs, away, pastes, suspicious, audio) := tally;
    var flags := RaiseFlags(tabs, away, pastes, suspicious, audio);
    if score < 0 {
      score := 0;
    }
    if score > 100 {
      score := 100;
    }
    var risk := High;
    if score >= 85 {
      risk := Low;
    } else if score >= 60 {
      risk := Medium;
    }
    return Summary(score, risk, tabs, away, pastes, suspicious, audio, flags);
  }

  lemma {:induction false} SuspiciousArePastes(events: seq<Event>)
    ensures Count(events, IsSuspicious) <= Count(events, IsPaste)
  {
    if events != [] {
      SuspiciousArePastes(events[..|events| - 1]);
    }
  }

  /** More telemetry never raises the score, except for the very first event: an empty history scores
      0, not 100. */
  lemma EventsNeverRaiseTheScore(events: seq<Event>, e: Event)
    ensures Score(events + [e]) <= Score(events)
    ensures Summarize(events + [e]).score <= Summarize(events).score <==> events != []
  {
    assert (events + [e])[..|events|] == events;
    SuspiciousArePastes(events);
    if events == [] {
      assert events + [e] == [e];
    }
  }

  lemma Counted(events: seq<Event>)
    ensures Deduction(events) >= 0 && Score(events) == if Deduction(events) > 100 then 0 else 100 - Deduction(events)
  {
    SuspiciousArePastes(events);
  }

  /** The figures of the summary: the score is what is left of 100, down to 0, and each counter counts its
      events. */
  lemma SummaryCounts(events: seq<Event>)
    requires events != []
    ensures var r := Summarize(events);
            && r.score == (if Deduction(events) > 100 then 0 else 100 - Deduction(events)) && 0 <= r.score <= 100
            && r.tabSwitches == Count(events, IsTab) && r.pastes == Count(events, IsPaste)
            && 0 <= r.suspicious == Count(events, IsSuspicious) <= r.pastes
            && r.audio == Count(events, IsAudio) && r.awaySeconds == Away(events)
  {
    Counted(events);
    SuspiciousArePastes(events);
  }

  /** The risk tier by what was taken off: at most 15 is low, at most 40 medium, more is high; without any
      telemetry there is no tier. */
  lemma RiskByDeduction(events: seq<Event>)
    ensures var risk := Summarize(events).risk;
            && (risk == NoRisk <==> events == [])
            && (risk == Low <==> events != [] && Deduction(events) <= 15)
            && (risk == Medium <==> events != [] && 15 < Deduction(events) <= 40)
            && (risk == High <==> events != [] && Deduction(events) > 40)
  {
    Counted(events);
  }

  /** The counts a flag reports, and whether they call for it. */
  predicate Called(f: Flag, tabs: int, away: int, pastes: int, suspicious: int, audio: int) {
    match f
    case TabFlag(n) => n == tabs && n > 0
    case AwayFlag(n) => n == away && n > 5
    case LargePasteFlag(n) => n == suspicious && n > 0
    case MinorPasteFlag(n) => n == pastes && n > 0 && suspicious <= 0
    case AudioFlag(n) => n == audio && n > 0
  }

  lemma FlagsAreCalled(f: Flag, tabs: int, away: int, pastes: int, suspicious: int, audio: int)
    ensures f in FlagsOf(tabs, away, pastes, suspicious, audio) <==> Called(f, tabs, away, pastes, suspicious, audio)
  {}

  /** The summary raises exactly the flags its counts call for. */
  lemma FlagsExactly(events: seq<Event>, f: Flag)
    ensures f in Summarize(events).flags <==>
            Called(f, Count(events, IsTab), Away(events), Count(events, IsPaste), Count(events, IsSuspicious),
                   Count(events, IsAudio))
  {
    if events != [] {
      FlagsAreCalled(f, Count(events, IsTab), Away(events), Count(events, IsPaste), Count(events, IsSuspicious),
                     Count(events, IsAudio));
    }
  }

  /** The whole seconds from the last loss of focus to a return. */
  lemma {:induction false} LastLostAcross(before: seq<Event>, lost: Event, quiet: seq<Event>)
    requires lost.kind == FocusLost && forall e | e in quiet :: e.kind != FocusLost
    ensures LastLost(before + [lost] + quiet) == lost.at
  {
    var all := before + [lost] + quiet;
    if quiet == [] {
      TrackersGrow(before, lost);
      assert all == before + [lost];
    } else {
      var n := |quiet| - 1;
      LastLostAcross(before, lost, quiet[..n]);
      TrackersGrow(before + [lost] + quiet[..n], quiet[n]);
      assert all == before + [lost] + quiet[..n] + [quiet[n]];
    }
  }

  /** An absence: with no other loss of focus between, a return adds the whole seconds since the loss, and
      takes 5 points off exactly when they are more than 10. The loss is not forgotten: a second return
      counts the same absence again, up to itself. */
  lemma AbsenceCounts(before: seq<Event>, lost: Event, quiet: seq<Event>, back: Event)
    requires lost.kind == FocusLost && back.kind == FocusRegained && lost.at != 0
    requires forall e | e in quiet :: e.kind != FocusLost
    ensures var seen := before + [lost] + quiet;
            var away := if back.at > lost.at then (back.at - lost.at) / SECOND else 0;
            && Away(seen + [back]) == Away(seen) + away
            && Deduction(seen + [back]) == Deduction(seen) + if away > 10 then 5 else 0
  {
    var seen := before + [lost] + quiet;
    LastLostAcross(before, lost, quiet);
    TrackersGrow(seen, back);
    DeductionGrows(seen, back);
  }

  // ------------------------------------- the rate limit is a maximum choice

  predicate Chronological(events: seq<Event>) {
    && (forall i, j | 0 <= i < j < |events| :: events[i].at <= events[j].at)
    && (forall i | 0 <= i < |events| :: events[i].at != 0)
  }

  /** Positions of resizes, pairwise at least the interval apart. */
  ghost predicate Spaced(events: seq<Event>, s: set<nat>) {
    && (forall i | i in s :: i < |events| && events[i].kind == WindowResize)
    && (forall i, j | i in s && j in s && i < j :: events[j].at - events[i].at >= RESIZE_INTERVAL)
  }

  function ChargedSet(events: seq<Event>): set<nat> {
    set i: nat | i < |events| && IsCharged(events[..i], events[i])
  }

  /** The last charged position, or -1. */
  function LastPick(events: seq<Event>): int {
    if events == [] then -1
    else
      var n := |events| - 1;
      if IsCharged(events[..n], events[n]) then n else LastPick(events[..n])
  }

  lemma ChargedPrefix(events: seq<Event>, n: nat)
    requires n <= |events|
    ensures forall i: nat | i < n :: i in ChargedSet(events[..n]) <==> i in ChargedSet(events)
  {
    forall i: nat | i < n ensures events[..n][..i] == events[..i] {}
  }

  lemma {:induction false} LastPickIsLastCharged(events: seq<Event>)
    requires Chronological(events)
    ensures -1 <= LastPick(events) < |events|
    ensures LastPick(events) == -1 <==> LastCharged(events) == 0
    ensures LastPick(events) >= 0 ==>
              && events[LastPick(events)].at == LastCharged(events)
              && LastPick(events) in ChargedSet(events)
    ensures forall i | i in ChargedSet(events) :: i <= LastPick(events)
  {
    if events != [] {
      var n := |events| - 1;
      LastPickIsLastCharged(events[..n]);
      ChargedPrefix(events, n);
    }
  }

  /** Every resize is charged or comes within the interval after the last charged one. */
  function Pick(events: seq<Event>, i: nat): nat {
    if i < |events| && LastPick(events[..i + 1]) >= 0 then LastPick(events[..i + 1]) else 0
  }

  lemma PickCovers(events: seq<Event>, i: nat)
    requires Chronological(events) && i < |events| && events[i].kind == WindowResize
    ensures Pick(events, i) <= i && Pick(events, i) in ChargedSet(events)
    ensures 0 <= events[i].at - events[Pick(events, i)].at < RESIZE_INTERVAL
  {
    LastPickIsLastCharged(events[..i]);
    assert events[..i + 1][..i] == events[..i];
    var g := Pick(events, i);
    if g < i {
      assert events[..i][..g] == events[..g];
    }
  }

  lemma {:induction false} InjectionBound(s: set<nat>, f: map<nat, nat>, c: set<nat>)
    requires s <= f.Keys && forall i | i in s :: f[i] in c
    requires forall i, j | i in s && j in s && i != j :: f[i] != f[j]
    ensures |s| <= |c|
    decreases s
  {
    if s != {} {
      var x :| x in s;
      InjectionBound(s - {x}, f, c - {f[x]});
    }
  }

  lemma {:induction false} ChargedCount(events: seq<Event>)
    ensures Count(events, IsCharged) == |ChargedSet(events)|
  {
    if events != [] {
      var n := |events| - 1;
      ChargedCount(events[..n]);
      ChargedPrefix(events, n);
      assert ChargedSet(events) == ChargedSet(events[..n]) + if IsCharged(events[..n], events[n]) then {n} else {};
    }
  }

  lemma ChargedIsSpaced(events: seq<Event>)
    requires Chronological(events)
    ensures Spaced(events, ChargedSet(events))
  {
    forall i, j | i in ChargedSet(events) && j in ChargedSet(events) && i < j
      ensures events[j].at - events[i].at >= RESIZE_INTERVAL
    {
      LastPickIsLastCharged(events[..j]);
      assert events[..j][..i] == events[..i];
      assert i in ChargedSet(events[..j]);
    }
  }

  /** The greedy rate limit is optimal: on chronological events the resizes that cost points are
      pairwise at least 30 s apart, and no other such choice of resizes is larger. */
  lemma GreedyIsOptimal(events: seq<Event>, s: set<nat>)
    requires Chronological(events) && Spaced(events, s)
    ensures Spaced(events, ChargedSet(events)) && |ChargedSet(events)| == Count(events, IsCharged)
    ensures |s| <= Count(events, IsCharged)
  {
    ChargedIsSpaced(events);
    ChargedCount(events);
    PicksAreDistinct(events, s);
  }

  lemma PicksAreDistinct(events: seq<Event>, s: set<nat>)
    requires Chronological(events) && Spaced(events, s)
    ensures |s| <= |ChargedSet(events)|
  {
    var f := map i | i in s :: Pick(events, i);
    forall i | i in s ensures f[i] in ChargedSet(events) {
      PickCovers(events, i);
    }
    forall i, j | i in s && j in s && i != j ensures f[i] != f[j] {
      PickCovers(events, i);
      PickCovers(events, j);
    }
    InjectionBound(s, f, ChargedSet(events));
  }

  /** One charge per 30 s of telemetry, and one more. */
  lemma {:induction false} ChargesPerInterval(events: seq<Event>)
    requires Chronological(events) && events != []
    ensures Count(events, IsCharged) <= 1 + (events[|events| - 1].at - events[0].at) / RESIZE_INTERVAL
  {
    ChargesFit(events);
    LastPickIsLastCharged(events);
    var k := Count(events, IsCharged);
    if k > 0 {
      assert (k - 1) * RESIZE_INTERVAL <= events[|events| - 1].at - events[0].at;
    }
  }

  lemma {:induction false} ChargesFit(events: seq<Event>)
    requires Chronological(events) && events != []
    ensures Count(events, IsCharged) > 0 ==>
              LastCharged(events) != 0
              && (Count(events, IsCharged) - 1) * RESIZE_INTERVAL <= LastCharged(events) - events[0].at
    ensures Count(events, IsCharged) == 0 ==> LastCharged(events) == 0
  {
    var n := |events| - 1;
    if n > 0 {
      ChargesFit(events[..n]);
    } else {
      assert events[..0] == [];
    }
  }
}
