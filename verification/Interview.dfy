/** The interview aggregate (backend/internal/interview/domain/interview.go): the topic cursor,
    multi-turn topics, in-place probe insertion and the status machine. Times are in nanoseconds
    and the clock is passed in. */
module Interview {
  import opened Prelude

  const MAX_TURNS := 3
  const MAX_DURATION: int := 30 * 60 * SECOND
  const SECOND: int := 1_000_000_000

  datatype Status = Pending | InProgress | Completed | Expired

  datatype Question = Question(idx: int, content: string, category: string, skill: string, isProbe: bool)

  /** The action a client sends, or a stored row holds; old rows have none. */
  datatype Action = NoAction | Reply | Advance | Other(text: string)

  datatype Answer = Answer(idx: int, content: string, at: int, action: Action, turn: int)

  predicate IsSpace(c: char) {
    c in " \t\n\r" || c as int in {0x0b, 0x0c, 0x85, 0xa0}
  }

  predicate Blank(s: string) {
    s == "" || (IsSpace(s[0]) && Blank(s[1..]))
  }

  /** The answers given on topic `k`, in the order they were given. */
  function TopicAnswers(answers: seq<Answer>, k: int): seq<Answer> {
    if answers == [] then []
    else
      var last := answers[|answers| - 1];
      TopicAnswers(answers[..|answers| - 1], k) + if last.idx == k then [last] else []
  }

  /** The part of the aggregate that turns touch. */
  datatype State = State(status: Status, questions: seq<Question>, answers: seq<Answer>, cursor: int)

  datatype Code = NotInProgress | AnswerEmpty | NoActiveQuestion

  datatype Outcome =
    | Rejected(code: Code, finished: bool)
    | Recorded(next: Option<Question>, finished: bool, turn: int)

  function Next(s: State): Option<Question>
    requires s.cursor >= 0
  {
    if s.status == InProgress && s.cursor < |s.questions| then Some(s.questions[s.cursor]) else None
  }

  function Dialogue(s: State, now: int, content: string, action: Action): (State, Outcome)
    requires s.cursor >= 0
  {
    if s.status != InProgress then (s, Rejected(NotInProgress, false))
    else if Blank(content) then (s, Rejected(AnswerEmpty, false))
    else if s.cursor >= |s.questions| then (s, Rejected(NoActiveQuestion, true))
    else
      var topic := s.cursor + 1;
      var turn := |TopicAnswers(s.answers, topic)| + 1;
      var act := if action == Reply then Reply else Advance;
      var finished := act == Advance || turn >= MAX_TURNS;
      var s' := s.(answers := s.answers + [Answer(topic, content, now, act, turn)],
                   cursor := if finished then topic else s.cursor);
      (s', Recorded(Next(s'), finished, turn))
  }

  /** Prefix, probe, and the old suffix renumbered. */
  function Inserted(questions: seq<Question>, at: nat, probe: Question): seq<Question>
    requires at <= |questions|
  {
    questions[..at] + [probe]
    + seq(|questions| - at, i requires 0 <= i < |questions| - at => questions[at + i].(idx := at + i + 2))
  }

  /** Growing by one, shifting the suffix right by one and writing the new element inserts it. */
  lemma ShiftedRight(before: seq<Question>, at: nat, blank: Question, q: Question)
    requires at <= |before|
    ensures var grown := before + [blank];
            (grown[..at + 1] + grown[at..|grown| - 1])[at := q] == before[..at] + [q] + before[at..]
  {}

  lemma RenumberedIsInserted(before: seq<Question>, at: nat, q: Question, after: seq<Question>)
    requires at <= |before| && |after| == |before| + 1
    requires forall j | 0 <= j < |after| ::
               after[j] == if j < at then before[j] else if j == at then q else before[j - 1].(idx := j + 1)
    ensures after == Inserted(before, at, q)
  {
    var inserted := Inserted(before, at, q);
    assert |inserted| == |after|;
    forall j | 0 <= j < |after| ensures after[j] == inserted[j] {
      if j < at {
        assert inserted[j] == before[..at][j];
      } else if j == at {
        assert inserted[j] == q;
      } else {
        assert inserted[j] == before[at + (j - at - 1)].(idx := j + 1);
        assert after[j] == before[j - 1].(idx := j + 1);
      }
    }
  }

  function Probed(s: State, currentIdx: int, content: string, category: string, skill: string): (State, Option<Question>) {
    if s.status != InProgress || currentIdx < 0 || currentIdx > |s.questions| then (s, None)
    else
      var probe := Question(currentIdx + 1, content, category, skill, true);
      (s.(questions := Inserted(s.questions, currentIdx, probe)), Some(probe))
  }

  class Interview {
    var status: Status
    var questions: seq<Question>
    var answers: seq<Answer>
    var lastQuestionIdx: int
    var startedAt: Option<int>
    var completedAt: Option<int>
    var expiresAt: Option<int>
    var lastActivity: int

    function Model(): State
      reads this
    {
      State(status, questions, answers, lastQuestionIdx)
    }

    constructor (questions: seq<Question>, expiresAt: Option<int>, now: int)
      ensures Model() == State(Pending, questions, [], 0)
      ensures startedAt == None && completedAt == None && this.expiresAt == expiresAt
    {
      status, this.questions, answers, lastQuestionIdx := Pending, questions, [], 0;
      startedAt, completedAt, this.expiresAt, lastActivity := None, None, expiresAt, now;
    }

    /** An interview needs at least one question. */
    static method NewInterview(questions: seq<Question>, expiresAt: int, now: int) returns (iv: Interview?)
      ensures iv == null <==> questions == []
      ensures iv != null ==>
                fresh(iv) && iv.Model() == Fresh(questions) && iv.startedAt == None && iv.expiresAt == Some(expiresAt)
    {
      if questions == [] {
        return null;
      }
      iv := new Interview(questions, Some(expiresAt), now);
    }

    method Start(now: int) returns (ok: bool)
      modifies this
      ensures ok <==> old(status) in {Pending, InProgress}
      ensures Model() == old(Model()).(status := if ok then InProgress else old(status))
      ensures startedAt == if old(status) == Pending then Some(now) else old(startedAt)
      ensures expiresAt == old(expiresAt) && completedAt == old(completedAt)
    {
      match status {
        case Pending =>
          status, startedAt, lastActivity := InProgress, Some(now), now;
          return true;
        case InProgress => return true;
        case _ => return false;
      }
    }

    method TopicTurnCount(idx: int) returns (count: nat)
      ensures count == |TopicAnswers(answers, idx)|
    {
      count := 0;
      for i := 0 to |answers|
        invariant count == |TopicAnswers(answers[..i], idx)|
      {
        assert answers[..i + 1][..i] == answers[..i];
        if answers[i].idx == idx {
          count := count + 1;
        }
      }
      assert answers[..|answers|] == answers;
    }

    method NextQuestion() returns (q: Option<Question>)
      requires lastQuestionIdx >= 0
      ensures q == Next(Model())
    {
      if status != InProgress {
        return None;
      }
      if lastQuestionIdx >= |questions| {
        return None;
      }
      return Some(questions[lastQuestionIdx]);
    }

    method ProcessTopicDialogue(now: int, content: string, action: Action) returns (r: Outcome)
      requires lastQuestionIdx >= 0
      modifies this
      ensures (Model(), r) == Dialogue(old(Model()), now, content, action)
      ensures startedAt == old(startedAt) && completedAt == old(completedAt) && expiresAt == old(expiresAt)
    {
      if status != InProgress {
        return Rejected(NotInProgress, false);
      }
      if Blank(content) {
        return Rejected(AnswerEmpty, false);
      }
      if lastQuestionIdx >= |questions| {
        return Rejected(NoActiveQuestion, true);
      }
      var currentIdx := lastQuestionIdx + 1;
      var count := TopicTurnCount(currentIdx);
      var turn := count + 1;
      var act := action;
      if act != Reply {
        act := Advance;
      }
      answers := answers + [Answer(currentIdx, content, now, act, turn)];
      lastActivity := now;
      var finished := act == Advance || turn >= MAX_TURNS;
      if finished {
        lastQuestionIdx := currentIdx;
      }
      var next := NextQuestion();
      return Recorded(next, finished, turn);
    }

    /** Grow by one, shift the suffix right by one, write the probe, renumber in place. */
    method InsertProbeAfter(currentIdx: int, content: string, category: string, skill: string) returns (r: Option<Question>)
      modifies this
      ensures (Model(), r) == Probed(old(Model()), currentIdx, content, category, skill)
      ensures startedAt == old(startedAt) && completedAt == old(completedAt) && expiresAt == old(expiresAt)
    {
      if status != InProgress || currentIdx < 0 || currentIdx > |questions| {
        return None;
      }
      var insertAt := currentIdx;
      var q := Question(insertAt + 1, content, category, skill, true);
      ghost var before := questions;
      var blank := Question(0, "", "", "", false);
      ShiftedRight(before, insertAt, blank, q);
      questions := questions + [blank];
      questions := questions[..insertAt + 1] + questions[insertAt..|questions| - 1];
      questions := questions[insertAt := q];
      Renumber(insertAt + 1);
      RenumberedIsInserted(before, insertAt, q, questions);
      return Some(q);
    }

    /** The renumbering loop: every question from position `lo` on gets its position plus one. */
    method Renumber(lo: nat)
      requires lo <= |questions|
      modifies this`questions
      ensures |questions| == |old(questions)|
      ensures forall j | 0 <= j < |questions| ::
                questions[j] == if j < lo then old(questions)[j] else old(questions)[j].(idx := j + 1)
    {
      for i := lo to |questions|
        invariant |questions| == |old(questions)|
        invariant forall j | 0 <= j < |questions| ::
                    questions[j] == if lo <= j < i then old(questions)[j].(idx := j + 1) else old(questions)[j]
      {
        questions := questions[i := questions[i].(idx := i + 1)];
      }
    }

    method Complete(now: int) returns (ok: bool)
      modifies this
      ensures ok <==> old(status) == InProgress
      ensures Model() == old(Model()).(status := if ok then Completed else old(status))
      ensures completedAt == if ok then Some(now) else old(completedAt)
      ensures startedAt == old(startedAt) && expiresAt == old(expiresAt)
    {
      if status == Expired || status == Completed {
        return false;
      }
      if status != InProgress {
        return false;
      }
      status, completedAt := Completed, Some(now);
      return true;
    }

    method ExpireIfNeeded(now: int)
      modifies this
      ensures Model() == old(Model()).(
                status := if Overdue(old(status), old(startedAt), old(expiresAt), now) then Expired else old(status))
      ensures startedAt == old(startedAt) && completedAt == old(completedAt) && expiresAt == old(expiresAt)
    {
      if status != Completed && status != Expired {
        if expiresAt.Some? && now > expiresAt.value {
          status := Expired;
          return;
        }
        if startedAt.Some? && now - startedAt.value >= MAX_DURATION {
          status := Expired;
        }
      }
    }

    method SessionRemaining(now: int) returns (seconds: int)
      ensures seconds == Remaining(startedAt, now)
    {
      if startedAt == None {
        return MAX_DURATION / SECOND;
      }
      var remaining := MAX_DURATION - (now - startedAt.value);
      if remaining <= 0 {
        return 0;
      }
      return remaining / SECOND;
    }
  }

  predicate Overdue(status: Status, startedAt: Option<int>, expiresAt: Option<int>, now: int) {
    status in {Pending, InProgress}
    && ((expiresAt.Some? && now > expiresAt.value) || (startedAt.Some? && now - startedAt.value >= MAX_DURATION))
  }

  function Remaining(startedAt: Option<int>, now: int): int {
    if startedAt == None then MAX_DURATION / SECOND
    else if now - startedAt.value >= MAX_DURATION then 0
    else (MAX_DURATION - (now - startedAt.value)) / SECOND
  }

  // ------------------------------------------------------------------- runs

  datatype Event =
    | Begin
    | Turn(now: int, content: string, action: Action)
    | Probe(currentIdx: int, content: string, category: string, skill: string)
    | Finish
    | Lapse // a deadline passed

  function Handle(s: State, e: Event): State
    requires s.cursor >= 0
  {
    match e
    case Begin => if s.status == Pending then s.(status := InProgress) else s
    case Turn(now, content, action) => Dialogue(s, now, content, action).0
    case Probe(currentIdx, content, category, skill) => Probed(s, currentIdx, content, category, skill).0
    case Finish => if s.status == InProgress then s.(status := Completed) else s
    case Lapse => if s.status in {Pending, InProgress} then s.(status := Expired) else s
  }

  function Play(s: State, events: seq<Event>): (r: State)
    requires s.cursor >= 0
    ensures r.cursor >= 0
    decreases |events|
  {
    if events == [] then s else Play(Handle(s, events[0]), events[1..])
  }

  predicate Numbered(questions: seq<Question>) {
    forall i | 0 <= i < |questions| :: questions[i].idx == i + 1
  }

  /** Turns count up from 1 and every turn but a closing one is a reply. */
  predicate Turns(topic: seq<Answer>) {
    && (forall i | 0 <= i < |topic| :: topic[i].turn == i + 1 && topic[i].action in {Reply, Advance})
    && (forall i | 0 <= i < |topic| - 1 :: topic[i].action == Reply)
  }

  predicate ClosedTopic(topic: seq<Answer>) {
    1 <= |topic| <= MAX_TURNS && Turns(topic) && (topic[|topic| - 1].action == Advance || |topic| == MAX_TURNS)
  }

  predicate OpenTopic(topic: seq<Answer>) {
    |topic| < MAX_TURNS && Turns(topic) && forall i | 0 <= i < |topic| :: topic[i].action == Reply
  }

  predicate Ascending(answers: seq<Answer>) {
    forall i, j | 0 <= i < j < |answers| :: answers[i].idx <= answers[j].idx
  }

  /** Answers that can still be taken. */
  function Capacity(s: State): int {
    MAX_TURNS * (|s.questions| - s.cursor) - |TopicAnswers(s.answers, s.cursor + 1)|
  }

  ghost predicate Ordered(s: State) {
    && 0 <= s.cursor <= |s.questions|
    && Ascending(s.answers)
    && forall a | a in s.answers :: 1 <= a.idx <= |s.questions| && a.idx <= s.cursor + 1
  }

  /** Each of the first `cursor` topics is closed. */
  ghost predicate ClosedUpTo(answers: seq<Answer>, cursor: int) {
    forall k | 1 <= k <= cursor :: ClosedTopic(TopicAnswers(answers, k))
  }

  ghost predicate Topics(s: State) {
    && ClosedUpTo(s.answers, s.cursor)
    && OpenTopic(TopicAnswers(s.answers, s.cursor + 1))
  }

  ghost predicate Shape(s: State) {
    Ordered(s) && Topics(s) && |s.answers| + Capacity(s) <= MAX_TURNS * |s.questions|
  }

  lemma {:induction false} NoAnswersYet(answers: seq<Answer>, k: int)
    requires forall a | a in answers :: a.idx != k
    ensures TopicAnswers(answers, k) == []
  {
    if answers != [] {
      NoAnswersYet(answers[..|answers| - 1], k);
    }
  }

  lemma AnswerAppended(answers: seq<Answer>, a: Answer, k: int)
    ensures TopicAnswers(answers + [a], k) == TopicAnswers(answers, k) + if a.idx == k then [a] else []
  {
    assert (answers + [a])[..|answers|] == answers;
  }

  lemma TopicExtended(topic: seq<Answer>, a: Answer)
    requires OpenTopic(topic) && a.turn == |topic| + 1 && a.action in {Reply, Advance}
    ensures if a.action == Advance || a.turn >= MAX_TURNS then ClosedTopic(topic + [a]) else OpenTopic(topic + [a])
  {}

  lemma ClosedTopicsStay(answers: seq<Answer>, a: Answer, cursor: int)
    requires a.idx == cursor + 1 && ClosedUpTo(answers, cursor)
    ensures ClosedUpTo(answers + [a], cursor)
  {
    forall k | 1 <= k <= cursor ensures ClosedTopic(TopicAnswers(answers + [a], k)) {
      AnswerAppended(answers, a, k);
    }
  }

  /** `a` is the next turn of the open topic, and finishes it or not. */
  ghost predicate NextTurn(answers: seq<Answer>, a: Answer, cursor: int, finished: bool) {
    && a.idx == cursor + 1 && a.turn == |TopicAnswers(answers, cursor + 1)| + 1 && a.action in {Reply, Advance}
    && (finished <==> a.action == Advance || a.turn >= MAX_TURNS)
  }

  /** The topics once `a` closes the open topic, or continues it. */
  lemma TopicsAfter(answers: seq<Answer>, a: Answer, cursor: int, finished: bool)
    requires NextTurn(answers, a, cursor, finished) && forall b | b in answers :: b.idx <= cursor + 1
    requires ClosedUpTo(answers, cursor) && OpenTopic(TopicAnswers(answers, cursor + 1))
    ensures var cursor' := if finished then cursor + 1 else cursor;
            && ClosedUpTo(answers + [a], cursor')
            && OpenTopic(TopicAnswers(answers + [a], cursor' + 1))
            && |TopicAnswers(answers + [a], cursor' + 1)| == if finished then 0 else |TopicAnswers(answers, cursor + 1)| + 1
  {
    ClosedTopicsStay(answers, a, cursor);
    TurnExtends(answers, a, cursor, finished);
    if finished {
      TopicOpens(answers, a, cursor);
    }
  }

  lemma TurnExtends(answers: seq<Answer>, a: Answer, cursor: int, finished: bool)
    requires NextTurn(answers, a, cursor, finished) && OpenTopic(TopicAnswers(answers, cursor + 1))
    ensures var topic := TopicAnswers(answers + [a], cursor + 1);
            && |topic| == |TopicAnswers(answers, cursor + 1)| + 1
            && if finished then ClosedTopic(topic) else OpenTopic(topic)
  {
    AnswerAppended(answers, a, cursor + 1);
    TopicExtended(TopicAnswers(answers, cursor + 1), a);
  }

  /** The topic after the one just closed has no answers. */
  lemma TopicOpens(answers: seq<Answer>, a: Answer, cursor: int)
    requires a.idx == cursor + 1 && forall b | b in answers :: b.idx <= cursor + 1
    ensures TopicAnswers(answers + [a], cursor + 2) == []
  {
    NoAnswersYet(answers, cursor + 2);
    AnswerAppended(answers, a, cursor + 2);
  }

  lemma TurnKeepsTopics(s: State, now: int, content: string, action: Action)
    requires Shape(s) && Dialogue(s, now, content, action).1.Recorded?
    ensures var s' := Dialogue(s, now, content, action).0;
            && Topics(s')
            && |TopicAnswers(s'.answers, s'.cursor + 1)|
               == if s'.cursor == s.cursor then |TopicAnswers(s.answers, s.cursor + 1)| + 1 else 0
  {
    RecordedTurn(s, now, content, action);
    RecordingKeepsTopics(s, Dialogue(s, now, content, action).0);
  }

  lemma RecordingKeepsTopics(s: State, s': State)
    requires Ordered(s) && Topics(s) && |s'.answers| == |s.answers| + 1
    requires s'.answers == s.answers + [s'.answers[|s.answers|]]
    requires s'.cursor == if s'.cursor != s.cursor then s.cursor + 1 else s.cursor
    requires NextTurn(s.answers, s'.answers[|s.answers|], s.cursor, s'.cursor != s.cursor)
    ensures Topics(s')
    ensures |TopicAnswers(s'.answers, s'.cursor + 1)|
         == if s'.cursor == s.cursor then |TopicAnswers(s.answers, s.cursor + 1)| + 1 else 0
  {
    TopicsAfter(s.answers, s'.answers[|s.answers|], s.cursor, s'.cursor != s.cursor);
  }

  /** What an accepted turn does. */
  lemma RecordedTurn(s: State, now: int, content: string, action: Action)
    requires s.cursor >= 0 && Dialogue(s, now, content, action).1.Recorded?
    ensures var s' := Dialogue(s, now, content, action).0;
            && |s'.answers| == |s.answers| + 1 && s'.answers == s.answers + [s'.answers[|s.answers|]]
            && s'.questions == s.questions && s.cursor < |s.questions|
            && s'.cursor == (if s'.cursor != s.cursor then s.cursor + 1 else s.cursor)
            && NextTurn(s.answers, s'.answers[|s.answers|], s.cursor, s'.cursor != s.cursor)
  {}

  lemma TurnSpendsCapacity(s: State, now: int, content: string, action: Action)
    requires Shape(s) && Dialogue(s, now, content, action).1.Recorded?
    ensures var s' := Dialogue(s, now, content, action).0;
            |s'.answers| == |s.answers| + 1 && Capacity(s') < Capacity(s) && |s'.questions| == |s.questions|
  {
    RecordedTurn(s, now, content, action);
    TurnKeepsTopics(s, now, content, action);
  }

  lemma TurnKeepsOrder(s: State, now: int, content: string, action: Action)
    requires Ordered(s)
    ensures Ordered(Dialogue(s, now, content, action).0)
  {}

  lemma TurnKeepsShape(s: State, now: int, content: string, action: Action)
    requires Shape(s)
    ensures Shape(Dialogue(s, now, content, action).0)
    ensures var (s', r) := Dialogue(s, now, content, action);
            r.Recorded? ==> |s'.answers| == |s.answers| + 1 && Capacity(s') < Capacity(s)
  {
    if Dialogue(s, now, content, action).1.Recorded? {
      TurnKeepsOrder(s, now, content, action);
      TurnKeepsTopics(s, now, content, action);
      TurnSpendsCapacity(s, now, content, action);
    } else {
      assert Dialogue(s, now, content, action).0 == s;
    }
  }

  lemma ProbeKeepsShape(s: State, currentIdx: int, content: string, category: string, skill: string)
    requires Shape(s)
    ensures Shape(Probed(s, currentIdx, content, category, skill).0)
  {}

  lemma {:induction false} PlayKeepsShape(s: State, events: seq<Event>)
    requires Shape(s)
    ensures Shape(Play(s, events))
    decreases |events|
  {
    if events != [] {
      match events[0] {
        case Turn(now, content, action) => TurnKeepsShape(s, now, content, action);
        case Probe(currentIdx, content, category, skill) => ProbeKeepsShape(s, currentIdx, content, category, skill);
        case _ =>
      }
      PlayKeepsShape(Handle(s, events[0]), events[1..]);
    }
  }

  function Fresh(questions: seq<Question>): State { State(Pending, questions, [], 0) }

  /** The transcript shape in every reachable state, whatever turns, probes and status changes came
      before; in particular n questions and p probes never hold more than 3(n + p) answers. */
  lemma TranscriptShape(questions: seq<Question>, events: seq<Event>)
    ensures var s := Play(Fresh(questions), events);
            && 0 <= s.cursor <= |s.questions|
            && (Numbered(questions) ==> Numbered(s.questions))
            && Ascending(s.answers)
            && ClosedUpTo(s.answers, s.cursor)
            && OpenTopic(TopicAnswers(s.answers, s.cursor + 1))
            && (forall k | k <= 0 || k > s.cursor + 1 :: TopicAnswers(s.answers, k) == [])
            && |s.answers| <= MAX_TURNS * |s.questions|
            && |s.questions| <= |questions| + Probes(events)
  {
    var s := Play(Fresh(questions), events);
    assert Shape(Fresh(questions));
    PlayKeepsShape(Fresh(questions), events);
    QuestionsAdded(Fresh(questions), events);
    ShapeBounds(s);
    if Numbered(questions) {
      PlayKeepsNumbering(Fresh(questions), events);
    }
  }

  lemma ShapeBounds(s: State)
    requires Shape(s)
    ensures forall k | k <= 0 || k > s.cursor + 1 :: TopicAnswers(s.answers, k) == []
    ensures |s.answers| <= MAX_TURNS * |s.questions|
  {
    forall k | k <= 0 || k > s.cursor + 1 ensures TopicAnswers(s.answers, k) == [] {
      NoAnswersYet(s.answers, k);
    }
    if s.cursor == |s.questions| {
      NoAnswersYet(s.answers, s.cursor + 1);
    }
  }

  lemma {:induction false} PlayKeepsNumbering(s: State, events: seq<Event>)
    requires s.cursor >= 0 && Numbered(s.questions)
    ensures Numbered(Play(s, events).questions)
    decreases |events|
  {
    if events != [] {
      PlayKeepsNumbering(Handle(s, events[0]), events[1..]);
    }
  }

  function Probes(events: seq<Event>): nat {
    if events == [] then 0 else (if events[0].Probe? then 1 else 0) + Probes(events[1..])
  }

  lemma {:induction false} QuestionsAdded(s: State, events: seq<Event>)
    requires s.cursor >= 0
    ensures |s.questions| <= |Play(s, events).questions| <= |s.questions| + Probes(events)
    decreases |events|
  {
    if events != [] {
      QuestionsAdded(Handle(s, events[0]), events[1..]);
    }
  }

  /** Once completed or expired, nothing about the interview changes any more. */
  lemma {:induction false} TerminalIsFinal(s: State, events: seq<Event>)
    requires s.cursor >= 0 && s.status in {Completed, Expired}
    ensures Play(s, events) == s
    decreases |events|
  {
    if events != [] {
      TerminalIsFinal(Handle(s, events[0]), events[1..]);
    }
  }

  // -------------------------------------------------- what a turn answers

  /** A blank answer is one of white space only. */
  lemma {:induction false} BlankExactly(content: string)
    ensures Blank(content) <==> forall i | 0 <= i < |content| :: IsSpace(content[i])
  {
    if content != "" {
      BlankExactly(content[1..]);
      assert forall i | 1 <= i < |content| :: content[i] == content[1..][i - 1];
    }
  }

  predicate Finished(s: State, position: nat) { ClosedTopic(TopicAnswers(s.answers, position + 1)) }

  lemma OpenIsNotClosed(topic: seq<Answer>)
    requires OpenTopic(topic)
    ensures !ClosedTopic(topic)
  {}

  /** In every reachable state the cursor counts the finished topics: those before it are finished, the
      others are not. */
  lemma CursorCountsFinished(s: State, position: nat)
    requires Shape(s) && position < |s.questions|
    ensures Finished(s, position) <==> position < s.cursor
  {
    if position == s.cursor {
      OpenIsNotClosed(TopicAnswers(s.answers, s.cursor + 1));
    } else if position > s.cursor {
      NoAnswersYet(s.answers, position + 1);
    }
  }

  lemma AllFinished(s: State)
    requires Shape(s)
    ensures (forall p: nat | p < |s.questions| :: Finished(s, p)) <==> s.cursor == |s.questions|
  {
    forall p: nat | p < |s.questions| ensures Finished(s, p) <==> p < s.cursor {
      CursorCountsFinished(s, p);
    }
    if s.cursor < |s.questions| {
      var open: nat := s.cursor;
      assert !Finished(s, open);
    }
  }

  /** The answer of an accepted turn: the given content and time on the topic of the cursor, an advance
      unless the client asked for a reply, numbered by the turn that is reported. */
  lemma TurnRecordsTheAnswer(s: State, now: int, content: string, action: Action)
    requires Shape(s) && Dialogue(s, now, content, action).1.Recorded?
    ensures var (s', r) := Dialogue(s, now, content, action);
            && |s'.answers| == |s.answers| + 1 && s'.answers[..|s.answers|] == s.answers
            && s'.questions == s.questions && s'.status == s.status
            && var a := s'.answers[|s.answers|];
               && a.idx == s.cursor + 1 && a.content == content && a.at == now
               && a.action == (if action == Reply then Reply else Advance)
               && a.turn == r.turn == |TopicAnswers(s'.answers, s.cursor + 1)|
  {
    var s' := Dialogue(s, now, content, action).0;
    AnswerAppended(s.answers, s'.answers[|s.answers|], s.cursor + 1);
  }

  /** The reply of an accepted turn: it is reported finished exactly when its topic is, and hands out the
      first question whose topic is not finished, or none when all are. */
  lemma TurnHandsOutTheNext(s: State, now: int, content: string, action: Action)
    requires Shape(s) && Dialogue(s, now, content, action).1.Recorded?
    ensures var (s', r) := Dialogue(s, now, content, action);
            && (r.finished <==> Finished(s', s.cursor))
            && (r.next == None <==> forall p: nat | p < |s'.questions| :: Finished(s', p))
            && (r.next.Some? ==>
                  exists p: nat | p < |s'.questions| ::
                    r.next.value == s'.questions[p] && !Finished(s', p) && forall q: nat | q < p :: Finished(s', q))
  {
    var (s', r) := Dialogue(s, now, content, action);
    TurnKeepsShape(s, now, content, action);
    RecordedTurn(s, now, content, action);
    AllFinished(s');
    forall p: nat | p < |s'.questions| ensures Finished(s', p) <==> p < s'.cursor {
      CursorCountsFinished(s', p);
    }
  }

  /** Exactly when a turn is refused, and why; nothing changes then. */
  lemma TurnRefusedExactly(s: State, now: int, content: string, action: Action)
    requires Shape(s)
    ensures var (s', r) := Dialogue(s, now, content, action);
            var done := forall p: nat | p < |s.questions| :: Finished(s, p);
            && (r.Rejected? <==> s.status != InProgress || Blank(content) || done)
            && (r.Rejected? ==>
                  && s' == s && (r.finished <==> r.code == NoActiveQuestion)
                  && r.code == if s.status != InProgress then NotInProgress
                               else if Blank(content) then AnswerEmpty else NoActiveQuestion)
  {
    AllFinished(s);
  }

  /** The question on offer outside a turn: the first whose topic is not finished, and none exactly when the
      interview is not in progress or all topics are finished. */
  lemma NextIsTheFirstUnfinished(s: State)
    requires Shape(s)
    ensures Next(s) == None <==> s.status != InProgress || forall p: nat | p < |s.questions| :: Finished(s, p)
    ensures Next(s).Some? ==>
              exists p: nat | p < |s.questions| ::
                Next(s).value == s.questions[p] && !Finished(s, p) && forall q: nat | q < p :: Finished(s, q)
  {
    AllFinished(s);
    forall p: nat | p < |s.questions| ensures Finished(s, p) <==> p < s.cursor {
      CursorCountsFinished(s, p);
    }
  }

  /** The status machine: pending interviews begin or lapse, those in progress finish or lapse, and nothing
      else moves the status. */
  lemma StatusMovesExactly(s: State, e: Event)
    requires s.cursor >= 0
    ensures Handle(s, e).status ==
            if s.status == Pending && e == Begin then InProgress
            else if s.status == InProgress && e == Finish then Completed
            else if (s.status == Pending || s.status == InProgress) && e == Lapse then Expired
            else s.status
  {}

  /** A probe is refused exactly outside an interview in progress or the list; else it stands where it was
      put, with what it was given. */
  lemma ProbeStands(s: State, at: int, content: string, category: string, skill: string)
    ensures var (s', probe) := Probed(s, at, content, category, skill);
            if s.status == InProgress && 0 <= at <= |s.questions| then
              && |s'.questions| == |s.questions| + 1 && probe == Some(s'.questions[at])
              && s'.questions[at] == Question(at + 1, content, category, skill, true)
              && s'.answers == s.answers && s'.cursor == s.cursor && s'.status == s.status
            else probe == None && s' == s
  {}

  /** The countdown shown to the candidate reads zero when the cap has expired the interview and, of the
      time before, exactly in the last second, since only whole seconds are shown. */
  lemma CountdownMatchesExpiry(startedAt: int, expiresAt: Option<int>, now: int)
    requires expiresAt.Some? ==> now <= expiresAt.value
    ensures Overdue(InProgress, Some(startedAt), expiresAt, now) <==> now - startedAt >= MAX_DURATION
    ensures Overdue(InProgress, Some(startedAt), expiresAt, now) ==> Remaining(Some(startedAt), now) == 0
    ensures Remaining(Some(startedAt), now) == 0 <==> now - startedAt > MAX_DURATION - SECOND
    ensures !Overdue(InProgress, Some(startedAt), expiresAt, now) ==>
              var left := startedAt + MAX_DURATION - now;
              Remaining(Some(startedAt), now) * SECOND <= left < (Remaining(Some(startedAt), now) + 1) * SECOND
    ensures Remaining(None, now) == Remaining(Some(now), now) == 30 * 60
  {}
}
