/** The frame-to-bubble reducer of the candidate chat (frontend/src/lib/useChatSession.ts): the updaters
    given to setBubbles, the token buffer, and the bubbles that local sends add. Fresh ids, which the
    source draws at random, are passed in. */
module Bubbles {
  datatype Kind = Question | Answer | Assistant | CandidateQa

  datatype Bubble = Bubble(id: nat, kind: Kind, content: string, idx: int, isProbe: bool, streaming: bool,
                           questionText: string, refused: bool)

  datatype Chat = Chat(bubbles: seq<Bubble>, buffer: string)

  datatype Event =
    | QuestionFrame(id: nat, idx: int, content: string, isProbe: bool)
    | TokenFrame(content: string)
    | ResponseFrame(id: nat, content: string)
    | QaAnswerFrame(id: nat, answer: string, refused: bool)
    | ClearingFrame // evaluation and error frames
    | SubmitAnswer(id: nat, content: string)
    | AskQuestion(id: nat, text: string)
    | AskFailed // the socket was not open

  const NOT_SENT := "Could not send your question: connection lost."

  predicate Last(bubbles: seq<Bubble>, kind: Kind) {
    bubbles != [] && bubbles[|bubbles| - 1].kind == kind
  }

  function ReplaceLast(bubbles: seq<Bubble>, b: Bubble): seq<Bubble>
    requires bubbles != []
  {
    bubbles[..|bubbles| - 1] + [b]
  }

  predicate Shown(bubbles: seq<Bubble>, idx: int, content: string) {
    exists b | b in bubbles :: b.kind == Question && b.idx == idx && b.content == content
  }

  function WithQuestion(prev: seq<Bubble>, id: nat, idx: int, content: string, isProbe: bool): seq<Bubble> {
    if Last(prev, Question) && (prev[|prev| - 1].idx == idx || prev[|prev| - 1].content == content) then prev
    else if Shown(prev, idx, content) then prev
    else prev + [Bubble(id, Question, content, idx, isProbe, false, "", false)]
  }

  function WithResponse(prev: seq<Bubble>, id: nat, content: string): seq<Bubble> {
    if Last(prev, Assistant) then ReplaceLast(prev, prev[|prev| - 1].(content := content, streaming := false))
    else prev + [Bubble(id, Assistant, content, 0, false, false, "", false)]
  }

  /** Position of the most recent candidate question, or -1. */
  function LastQa(bubbles: seq<Bubble>): int {
    if bubbles == [] then -1
    else if bubbles[|bubbles| - 1].kind == CandidateQa then |bubbles| - 1
    else LastQa(bubbles[..|bubbles| - 1])
  }

  function WithQaAnswer(prev: seq<Bubble>, id: nat, answer: string, refused: bool): (r: seq<Bubble>) {
    var i := LastQa(prev);
    if 0 <= i < |prev| then prev[i := prev[i].(content := answer, streaming := false, refused := refused)]
    else prev + [Bubble(id, CandidateQa, answer, 0, false, false, "", refused)]
  }

  function WithFailedAsk(prev: seq<Bubble>): seq<Bubble> {
    if Last(prev, CandidateQa) && prev[|prev| - 1].streaming
    then ReplaceLast(prev, prev[|prev| - 1].(streaming := false, content := NOT_SENT))
    else prev
  }

  function Update(c: Chat, e: Event): Chat {
    match e
    case QuestionFrame(id, idx, content, isProbe) => c.(bubbles := WithQuestion(c.bubbles, id, idx, content, isProbe))
    case TokenFrame(content) => c.(buffer := c.buffer + content)
    case ResponseFrame(id, content) =>
      Chat(WithResponse(c.bubbles, id, if content != "" then content else c.buffer), "")
    case QaAnswerFrame(id, answer, refused) => c.(bubbles := WithQaAnswer(c.bubbles, id, answer, refused))
    case ClearingFrame => c.(buffer := "")
    case SubmitAnswer(id, content) =>
      c.(bubbles := c.bubbles + [Bubble(id, Answer, content, 0, false, false, "", false)])
    case AskQuestion(id, text) =>
      c.(bubbles := c.bubbles + [Bubble(id, CandidateQa, text, 0, false, true, text, false)])
    case AskFailed => c.(bubbles := WithFailedAsk(c.bubbles))
  }

  /** The qa_answer updater as written: complete a streaming question at the end of the list, else
      search backwards for the most recent one, else append. */
  method CompleteQa(prev: seq<Bubble>, id: nat, answer: string, refused: bool) returns (next: seq<Bubble>)
    ensures next == WithQaAnswer(prev, id, answer, refused)
  {
    if prev != [] {
      var last := prev[|prev| - 1];
      if last.kind == CandidateQa && last.streaming {
        return prev[..|prev| - 1] + [last.(content := answer, streaming := false, refused := refused)];
      }
    }
    var i := |prev| - 1;
    assert prev[..i + 1] == prev;
    while i >= 0
      invariant -1 <= i < |prev|
      invariant LastQa(prev) == LastQa(prev[..i + 1])
    {
      var b := prev[i];
      if b.kind == CandidateQa {
        return prev[..i] + [b.(content := answer, streaming := false, refused := refused)] + prev[i + 1..];
      }
      assert prev[..i + 1][..i] == prev[..i];
      i := i - 1;
    }
    return prev + [Bubble(id, CandidateQa, answer, 0, false, false, "", refused)];
  }

  // ----------------------------------------------------------- one update

  function Questions(bubbles: seq<Bubble>): seq<Bubble> {
    if bubbles == [] then []
    else
      var last := bubbles[|bubbles| - 1];
      Questions(bubbles[..|bubbles| - 1]) + if last.kind == Question then [last] else []
  }

  predicate DistinctQuestions(bubbles: seq<Bubble>) {
    forall i, j | 0 <= i < j < |bubbles| && bubbles[i].kind == Question && bubbles[j].kind == Question ::
      bubbles[i].idx != bubbles[j].idx || bubbles[i].content != bubbles[j].content
  }

  /** Bubbles keep their place and their id, questions their whole content, and at most one bubble is
      added. */
  predicate Extends(prev: seq<Bubble>, next: seq<Bubble>) {
    && |prev| <= |next|
    && (forall i | 0 <= i < |prev| :: next[i].id == prev[i].id && next[i].kind == prev[i].kind)
    && (forall i | 0 <= i < |prev| && prev[i].kind == Question :: next[i] == prev[i])
  }

  lemma {:induction false} LastQaIsQa(bubbles: seq<Bubble>)
    ensures -1 <= LastQa(bubbles) < |bubbles|
    ensures LastQa(bubbles) >= 0 ==> bubbles[LastQa(bubbles)].kind == CandidateQa
    ensures forall k | LastQa(bubbles) < k < |bubbles| :: bubbles[k].kind != CandidateQa
  {
    if bubbles != [] && bubbles[|bubbles| - 1].kind != CandidateQa {
      LastQaIsQa(bubbles[..|bubbles| - 1]);
    }
  }

  lemma UpdateExtends(c: Chat, e: Event)
    ensures Extends(c.bubbles, Update(c, e).bubbles)
    ensures |Update(c, e).bubbles| <= |c.bubbles| + 1
    ensures DistinctQuestions(c.bubbles) ==> DistinctQuestions(Update(c, e).bubbles)
  {
    LastQaIsQa(c.bubbles);
  }

  // -------------------------------------------------------------- all runs

  function Run(c: Chat, events: seq<Event>): Chat
    decreases |events|
  {
    if events == [] then c else Run(Update(c, events[0]), events[1..])
  }

  lemma ExtendsTransitive(a: seq<Bubble>, b: seq<Bubble>, c: seq<Bubble>)
    requires Extends(a, b) && Extends(b, c)
    ensures Extends(a, c)
  {}

  lemma {:induction false} RunExtends(c: Chat, events: seq<Event>)
    ensures Extends(c.bubbles, Run(c, events).bubbles)
    ensures DistinctQuestions(c.bubbles) ==> DistinctQuestions(Run(c, events).bubbles)
    decreases |events|
  {
    if events != [] {
      UpdateExtends(c, events[0]);
      RunExtends(Update(c, events[0]), events[1..]);
      ExtendsTransitive(c.bubbles, Update(c, events[0]).bubbles, Run(c, events).bubbles);
    }
  }

  lemma {:induction false} QuestionsOfExtension(prev: seq<Bubble>, next: seq<Bubble>)
    requires Extends(prev, next)
    ensures Questions(prev) <= Questions(next)
    decreases |next|
  {
    if |prev| == |next| {
      SameQuestions(prev, next);
    } else {
      assert Extends(prev, next[..|next| - 1]);
      QuestionsOfExtension(prev, next[..|next| - 1]);
    }
  }

  lemma {:induction false} SameQuestions(prev: seq<Bubble>, next: seq<Bubble>)
    requires Extends(prev, next) && |prev| == |next|
    ensures Questions(prev) == Questions(next)
    decreases |prev|
  {
    if prev != [] {
      var n := |prev| - 1;
      SameQuestions(prev[..n], next[..n]);
      assert prev[n].kind == next[n].kind;
    }
  }

  function Opening(): Chat { Chat([], "") }

  /** Question bubbles are never removed, reordered or altered: over any run, those shown at any moment
      are a prefix of those shown later, no (idx, content) is ever shown twice, and every bubble keeps
      its place and its id. */
  lemma QuestionsArePermanent(first: seq<Event>, later: seq<Event>)
    ensures var c := Run(Opening(), first);
            var d := Run(c, later);
            && Questions(c.bubbles) <= Questions(d.bubbles)
            && DistinctQuestions(d.bubbles)
            && Extends(c.bubbles, d.bubbles)
  {
    var c := Run(Opening(), first);
    RunExtends(Opening(), first);
    RunExtends(c, later);
    QuestionsOfExtension(c.bubbles, Run(c, later).bubbles);
  }

  /** Replay is harmless: a question frame for anything already shown leaves the list unchanged at any
      later time, whatever frames and sends came between. */
  lemma ReplayIsHarmless(first: seq<Event>, later: seq<Event>, id: nat, idx: int, content: string, isProbe: bool)
    requires Shown(Run(Opening(), first).bubbles, idx, content)
    ensures var d := Run(Run(Opening(), first), later); Update(d, QuestionFrame(id, idx, content, isProbe)) == d
  {
    var c := Run(Opening(), first);
    var d := Run(c, later);
    RunExtends(c, later);
    var b :| b in c.bubbles && b.kind == Question && b.idx == idx && b.content == content;
    var i :| 0 <= i < |c.bubbles| && c.bubbles[i] == b;
    assert d.bubbles[i] == b && d.bubbles[i] in d.bubbles;
  }

  /** The guard against replay is wider than replay: a question that was never shown is dropped exactly
      when the last bubble is a question with the same number or the same text. */
  lemma NewQuestionIsDropped(c: Chat, id: nat, idx: int, content: string, isProbe: bool)
    requires !Shown(c.bubbles, idx, content)
    ensures !Shown(Update(c, QuestionFrame(id, idx, content, isProbe)).bubbles, idx, content)
            <==> exists b | b in c.bubbles && b == c.bubbles[|c.bubbles| - 1] ::
                   b.kind == Question && (b.idx == idx || b.content == content)
  {
    var next := Update(c, QuestionFrame(id, idx, content, isProbe)).bubbles;
    if next != c.bubbles {
      assert next[|c.bubbles|] in next;
    }
    if c.bubbles != [] {
      assert c.bubbles[|c.bubbles| - 1] in c.bubbles;
    }
  }

  // ------------------------------------------------- what the bubbles say

  /** The streamed tokens, one after the other. */
  function Streamed(events: seq<Event>): string {
    if events == [] then ""
    else (if events[0].TokenFrame? then events[0].content else "") + Streamed(events[1..])
  }

  /** Frames after which streaming starts afresh. */
  predicate Resets(e: Event) { e.ClearingFrame? || e.ResponseFrame? }

  lemma {:induction false} RunAppended(c: Chat, first: seq<Event>, later: seq<Event>)
    ensures Run(c, first + later) == Run(Run(c, first), later)
    decreases |first|
  {
    if first == [] {
      assert first + later == later;
    } else {
      assert (first + later)[1..] == first[1..] + later;
      RunAppended(Update(c, first[0]), first[1..], later);
    }
  }

  lemma TokenBuffered(c: Chat, e: Event)
    requires !Resets(e)
    ensures Update(c, e).buffer == c.buffer + if e.TokenFrame? then e.content else ""
  {
    assert c.buffer + "" == c.buffer;
  }

  lemma {:induction false} BufferGrows(c: Chat, events: seq<Event>)
    requires forall e | e in events :: !Resets(e)
    ensures Run(c, events).buffer == c.buffer + Streamed(events)
    decreases |events|
  {
    if events != [] {
      BufferGrows(Update(c, events[0]), events[1..]);
      var token, rest := if events[0].TokenFrame? then events[0].content else "", Streamed(events[1..]);
      TokenBuffered(c, events[0]);
      assert c.buffer + token + rest == c.buffer + (token + rest);
    }
  }

  lemma ResetClears(before: seq<Event>)
    requires before == [] || Resets(before[|before| - 1])
    ensures Run(Opening(), before).buffer == ""
  {
    if before != [] {
      var n := |before| - 1;
      assert before == before[..n] + [before[n]];
      RunAppended(Opening(), before[..n], [before[n]]);
    }
  }

  lemma ResponseIsLast(c: Chat, id: nat, content: string)
    ensures var d := Update(c, ResponseFrame(id, content));
            && d.buffer == "" && Last(d.bubbles, Assistant)
            && d.bubbles[|d.bubbles| - 1].content == (if content != "" then content else c.buffer)
            && !d.bubbles[|d.bubbles| - 1].streaming
            && d.bubbles[..|d.bubbles| - 1] == if Last(c.bubbles, Assistant) then c.bubbles[..|c.bubbles| - 1] else c.bubbles
  {}

  /** The response bubble holds the text of its frame or, when that is empty, the tokens streamed since the
      last response, evaluation or error; it is the last bubble, and the others are as they were. */
  lemma ResponseShowsTheStream(before: seq<Event>, streamed: seq<Event>, id: nat, content: string)
    requires before == [] || Resets(before[|before| - 1])
    requires forall e | e in streamed :: !Resets(e)
    ensures var c := Run(Opening(), before + streamed);
            var d := Update(c, ResponseFrame(id, content));
            && d.buffer == "" && Last(d.bubbles, Assistant)
            && d.bubbles[|d.bubbles| - 1].content == (if content != "" then content else Streamed(streamed))
            && !d.bubbles[|d.bubbles| - 1].streaming
            && d.bubbles[..|d.bubbles| - 1] == if Last(c.bubbles, Assistant) then c.bubbles[..|c.bubbles| - 1] else c.bubbles
  {
    ResetClears(before);
    RunAppended(Opening(), before, streamed);
    BufferGrows(Run(Opening(), before), streamed);
    assert "" + Streamed(streamed) == Streamed(streamed);
    ResponseIsLast(Run(Opening(), before + streamed), id, content);
  }

  /** The candidate's question at position n is the most recent one. */
  predicate Asked(bubbles: seq<Bubble>, n: nat, text: string) {
    && n < |bubbles| && bubbles[n].kind == CandidateQa && bubbles[n].questionText == text
    && forall k | n < k < |bubbles| :: bubbles[k].kind != CandidateQa
  }

  lemma {:induction false} LastQaIsAt(bubbles: seq<Bubble>, n: nat, text: string)
    requires Asked(bubbles, n, text)
    ensures LastQa(bubbles) == n
  {
    LastQaIsQa(bubbles);
    if n < |bubbles| - 1 {
      LastQaIsAt(bubbles[..|bubbles| - 1], n, text);
    }
  }

  lemma UpdateKeepsAsked(c: Chat, n: nat, text: string, e: Event)
    requires Asked(c.bubbles, n, text) && !e.AskQuestion?
    ensures Asked(Update(c, e).bubbles, n, text)
  {
    LastQaIsAt(c.bubbles, n, text);
  }

  lemma {:induction false} RunKeepsAsked(c: Chat, n: nat, text: string, events: seq<Event>)
    requires Asked(c.bubbles, n, text) && forall e | e in events :: !e.AskQuestion?
    ensures Asked(Run(c, events).bubbles, n, text)
    decreases |events|
  {
    if events != [] {
      UpdateKeepsAsked(c, n, text, events[0]);
      RunKeepsAsked(Update(c, events[0]), n, text, events[1..]);
    }
  }

  /** An answer lands on the question it is for: whatever came since, short of another question, the bubble
      of the last question asked takes the answer and keeps the question, and no other bubble changes. */
  lemma AnswerMeetsItsQuestion(c: Chat, id: nat, text: string, since: seq<Event>, id': nat, answer: string, refused: bool)
    requires forall e | e in since :: !e.AskQuestion?
    ensures var n := |c.bubbles|;
            var d := Run(Update(c, AskQuestion(id, text)), since);
            var b := Update(d, QaAnswerFrame(id', answer, refused)).bubbles;
            && |b| == |d.bubbles| > n && (forall k | 0 <= k < |b| && k != n :: b[k] == d.bubbles[k])
            && b[n].id == d.bubbles[n].id && b[n].content == answer && b[n].questionText == text
            && b[n].refused == refused && !b[n].streaming
  {
    var asked := Update(c, AskQuestion(id, text));
    RunKeepsAsked(asked, |c.bubbles|, text, since);
    LastQaIsAt(Run(asked, since).bubbles, |c.bubbles|, text);
  }

  /** A question that could not be sent says so, and no longer waits for an answer. */
  lemma FailedAskSaysSo(c: Chat, id: nat, text: string)
    ensures Update(Update(c, AskQuestion(id, text)), AskFailed).bubbles
         == c.bubbles + [Bubble(id, CandidateQa, NOT_SENT, 0, false, false, text, false)]
  {}

  /** A failed send touches nothing but a question that still waits for its answer. */
  lemma FailureSparesTheRest(c: Chat)
    ensures Update(c, AskFailed) == c
            <==> !(c.bubbles != [] && c.bubbles[|c.bubbles| - 1].kind == CandidateQa && c.bubbles[|c.bubbles| - 1].streaming)
  {
    var n := |c.bubbles| - 1;
    if Last(c.bubbles, CandidateQa) && c.bubbles[n].streaming {
      assert !Update(c, AskFailed).bubbles[n].streaming;
    }
  }

  /** An answer without a question gets a bubble of its own. */
  lemma StrayAnswerIsShown(c: Chat, id: nat, answer: string, refused: bool)
    requires forall b | b in c.bubbles :: b.kind != CandidateQa
    ensures Update(c, QaAnswerFrame(id, answer, refused)).bubbles
         == c.bubbles + [Bubble(id, CandidateQa, answer, 0, false, false, "", refused)]
  {
    LastQaIsQa(c.bubbles);
  }

  /** What the candidate sends is shown at once, word for word, and so is a question neither shown before nor
      following one with its number or its text. */
  lemma SendsAreShown(c: Chat, id: nat, text: string, idx: int, isProbe: bool)
    ensures var b := Update(c, SubmitAnswer(id, text)).bubbles;
            |b| == |c.bubbles| + 1 && b[..|c.bubbles|] == c.bubbles
            && b[|c.bubbles|].id == id && b[|c.bubbles|].kind == Answer && b[|c.bubbles|].content == text
    ensures var b := Update(c, QuestionFrame(id, idx, text, isProbe)).bubbles;
            !Shown(c.bubbles, idx, text) && Shown(b, idx, text) ==>
              && |b| == |c.bubbles| + 1 && b[..|c.bubbles|] == c.bubbles
              && b[|c.bubbles|].id == id && b[|c.bubbles|].idx == idx
              && b[|c.bubbles|].content == text && b[|c.bubbles|].isProbe == isProbe
  {}
}
