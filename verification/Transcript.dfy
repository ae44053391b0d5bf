/** Grouping the answers into question/answer pairs for the evaluator
    (backend/internal/interview/domain/transcript.go, TranscriptPairs). */
module Transcript {
  import opened Prelude
  import opened Interview

  datatype Pair = Pair(idx: int, category: string, question: string, answer: string)

  /** A question with the answers grouped under it. */
  datatype Topic = Topic(question: Question, group: seq<Answer>)

  // --------------------------------------------------------------- grouping

  /** Answers outside 1..n are skipped. */
  function GroupOf(answers: seq<Answer>, n: nat, k: int): seq<Answer> {
    if 1 <= k <= n then TopicAnswers(answers, k) else []
  }

  /** The questions that have answers, in order, with their groups; `n` is the question count. */
  function TopicsOf(questions: seq<Question>, n: nat, answers: seq<Answer>): seq<Topic> {
    if questions == [] then []
    else
      var q := questions[|questions| - 1];
      var group := GroupOf(answers, n, q.idx);
      TopicsOf(questions[..|questions| - 1], n, answers) + if group == [] then [] else [Topic(q, group)]
  }

  function PairOf(topic: Topic): Pair {
    Pair(topic.question.idx, topic.question.category, topic.question.content, Render(topic.group))
  }

  function PairsOf(topics: seq<Topic>): seq<Pair> {
    seq(|topics|, i requires 0 <= i < |topics| => PairOf(topics[i]))
  }

  function Pairs(questions: seq<Question>, answers: seq<Answer>): seq<Pair> {
    PairsOf(TopicsOf(questions, |questions|, answers))
  }

  // -------------------------------------------------------------- rendering

  function Digit(d: int): char
    requires 0 <= d < 10
  {
    "0123456789"[d]
  }

  function Decimal(n: int): string
    decreases n < 0, if n < 0 then -n else n
  {
    if n < 0 then "-" + Decimal(-n)
    else if n < 10 then [Digit(n)]
    else Decimal(n / 10) + [Digit(n % 10)]
  }

  function ActionName(a: Action): string {
    match a case NoAction => "reply" case Reply => "reply" case Advance => "advance" case Other(text) => text
  }

  function Marker(a: Answer, i: nat): string {
    "[Candidate Turn " + Decimal(if a.turn == 0 then i + 1 else a.turn) + " (" + ActionName(a.action) + ")]: "
  }

  function Line(a: Answer, i: nat): string { Marker(a, i) + a.content }

  function Lines(group: seq<Answer>): string {
    if group == [] then ""
    else
      var i := |group| - 1;
      Lines(group[..i]) + Separator(i) + Line(group[i], i)
  }

  function Separator(i: nat): string { if i > 0 then "\n---\n" else "" }

  /** A single plain answer stands as it is; a dialogue gets turn markers. */
  predicate Plain(group: seq<Answer>) {
    |group| == 1 && group[0].turn <= 1 && group[0].action in {NoAction, Advance}
  }

  function Render(group: seq<Answer>): string {
    if Plain(group) then group[0].content else Lines(group)
  }

  // ---------------------------------------------------------- the source's loops

  method RenderGroup(group: seq<Answer>) returns (text: string)
    ensures text == Lines(group)
  {
    text := "";
    for i := 0 to |group|
      invariant text == Lines(group[..i])
    {
      assert group[..i + 1][..i] == group[..i];
      if i > 0 {
        text := text + "\n---\n";
      }
      var turnNum := group[i].turn;
      if turnNum == 0 {
        turnNum := i + 1;
      }
      text := text + ("[Candidate Turn " + Decimal(turnNum) + " (" + ActionName(group[i].action) + ")]: " + group[i].content);
      assert Lines(group[..i + 1]) == Lines(group[..i]) + Separator(i) + Line(group[i], i);
    }
    assert group[..|group|] == group;
  }

  function Lookup(m: map<int, seq<Answer>>, k: int): seq<Answer> {
    if k in m then m[k] else []
  }

  method GroupAnswers(answers: seq<Answer>, n: nat) returns (ansByQ: map<int, seq<Answer>>)
    ensures forall k :: Lookup(ansByQ, k) == GroupOf(answers, n, k)
  {
    ansByQ := map[];
    for i := 0 to |answers|
      invariant forall k :: Lookup(ansByQ, k) == GroupOf(answers[..i], n, k)
    {
      var a := answers[i];
      GroupGrows(answers, i, n);
      if a.idx >= 1 && a.idx <= n {
        ghost var before := ansByQ;
        ansByQ := ansByQ[a.idx := Lookup(ansByQ, a.idx) + [a]];
        assert forall k :: Lookup(ansByQ, k) == if k == a.idx then Lookup(before, k) + [a] else Lookup(before, k);
      }
    }
    assert answers[..|answers|] == answers;
  }

  lemma GroupGrows(answers: seq<Answer>, i: nat, n: nat)
    requires i < |answers|
    ensures forall k :: GroupOf(answers[..i + 1], n, k)
                     == if k == answers[i].idx && 1 <= k <= n then GroupOf(answers[..i], n, k) + [answers[i]]
                        else GroupOf(answers[..i], n, k)
  {
    assert answers[..i + 1] == answers[..i] + [answers[i]];
    forall k {
      AnswerAppended(answers[..i], answers[i], k);
    }
  }

  /** The pair of one question: a single answer stands as it is, several are rendered. */
  method PairFor(q: Question, group: seq<Answer>) returns (pair: Pair)
    requires group != []
    ensures pair == PairOf(Topic(q, group))
  {
    if |group| == 1 && group[0].turn <= 1 && group[0].action in {NoAction, Advance} {
      return Pair(q.idx, q.category, q.content, group[0].content);
    }
    var text := RenderGroup(group);
    return Pair(q.idx, q.category, q.content, text);
  }

  lemma OneMoreTopic(questions: seq<Question>, i: nat, n: nat, answers: seq<Answer>)
    requires i < |questions|
    ensures var q := questions[i];
            var group := GroupOf(answers, n, q.idx);
            PairsOf(TopicsOf(questions[..i + 1], n, answers))
            == PairsOf(TopicsOf(questions[..i], n, answers)) + if group == [] then [] else [PairOf(Topic(q, group))]
  {
    assert questions[..i + 1][..i] == questions[..i];
    var q := questions[i];
    var group := GroupOf(answers, n, q.idx);
    if group != [] {
      PairsOfSnoc(TopicsOf(questions[..i], n, answers), Topic(q, group));
    }
  }

  lemma PairsOfSnoc(topics: seq<Topic>, t: Topic)
    ensures PairsOf(topics + [t]) == PairsOf(topics) + [PairOf(t)]
  {}

  method TranscriptPairs(questions: seq<Question>, answers: seq<Answer>) returns (pairs: seq<Pair>)
    ensures pairs == Pairs(questions, answers)
  {
    var ansByQ := GroupAnswers(answers, |questions|);
    pairs := [];
    for i := 0 to |questions|
      invariant pairs == PairsOf(TopicsOf(questions[..i], |questions|, answers))
    {
      var q := questions[i];
      OneMoreTopic(questions, i, |questions|, answers);
      var ansList := Lookup(ansByQ, q.idx);
      if |ansList| == 0 {
        continue;
      }
      var pair := PairFor(q, ansList);
      pairs := pairs + [pair];
    }
    assert questions[..|questions|] == questions;
  }

  // ------------------------------------------------- grouping loses nothing

  function InRange(answers: seq<Answer>, n: nat): seq<Answer> {
    if answers == [] then []
    else
      var last := answers[|answers| - 1];
      InRange(answers[..|answers| - 1], n) + if 1 <= last.idx <= n then [last] else []
  }

  function Concat(topics: seq<Topic>): seq<Answer> {
    if topics == [] then [] else Concat(topics[..|topics| - 1]) + topics[|topics| - 1].group
  }

  lemma ConcatSnoc(topics: seq<Topic>, t: Topic)
    ensures Concat(topics + [t]) == Concat(topics) + t.group
  {
    assert (topics + [t])[..|topics|] == topics;
  }

  /** The groups of the first `n` topics, one after the other. */
  function Regrouped(answers: seq<Answer>, n: nat): seq<Answer> {
    if n == 0 then [] else Regrouped(answers, n - 1) + TopicAnswers(answers, n)
  }

  lemma {:induction false} ConcatIsRegrouped(questions: seq<Question>, n: nat, answers: seq<Answer>)
    requires Numbered(questions) && |questions| <= n
    ensures Concat(TopicsOf(questions, n, answers)) == Regrouped(answers, |questions|)
  {
    if questions != [] {
      var m := |questions| - 1;
      ConcatIsRegrouped(questions[..m], n, answers);
      var group := GroupOf(answers, n, questions[m].idx);
      assert group == TopicAnswers(answers, m + 1);
      assert Regrouped(answers, m + 1) == Regrouped(answers, m) + group;
      if group == [] {
        assert TopicsOf(questions, n, answers) == TopicsOf(questions[..m], n, answers);
      } else {
        ConcatSnoc(TopicsOf(questions[..m], n, answers), Topic(questions[m], group));
      }
    }
  }

  lemma {:induction false} RegroupedIsPermutation(answers: seq<Answer>, n: nat)
    ensures multiset(Regrouped(answers, n)) == multiset(InRange(answers, n))
    decreases n
  {
    if n == 0 {
      NothingInRangeZero(answers);
    } else {
      RegroupedIsPermutation(answers, n - 1);
      RangeGrows(answers, n);
    }
  }

  lemma {:induction false} NothingInRangeZero(answers: seq<Answer>)
    ensures InRange(answers, 0) == []
  {
    if answers != [] {
      NothingInRangeZero(answers[..|answers| - 1]);
    }
  }

  lemma {:induction false} RangeGrows(answers: seq<Answer>, n: nat)
    requires n >= 1
    ensures multiset(InRange(answers, n)) == multiset(InRange(answers, n - 1)) + multiset(TopicAnswers(answers, n))
  {
    if answers != [] {
      RangeGrows(answers[..|answers| - 1], n);
    }
  }

  /** The group is non-empty and is what was answered on its topic, one of the first `n`. */
  predicate GroupOk(t: Topic, n: nat, answers: seq<Answer>) {
    && 1 <= t.question.idx <= n
    && t.group != []
    && t.group == TopicAnswers(answers, t.question.idx)
  }

  predicate StrictlyIncreasing(topics: seq<Topic>) {
    forall i, j | 0 <= i < j < |topics| :: topics[i].question.idx < topics[j].question.idx
  }

  lemma {:induction false} TopicsAreStrictlyIncreasing(questions: seq<Question>, n: nat, answers: seq<Answer>)
    requires Numbered(questions) && |questions| <= n
    ensures forall t | t in TopicsOf(questions, n, answers) :: GroupOk(t, |questions|, answers)
    ensures StrictlyIncreasing(TopicsOf(questions, n, answers))
  {
    if questions != [] {
      var m := |questions| - 1;
      TopicsAreStrictlyIncreasing(questions[..m], n, answers);
      var before := TopicsOf(questions[..m], n, answers);
      assert forall i | 0 <= i < |before| :: before[i] in before && before[i].question.idx <= m;
      assert questions[m].idx == m + 1;
    }
  }

  /** Grouping conserves answers: for questions numbered 1..n and any answers, every in-range answer
      is in exactly one group, the groups are non-empty, each is the answers of its topic in their
      original order, and topics come in strictly increasing order. */
  lemma GroupingConservesAnswers(questions: seq<Question>, answers: seq<Answer>)
    requires Numbered(questions)
    ensures var topics := TopicsOf(questions, |questions|, answers);
            && multiset(Concat(topics)) == multiset(InRange(answers, |questions|))
            && (forall t | t in topics :: GroupOk(t, |questions|, answers))
            && StrictlyIncreasing(topics)
  {
    ConcatIsRegrouped(questions, |questions|, answers);
    RegroupedIsPermutation(answers, |questions|);
    TopicsAreStrictlyIncreasing(questions, |questions|, answers);
  }

  lemma {:induction false} RegroupedAscending(answers: seq<Answer>, n: nat)
    requires Ascending(answers) && forall a | a in answers :: 1 <= a.idx <= n
    ensures Regrouped(answers, n) == answers
  {
    if answers == [] {
      RegroupedEmpty(n);
    } else {
      var m := |answers| - 1;
      RegroupedAscending(answers[..m], n);
      RegroupedSnoc(answers[..m], answers[m], n);
      assert answers[..m] + [answers[m]] == answers;
    }
  }

  lemma {:induction false} RegroupedEmpty(n: nat)
    ensures Regrouped([], n) == []
  {
    if n > 0 {
      RegroupedEmpty(n - 1);
    }
  }

  lemma {:induction false} RegroupedSnoc(answers: seq<Answer>, a: Answer, n: nat)
    requires forall b | b in answers :: b.idx <= a.idx
    ensures Regrouped(answers + [a], n) == Regrouped(answers, n) + if 1 <= a.idx <= n then [a] else []
  {
    if n > 0 {
      RegroupedSnoc(answers, a, n - 1);
      AnswerAppended(answers, a, n);
      if a.idx < n {
        NoAnswersYet(answers, n);
      } else {
        RegroupedAssociates(answers, a, n);
      }
    }
  }

  lemma RegroupedAssociates(answers: seq<Answer>, a: Answer, n: nat)
    requires n > 0 && a.idx >= n && Regrouped(answers + [a], n - 1) == Regrouped(answers, n - 1)
    ensures Regrouped(answers + [a], n) == Regrouped(answers, n) + if a.idx <= n then [a] else []
  {
    AnswerAppended(answers, a, n);
    Associates(Regrouped(answers, n - 1), TopicAnswers(answers, n), [a]);
  }

  lemma Associates(a: seq<Answer>, b: seq<Answer>, c: seq<Answer>)
    ensures a + (b + c) == a + b + c
  {}

  /** In every reachable interview the groups, one after the other, are the whole answer list. */
  lemma ReachableTranscriptIsComplete(questions: seq<Question>, events: seq<Event>)
    requires Numbered(questions)
    ensures var s := Play(Fresh(questions), events);
            Concat(TopicsOf(s.questions, |s.questions|, s.answers)) == s.answers
  {
    var s := Play(Fresh(questions), events);
    assert Shape(Fresh(questions));
    PlayKeepsShape(Fresh(questions), events);
    PlayKeepsNumbering(Fresh(questions), events);
    ConcatIsRegrouped(s.questions, |s.questions|, s.answers);
    RegroupedAscending(s.answers, |s.questions|);
  }

  // --------------------------------------------------------- probe insertion

  /** No answer was given to a question at or after the insertion point. */
  predicate AfterAnswered(answers: seq<Answer>, at: int) {
    forall a | a in answers :: a.idx <= at
  }

  lemma {:induction false} UnansweredSuffix(questions: seq<Question>, k: nat, n: nat, answers: seq<Answer>)
    requires k <= |questions| && Numbered(questions) && AfterAnswered(answers, k)
    ensures TopicsOf(questions, n, answers) == TopicsOf(questions[..k], n, answers)
  {
    if |questions| == k {
      assert questions[..k] == questions;
    } else {
      var m := |questions| - 1;
      UnansweredSuffix(questions[..m], k, n, answers);
      assert questions[..m][..k] == questions[..k];
      NoAnswersYet(answers, m + 1);
    }
  }

  lemma {:induction false} QuestionCountIrrelevant(questions: seq<Question>, n: nat, m: nat, answers: seq<Answer>)
    requires Numbered(questions) && |questions| <= n && |questions| <= m
    ensures TopicsOf(questions, n, answers) == TopicsOf(questions, m, answers)
  {
    if questions != [] {
      QuestionCountIrrelevant(questions[..|questions| - 1], n, m, answers);
    }
  }

  /** Position, numbering and content after the in-place insertion. */
  lemma ProbeShifts(s: State, at: nat, content: string, category: string, skill: string)
    requires s.status == InProgress && at <= |s.questions| && Numbered(s.questions)
    ensures var (s', probe) := Probed(s, at, content, category, skill);
            && Numbered(s'.questions) && |s'.questions| == |s.questions| + 1
            && s'.questions[..at] == s.questions[..at] && probe == Some(s'.questions[at])
            && (forall i | at <= i < |s.questions| ::
                  s'.questions[i + 1] == s.questions[i].(idx := s.questions[i].idx + 1))
            && s'.answers == s.answers
  {}

  lemma UnchangedPrefix(before: seq<Question>, after: seq<Question>, at: nat, answers: seq<Answer>)
    requires Numbered(before) && Numbered(after) && at <= |before| && at <= |after|
    requires before[..at] == after[..at] && AfterAnswered(answers, at)
    ensures TopicsOf(before, |before|, answers) == TopicsOf(after, |after|, answers)
  {
    UnansweredSuffix(before, at, |before|, answers);
    UnansweredSuffix(after, at, |after|, answers);
    QuestionCountIrrelevant(before[..at], |before|, |after|, answers);
  }

  /** Probe insertion is invisible to past answers: at or after every answered question, the result is
      the old prefix, the probe and the old suffix, numbered 1..n+1, and the transcript is unchanged. */
  lemma ProbeIsInvisible(s: State, at: nat, content: string, category: string, skill: string)
    requires s.status == InProgress && at <= |s.questions|
    requires Numbered(s.questions) && AfterAnswered(s.answers, at)
    ensures var (s', probe) := Probed(s, at, content, category, skill);
            && Numbered(s'.questions) && |s'.questions| == |s.questions| + 1
            && s'.questions[..at] == s.questions[..at] && probe == Some(s'.questions[at])
            && (forall i | at <= i < |s.questions| ::
                  s'.questions[i + 1] == s.questions[i].(idx := s.questions[i].idx + 1))
            && Pairs(s'.questions, s'.answers) == Pairs(s.questions, s.answers)
  {
    ProbeShifts(s, at, content, category, skill);
    UnchangedPrefix(s.questions, Probed(s, at, content, category, skill).0.questions, at, s.answers);
  }

  /** The text of a question in the transcript; its number is its place. */
  predicate SameText(q: Question, r: Question) { q.category == r.category && q.content == r.content }

  predicate Answered(answers: seq<Answer>, k: int) { TopicAnswers(answers, k) != [] }

  predicate ReadTheSame(qs: seq<Question>, rs: seq<Question>, k: nat, answers: seq<Answer>)
    requires k <= |qs| && k <= |rs|
  {
    forall i | 0 < i <= k && Answered(answers, i) :: SameText(qs[i - 1], rs[i - 1])
  }

  /** The pair of the k-th of numbered questions, if it was answered, and those of the first k. */
  function PairAt(qs: seq<Question>, k: nat, answers: seq<Answer>): seq<Pair>
    requires 0 < k <= |qs|
  {
    if Answered(answers, k) then [PairOf(Topic(qs[k - 1], TopicAnswers(answers, k)))] else []
  }

  function PairsUpTo(qs: seq<Question>, k: nat, answers: seq<Answer>): seq<Pair>
    requires k <= |qs|
  {
    if k == 0 then [] else PairsUpTo(qs, k - 1, answers) + PairAt(qs, k, answers)
  }

  lemma {:induction false} PairsByPlace(qs: seq<Question>, k: nat, n: nat, answers: seq<Answer>)
    requires Numbered(qs) && k <= |qs| && k <= n
    ensures PairsOf(TopicsOf(qs[..k], n, answers)) == PairsUpTo(qs, k, answers)
    decreases k
  {
    if k > 0 {
      PairsByPlace(qs, k - 1, n, answers);
      OneMoreTopic(qs, k - 1, n, answers);
    }
  }

  /** Of two numberings of questions, the transcripts of the first k agree exactly when the answered ones
      read the same. */
  lemma {:induction false} PrefixesAgree(qs: seq<Question>, rs: seq<Question>, k: nat, answers: seq<Answer>)
    requires Numbered(qs) && Numbered(rs) && k <= |qs| && k <= |rs|
    ensures |PairsUpTo(qs, k, answers)| == |PairsUpTo(rs, k, answers)|
    ensures PairsUpTo(qs, k, answers) == PairsUpTo(rs, k, answers) <==> ReadTheSame(qs, rs, k, answers)
    decreases k
  {
    if k > 0 {
      PrefixesAgree(qs, rs, k - 1, answers);
      OneMorePair(qs, rs, k, answers);
      OneMoreReadsTheSame(qs, rs, k, answers);
    }
  }

  lemma OneMorePair(qs: seq<Question>, rs: seq<Question>, k: nat, answers: seq<Answer>)
    requires Numbered(qs) && Numbered(rs) && 0 < k <= |qs| && k <= |rs|
    requires |PairsUpTo(qs, k - 1, answers)| == |PairsUpTo(rs, k - 1, answers)|
    ensures |PairsUpTo(qs, k, answers)| == |PairsUpTo(rs, k, answers)|
    ensures PairsUpTo(qs, k, answers) == PairsUpTo(rs, k, answers)
            <==> PairsUpTo(qs, k - 1, answers) == PairsUpTo(rs, k - 1, answers)
                 && (Answered(answers, k) ==> SameText(qs[k - 1], rs[k - 1]))
  {
    PairsAgree(qs, rs, k, answers);
    ConcatAgrees(PairsUpTo(qs, k - 1, answers), PairAt(qs, k, answers), PairsUpTo(qs, k, answers),
                 PairsUpTo(rs, k - 1, answers), PairAt(rs, k, answers), PairsUpTo(rs, k, answers));
  }

  lemma ConcatAgrees(a: seq<Pair>, x: seq<Pair>, ax: seq<Pair>, b: seq<Pair>, y: seq<Pair>, bz: seq<Pair>)
    requires |a| == |b| && ax == a + x && bz == b + y
    ensures ax == bz <==> a == b && x == y
  {
    if ax == bz {
      assert a == ax[..|a|] && b == bz[..|b|];
      assert x == ax[|a|..] && y == bz[|b|..];
    }
  }

  lemma PairsAgree(qs: seq<Question>, rs: seq<Question>, k: nat, answers: seq<Answer>)
    requires Numbered(qs) && Numbered(rs) && 0 < k <= |qs| && k <= |rs|
    ensures |PairAt(qs, k, answers)| == |PairAt(rs, k, answers)|
    ensures PairAt(qs, k, answers) == PairAt(rs, k, answers)
            <==> (Answered(answers, k) ==> SameText(qs[k - 1], rs[k - 1]))
  {
    if Answered(answers, k) {
      var p, q := PairAt(qs, k, answers)[0], PairAt(rs, k, answers)[0];
      assert p == q <==> SameText(qs[k - 1], rs[k - 1]);
    }
  }

  lemma OneMoreReadsTheSame(qs: seq<Question>, rs: seq<Question>, k: nat, answers: seq<Answer>)
    requires 0 < k <= |qs| && k <= |rs|
    ensures ReadTheSame(qs, rs, k, answers)
            <==> ReadTheSame(qs, rs, k - 1, answers) && (Answered(answers, k) ==> SameText(qs[k - 1], rs[k - 1]))
  {
  }

  /** Exactly when a probe is invisible, for any answers and any position: no answer waits for the number
      it adds, the probe reads like the question it displaces if that was answered, and so does, further
      on, every question like the answered one whose number it takes. */
  lemma ProbeIsInvisibleExactly(s: State, at: nat, content: string, category: string, skill: string)
    requires s.status == InProgress && at <= |s.questions| && Numbered(s.questions)
    ensures var s' := Probed(s, at, content, category, skill).0;
            var qs, n := s.questions, |s.questions|;
            Pairs(s'.questions, s'.answers) == Pairs(qs, s.answers) <==>
            && !Answered(s.answers, n + 1)
            && (at < n && Answered(s.answers, at + 1) ==> qs[at].category == category && qs[at].content == content)
            && (forall k | at + 1 < k <= n && Answered(s.answers, k) :: SameText(qs[k - 2], qs[k - 1]))
  {
    var s' := Probed(s, at, content, category, skill).0;
    ProbeShifts(s, at, content, category, skill);
    ProbedPairs(s.questions, s'.questions, s.answers);
    ProbeReadsTheSame(s.questions, s'.questions, at, s.answers);
  }

  /** The questions after an insertion at `at` against those before. */
  lemma ProbeReadsTheSame(qs: seq<Question>, rs: seq<Question>, at: nat, answers: seq<Answer>)
    requires |rs| == |qs| + 1 && at <= |qs| && rs[..at] == qs[..at]
    requires forall i | at <= i < |qs| :: rs[i + 1] == qs[i].(idx := qs[i].idx + 1)
    ensures ReadTheSame(rs, qs, |qs|, answers) <==>
            && (at < |qs| && Answered(answers, at + 1) ==> SameText(rs[at], qs[at]))
            && (forall k | at + 1 < k <= |qs| && Answered(answers, k) :: SameText(qs[k - 2], qs[k - 1]))
  {
    forall i | 0 < i <= at && Answered(answers, i) ensures rs[i - 1] == qs[i - 1] {
      assert rs[i - 1] == rs[..at][i - 1];
    }
    forall k | at + 1 < k <= |qs| && Answered(answers, k)
      ensures SameText(rs[k - 1], qs[k - 1]) <==> SameText(qs[k - 2], qs[k - 1])
    {
      assert rs[(k - 2) + 1] == qs[k - 2].(idx := qs[k - 2].idx + 1);
    }
  }

  lemma ProbedPairs(qs: seq<Question>, rs: seq<Question>, answers: seq<Answer>)
    requires Numbered(qs) && Numbered(rs) && |rs| == |qs| + 1
    ensures Pairs(rs, answers) == Pairs(qs, answers)
            <==> !Answered(answers, |qs| + 1) && ReadTheSame(rs, qs, |qs|, answers)
  {
    var n := |qs|;
    PairsByPlace(qs, n, n, answers);
    PairsByPlace(rs, n + 1, n + 1, answers);
    assert qs[..n] == qs && rs[..n + 1] == rs;
    PrefixesAgree(rs, qs, n, answers);
    var all, before := PairsUpTo(rs, n + 1, answers), PairsUpTo(qs, n, answers);
    ConcatAgrees(PairsUpTo(rs, n, answers), PairAt(rs, n + 1, answers), all, before, [], before);
  }

  /** Before an answered question it is not: the answer moves under the probe. */
  lemma EarlyProbeTakesTheAnswer(q: Question, probe: string)
    requires q.idx == 1 && q.content != probe
    ensures var s := State(InProgress, [q], [Answer(1, "a", 0, Advance, 1)], 1);
            var s' := Probed(s, 0, probe, "", "").0;
            Pairs(s'.questions, s'.answers) != Pairs(s.questions, s.answers)
  {
    var a := Answer(1, "a", 0, Advance, 1);
    var s := State(InProgress, [q], [a], 1);
    var s' := Probed(s, 0, probe, "", "").0;
    assert TopicAnswers([a], 1) == [a] by {
      assert [a][..0] == [];
    }
    NoAnswersYet([a], 2);
    assert s'.questions == [Question(1, probe, "", "", true), q.(idx := 2)];
    assert s'.questions[..1] == [s'.questions[0]] && s'.questions[..1][..0] == [];
    assert TopicsOf(s'.questions[..1], 2, [a]) == [Topic(s'.questions[0], [a])];
    assert TopicsOf(s'.questions, 2, [a]) == [Topic(s'.questions[0], [a])];
    assert [q][..0] == [];
    assert TopicsOf([q], 1, [a]) == [Topic(q, [a])];
    assert Pairs(s.questions, s.answers)[0].question == q.content;
    assert Pairs(s'.questions, s'.answers)[0].question == probe;
  }

  // ------------------------------------------- what the evaluator gets to read

  function DigitsRead(s: string): int {
    if s == "" then 0 else DigitsRead(s[..|s| - 1]) * 10 + (s[|s| - 1] as int - '0' as int)
  }

  lemma ReadsOneMoreDigit(s: string, d: int)
    requires 0 <= d < 10
    ensures DigitsRead(s + [Digit(d)]) == DigitsRead(s) * 10 + d
  {
    assert (s + [Digit(d)])[..|s|] == s;
  }

  /** The number of a turn marker reads back. */
  lemma {:induction false} DecimalReads(n: nat)
    ensures DigitsRead(Decimal(n)) == n
    decreases n
  {
    if n < 10 {
      ReadsOneMoreDigit("", n);
      assert Decimal(n) == "" + [Digit(n)];
    } else {
      DecimalReads(n / 10);
      ReadsOneMoreDigit(Decimal(n / 10), n % 10);
    }
  }

  /** What a marker says: the stored turn number or, for rows without one, the place in the dialogue, and
      the action, where rows without one count as replies. */
  lemma MarkerTells(a: Answer, i: nat) returns (number: string, word: string)
    requires a.turn >= 0
    ensures Marker(a, i) == "[Candidate Turn " + number + " (" + word + ")]: "
    ensures DigitsRead(number) == if a.turn == 0 then i + 1 else a.turn
    ensures word == if a.action == Advance then "advance" else if a.action.Other? then a.action.text else "reply"
  {
    number, word := Decimal(if a.turn == 0 then i + 1 else a.turn), ActionName(a.action);
    DecimalReads(if a.turn == 0 then i + 1 else a.turn);
  }

  /** Exactly when the one answer of a topic stands without a marker. */
  lemma UnmarkedExactly(a: Answer)
    ensures Render([a]) == a.content <==> a.turn <= 1 && (a.action == NoAction || a.action == Advance)
  {
    if !Plain([a]) {
      assert Lines([a][..0]) == "" && Lines([a]) == "" + Separator(0) + Line(a, 0);
      assert |Lines([a])| > |a.content|;
    }
  }

  /** The content stands in the text at `pos`, right after the marker. */
  predicate StandsAt(text: string, marker: string, content: string, pos: nat) {
    && |marker| <= pos && pos + |content| <= |text|
    && text[pos - |marker|..pos] == marker
    && text[pos..pos + |content|] == content
  }

  predicate AllStand(text: string, markers: seq<string>, contents: seq<string>, at: seq<nat>)
    requires |at| == |contents| == |markers|
  {
    forall i | 0 <= i < |at| :: StandsAt(text, markers[i], contents[i], at[i])
  }

  /** Every content ends before the marker of any later one starts. */
  predicate Apart(markers: seq<string>, contents: seq<string>, at: seq<nat>)
    requires |at| == |contents| == |markers|
  {
    forall i, j | 0 <= i < j < |at| :: at[i] + |contents[i]| < at[j] - |markers[j]|
  }

  lemma StillStands(text: string, more: string, marker: string, content: string, pos: nat)
    requires StandsAt(text, marker, content, pos)
    ensures StandsAt(text + more, marker, content, pos)
  {
    assert (text + more)[pos - |marker|..pos] == text[pos - |marker|..pos];
    assert (text + more)[pos..pos + |content|] == text[pos..pos + |content|];
  }

  lemma LastStands(before: string, marker: string, content: string)
    ensures StandsAt(before + (marker + content), marker, content, |before| + |marker|)
  {
    var text, pos := before + (marker + content), |before| + |marker|;
    assert text == before + marker + content;
    assert text[|before|..pos] == marker;
    assert text[pos..] == content;
  }

  /** What stood before another line is added stands, and so does the new content. */
  lemma OneMoreStands(text: string, more: string, markers: seq<string>, contents: seq<string>, at: seq<nat>,
                      marker: string, content: string)
    requires |at| == |contents| == |markers| && AllStand(text, markers, contents, at)
    ensures AllStand(text + more + (marker + content), markers + [marker], contents + [content],
                     at + [|text + more| + |marker|])
  {
    var rest := more + (marker + content);
    LastStands(text + more, marker, content);
    forall i | 0 <= i < |at| ensures StandsAt(text + rest, markers[i], contents[i], at[i]) {
      StillStands(text, rest, markers[i], contents[i], at[i]);
    }
    assert text + rest == text + more + (marker + content);
  }

  /** The new content stands apart from the others. */
  lemma OneMoreApart(text: string, more: string, markers: seq<string>, contents: seq<string>, at: seq<nat>,
                     marker: string, content: string)
    requires |at| == |contents| == |markers| && AllStand(text, markers, contents, at)
    requires Apart(markers, contents, at) && (at == [] || more != "")
    ensures Apart(markers + [marker], contents + [content], at + [|text + more| + |marker|])
  {
    forall i | 0 <= i < |at| ensures at[i] + |contents[i]| <= |text| {
      assert StandsAt(text, markers[i], contents[i], at[i]);
    }
  }

  /** All contents stand in the text at `at`, in order, each after its marker and apart from the others. */
  predicate StandIn(text: string, markers: seq<string>, contents: seq<string>, at: seq<nat>) {
    |at| == |contents| == |markers| && AllStand(text, markers, contents, at) && Apart(markers, contents, at)
  }

  /** The contents stand in the text somewhere, as `StandIn` asks. */
  ghost predicate Holds(text: string, markers: seq<string>, contents: seq<string>) {
    exists at: seq<nat> :: StandIn(text, markers, contents, at)
  }

  lemma AnotherLine(text: string, more: string, markers: seq<string>, contents: seq<string>, marker: string, content: string)
    requires Holds(text, markers, contents) && (markers == [] || more != "")
    ensures Holds(text + more + (marker + content), markers + [marker], contents + [content])
  {
    var at: seq<nat> :| StandIn(text, markers, contents, at);
    OneMoreStands(text, more, markers, contents, at, marker, content);
    OneMoreApart(text, more, markers, contents, at, marker, content);
    assert StandIn(text + more + (marker + content), markers + [marker], contents + [content],
                   at + [|text + more| + |marker|]);
  }

  lemma Snoc<T>(s: seq<T>)
    requires s != []
    ensures s[..|s| - 1] + [s[|s| - 1]] == s
  {}

  function Joined(markers: seq<string>, contents: seq<string>): string
    requires |markers| == |contents|
  {
    if markers == [] then ""
    else
      var n := |markers| - 1;
      Joined(markers[..n], contents[..n]) + Separator(n) + (markers[n] + contents[n])
  }

  lemma {:induction false} JoinedHoldsAll(markers: seq<string>, contents: seq<string>)
    requires |markers| == |contents|
    ensures Holds(Joined(markers, contents), markers, contents)
  {
    if markers == [] {
      assert StandIn("", markers, contents, []);
    } else {
      var n := |markers| - 1;
      JoinedHoldsAll(markers[..n], contents[..n]);
      AnotherLine(Joined(markers[..n], contents[..n]), Separator(n), markers[..n], contents[..n], markers[n], contents[n]);
      Snoc(markers);
      Snoc(contents);
    }
  }

  function Markers(group: seq<Answer>): (r: seq<string>)
    ensures |r| == |group|
  {
    seq(|group|, i requires 0 <= i < |group| => Marker(group[i], i))
  }

  function Contents(group: seq<Answer>): (r: seq<string>)
    ensures |r| == |group|
  {
    seq(|group|, i requires 0 <= i < |group| => group[i].content)
  }

  lemma {:induction false} LinesAreJoined(group: seq<Answer>)
    ensures Lines(group) == Joined(Markers(group), Contents(group))
  {
    if group != [] {
      var n := |group| - 1;
      LinesAreJoined(group[..n]);
      assert Markers(group)[..n] == Markers(group[..n]) && Contents(group)[..n] == Contents(group[..n]);
    }
  }

  predicate Stands(text: string, group: seq<Answer>, at: seq<nat>) {
    StandIn(text, Markers(group), Contents(group), at)
  }

  /** No turn is lost: the rendering of any group holds the content of every answer. */
  lemma RenderingHoldsEveryTurn(group: seq<Answer>) returns (at: seq<nat>)
    ensures Stands(Lines(group), group, at)
  {
    LinesAreJoined(group);
    JoinedHoldsAll(Markers(group), Contents(group));
    at :| StandIn(Lines(group), Markers(group), Contents(group), at);
  }

  /** The answer text for a group: a plain answer is its content, a dialogue holds every turn. */
  ghost predicate Reads(text: string, group: seq<Answer>) {
    if Plain(group) then text == group[0].content else exists at: seq<nat> :: Stands(text, group, at)
  }

  ghost predicate Tells(p: Pair, q: Question, group: seq<Answer>) {
    p.idx == q.idx && p.category == q.category && p.question == q.content && Reads(p.answer, group)
  }

  lemma PairTells(q: Question, group: seq<Answer>)
    ensures Tells(PairOf(Topic(q, group)), q, group)
  {
    if !Plain(group) {
      var at := RenderingHoldsEveryTurn(group);
    }
  }

  /** Each answered question among the first k has a pair that tells its answers. */
  ghost predicate Told(pairs: seq<Pair>, qs: seq<Question>, k: nat, answers: seq<Answer>)
    requires k <= |qs|
  {
    forall i: nat | i < k && Answered(answers, i + 1) :: ToldIn(pairs, qs[i], TopicAnswers(answers, i + 1))
  }

  ghost predicate ToldIn(pairs: seq<Pair>, q: Question, group: seq<Answer>) {
    exists x | 0 <= x < |pairs| :: Tells(pairs[x], q, group)
  }

  /** The pairs are of answered questions among the first k, in order and one for each. */
  predicate NothingElse(pairs: seq<Pair>, k: nat, answers: seq<Answer>) {
    && (forall x | 0 <= x < |pairs| :: 1 <= pairs[x].idx <= k && Answered(answers, pairs[x].idx))
    && (forall x, y | 0 <= x < y < |pairs| :: pairs[x].idx < pairs[y].idx)
  }

  lemma StillTold(pairs: seq<Pair>, more: seq<Pair>, q: Question, group: seq<Answer>)
    requires ToldIn(pairs, q, group)
    ensures ToldIn(pairs + more, q, group)
  {
    var x :| 0 <= x < |pairs| && Tells(pairs[x], q, group);
    assert (pairs + more)[x] == pairs[x];
  }

  /** `last` is the one pair of the k-th question, if it was answered. */
  ghost predicate TellsLast(last: seq<Pair>, qs: seq<Question>, k: nat, answers: seq<Answer>)
    requires 0 < k <= |qs|
  {
    if Answered(answers, k) then |last| == 1 && Tells(last[0], qs[k - 1], TopicAnswers(answers, k)) else last == []
  }

  lemma PairAtTells(qs: seq<Question>, k: nat, answers: seq<Answer>) returns (last: seq<Pair>)
    requires 0 < k <= |qs|
    ensures last == PairAt(qs, k, answers) && TellsLast(last, qs, k, answers)
  {
    last := PairAt(qs, k, answers);
    if Answered(answers, k) {
      PairTells(qs[k - 1], TopicAnswers(answers, k));
    }
  }

  lemma OneMoreTold(before: seq<Pair>, last: seq<Pair>, qs: seq<Question>, k: nat, answers: seq<Answer>)
    requires 0 < k <= |qs| && Told(before, qs, k - 1, answers) && TellsLast(last, qs, k, answers)
    ensures Told(before + last, qs, k, answers)
  {
    forall i: nat | i < k && Answered(answers, i + 1)
      ensures ToldIn(before + last, qs[i], TopicAnswers(answers, i + 1))
    {
      if i < k - 1 {
        StillTold(before, last, qs[i], TopicAnswers(answers, i + 1));
      } else {
        assert (before + last)[|before|] == last[0];
      }
    }
  }

  lemma OneMoreInOrder(before: seq<Pair>, last: seq<Pair>, qs: seq<Question>, k: nat, answers: seq<Answer>)
    requires 0 < k <= |qs| && qs[k - 1].idx == k
    requires NothingElse(before, k - 1, answers) && TellsLast(last, qs, k, answers)
    ensures NothingElse(before + last, k, answers)
  {}

  ghost predicate TellsExactly(pairs: seq<Pair>, qs: seq<Question>, k: nat, answers: seq<Answer>)
    requires k <= |qs|
  {
    Told(pairs, qs, k, answers) && NothingElse(pairs, k, answers)
  }

  lemma OneMorePairTells(before: seq<Pair>, last: seq<Pair>, qs: seq<Question>, k: nat, answers: seq<Answer>)
    requires 0 < k <= |qs| && qs[k - 1].idx == k
    requires TellsExactly(before, qs, k - 1, answers) && TellsLast(last, qs, k, answers)
    ensures TellsExactly(before + last, qs, k, answers)
  {
    OneMoreTold(before, last, qs, k, answers);
    OneMoreInOrder(before, last, qs, k, answers);
  }

  lemma {:induction false} PairsUpToTell(qs: seq<Question>, k: nat, answers: seq<Answer>) returns (pairs: seq<Pair>)
    requires Numbered(qs) && k <= |qs|
    ensures pairs == PairsUpTo(qs, k, answers) && TellsExactly(pairs, qs, k, answers)
    decreases k
  {
    if k == 0 {
      pairs := [];
    } else {
      var before := PairsUpToTell(qs, k - 1, answers);
      var last := PairAtTells(qs, k, answers);
      OneMorePairTells(before, last, qs, k, answers);
      pairs := before + last;
    }
  }

  /** The evaluator reads everything and nothing else: for questions numbered 1..n and any answers, every
      answered question has its one pair, in order, with its category and its text, and the answer text
      holds every answer given to it. */
  lemma TranscriptTellsAll(questions: seq<Question>, answers: seq<Answer>)
    requires Numbered(questions)
    ensures Told(Pairs(questions, answers), questions, |questions|, answers)
    ensures NothingElse(Pairs(questions, answers), |questions|, answers)
  {
    PairsByPlace(questions, |questions|, |questions|, answers);
    assert questions[..|questions|] == questions;
    var pairs := PairsUpToTell(questions, |questions|, answers);
  }

  lemma {:induction false} InItsTopic(answers: seq<Answer>, a: Answer)
    requires a in answers
    ensures a in TopicAnswers(answers, a.idx)
  {
    var last := |answers| - 1;
    if answers[last] != a {
      assert answers == answers[..last] + [answers[last]];
      InItsTopic(answers[..last], a);
    }
  }

  /** The text holds the content at `pos`. */
  predicate HoldsAt(text: string, content: string, pos: nat) {
    pos + |content| <= |text| && text[pos..pos + |content|] == content
  }

  lemma PlainHolds(text: string, a: Answer)
    requires text == a.content
    ensures HoldsAt(text, a.content, 0)
  {}

  lemma TurnHolds(text: string, group: seq<Answer>, at: seq<nat>, i: nat)
    requires Stands(text, group, at) && i < |group|
    ensures HoldsAt(text, group[i].content, at[i])
  {
    assert StandsAt(text, Markers(group)[i], Contents(group)[i], at[i]);
  }

  lemma ReadsHolds(text: string, group: seq<Answer>, i: nat) returns (pos: nat)
    requires Reads(text, group) && i < |group|
    ensures HoldsAt(text, group[i].content, pos)
  {
    if Plain(group) {
      PlainHolds(text, group[i]);
      pos := 0;
    } else {
      var at: seq<nat> :| Stands(text, group, at);
      TurnHolds(text, group, at, i);
      pos := at[i];
    }
  }

  /** Every in-range answer stands, word for word, in the pair with its number. */
  lemma EveryAnswerIsRead(questions: seq<Question>, answers: seq<Answer>, a: Answer) returns (p: Pair, pos: nat)
    requires Numbered(questions) && a in answers && 1 <= a.idx <= |questions|
    ensures p in Pairs(questions, answers) && p.idx == a.idx && p.question == questions[a.idx - 1].content
    ensures HoldsAt(p.answer, a.content, pos)
  {
    InItsTopic(answers, a);
    p := PairOfQuestion(questions, answers, a.idx - 1);
    var group := TopicAnswers(answers, a.idx);
    var i: nat :| i < |group| && group[i] == a;
    pos := ReadsHolds(p.answer, group, i);
  }

  lemma PairOfQuestion(questions: seq<Question>, answers: seq<Answer>, place: nat) returns (p: Pair)
    requires Numbered(questions) && place < |questions| && Answered(answers, place + 1)
    ensures p in Pairs(questions, answers) && Tells(p, questions[place], TopicAnswers(answers, place + 1))
  {
    TranscriptTellsAll(questions, answers);
    var pairs := Pairs(questions, answers);
    assert ToldIn(pairs, questions[place], TopicAnswers(answers, place + 1));
    var x :| 0 <= x < |pairs| && Tells(pairs[x], questions[place], TopicAnswers(answers, place + 1));
    p := pairs[x];
  }
}
