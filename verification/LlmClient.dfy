/** The provider client with retry, backoff and fallback (backend/internal/llm/client.go). What each
    provider call returns, and where the caller's context ends a wait, is a script. */
module LlmClient {
  import opened Prelude
  import opened TokenLedger

  const CHAT_ESTIMATE: int := 500
  const STREAM_ESTIMATE: int := 1500

  datatype Error = RateLimitedError | Upstream | StructuredParse | Cancelled | StoreError | Other(code: nat)

  predicate Retryable(e: Error) { e == RateLimitedError || e == Upstream }

  /** A response, or a stream, and the tokens it says it used. */
  datatype Outcome = Success(answer: nat, prompt: int, completion: int) | Failure(error: Error)

  predicate Again(o: Outcome) { o.Failure? && Retryable(o.error) }

  /** One call of CheckAndRecord: the client's clock and what becomes of the request. */
  datatype Trip = Trip(now: int, wire: Wire)

  datatype Script = Script(
    primary: nat -> Outcome,
    primaryInterrupted: nat -> bool,
    fallback: nat -> Outcome,
    fallbackInterrupted: nat -> bool,
    preCharge: Trip,
    trueUp: Trip,
    live: bool)

  /** Provider calls made and seconds of completed backoff. */
  datatype Effort = Effort(primary: nat, fallback: nat, waited: nat)

  function Pow2(n: nat): (p: nat) ensures p > 0 { if n == 0 then 1 else 2 * Pow2(n - 1) }

  function LedgerError(r: Reply): Error
    requires r != Accepted
  {
    if r == Reply.RateLimited then RateLimitedError else StoreError
  }

  function Max(a: int, b: int): int { if a < b then b else a }

  /** The counters after the true-up of an answered Chat. */
  function TrueUp(c: Counters, cap: int, org: nat, s: Script, o: Outcome): Counters {
    if o.Success? && s.live && o.prompt + o.completion > CHAT_ESTIMATE
    then Charge(c, cap, s.trueUp.now, s.trueUp.wire, org, o.prompt + o.completion - CHAT_ESTIMATE).1
    else c
  }

  /** k calls of one provider end a retry loop: every earlier one failed in a way worth retrying, and
      this one did not, or was the last allowed, or the wait after it was cut short. */
  ghost predicate Ends(script: nat -> Outcome, interrupted: nat -> bool, max: nat, k: nat, o: Outcome) {
    && 1 <= k <= max
    && (forall i: nat | i + 1 < k :: Again(script(i)) && !interrupted(i))
    && (if k < max && Again(script(k - 1)) then interrupted(k - 1) && o == Failure(Cancelled) else o == script(k - 1))
  }

  type Positive = n: int | n > 0 witness 1

  class Client {
    const maxRetries: Positive
    const hasFallback: bool
    const ledger: RedisTokenLedger?

    constructor (hasFallback: bool, ledger: RedisTokenLedger?, maxRetries: int)
      ensures this.hasFallback == hasFallback && this.ledger == ledger
      ensures this.maxRetries == if maxRetries <= 0 then 3 else maxRetries
    {
      this.hasFallback := hasFallback;
      this.ledger := ledger;
      this.maxRetries := if maxRetries <= 0 then 3 else maxRetries;
    }

    /** A request is metered when there is a ledger and the request names an organisation. */
    predicate Metered(org: Option<nat>)
      ensures Metered(org) ==> ledger != null
    {
      ledger != null && org.Some?
    }

    method Retry(script: nat -> Outcome, interrupted: nat -> bool) returns (o: Outcome, k: nat, waited: nat)
      ensures Ends(script, interrupted, maxRetries, k, o)
      ensures waited == Pow2(k - 1) - 1
    {
      k, waited := 0, 0;
      while true
        invariant k < maxRetries && waited == Pow2(k) - 1
        invariant forall i: nat | i < k :: Again(script(i)) && !interrupted(i)
        decreases maxRetries - k
      {
        o := script(k);
        k := k + 1;
        if !Again(o) || k == maxRetries {
          return;
        }
        if interrupted(k - 1) {
          o := Failure(Cancelled);
          return;
        }
        waited := waited + Pow2(k - 1);
      }
    }

    /** The charge made before any provider is called; an error of any kind refuses the request. */
    method PreCharge(org: Option<nat>, estimate: int, trip: Trip) returns (reply: Reply)
      modifies ledger
      ensures !Metered(org) ==> reply == Accepted && (ledger != null ==> unchanged(ledger))
      ensures Metered(org) ==>
                (reply, ledger.counters) ==
                Charge(old(ledger.counters), ledger.dailyCap, trip.now, trip.wire, org.value, estimate)
    {
      reply := Accepted;
      if Metered(org) {
        reply := ledger.CheckAndRecord(trip.now, trip.wire, org.value, estimate);
      }
    }

    method Chat(org: Option<nat>, s: Script) returns (r: Outcome, e: Effort, ghost pre: Reply)
      modifies ledger
      // a refused charge calls nobody
      ensures !Metered(org) ==> pre == Accepted && (ledger != null ==> unchanged(ledger))
      ensures Metered(org) ==>
                pre == Charge(old(ledger.counters), ledger.dailyCap, s.preCharge.now, s.preCharge.wire, org.value,
                              CHAT_ESTIMATE).0
      ensures pre != Accepted ==> r == Failure(LedgerError(pre)) && e == Effort(0, 0, 0)
      // the primary is retried on retryable failures only, with doubling waits
      ensures pre == Accepted ==>
                exists o :: Ends(s.primary, s.primaryInterrupted, maxRetries, e.primary, o)
                         && r == if e.fallback > 0 then s.fallback(0) else o
      ensures pre == Accepted ==> e.waited == Pow2(e.primary - 1) - 1
      // the fallback is asked once, and only after a retryable last failure that was not cut short
      ensures e.fallback <= 1
      ensures pre == Accepted ==>
                (e.fallback == 1 <==>
                 hasFallback && e.primary == maxRetries && Again(s.primary(e.primary - 1)))
      // the ledger holds the estimate, trued up to what the answer used
      ensures Metered(org) ==>
                ledger.counters ==
                var c := Charge(old(ledger.counters), ledger.dailyCap, s.preCharge.now, s.preCharge.wire, org.value,
                                CHAT_ESTIMATE).1;
                if pre == Accepted then TrueUp(c, ledger.dailyCap, org.value, s, r) else c
    {
      var reply := PreCharge(org, CHAT_ESTIMATE, s.preCharge);
      pre := reply;
      if reply != Accepted {
        return Failure(LedgerError(reply)), Effort(0, 0, 0), reply;
      }
      var k, waited;
      r, k, waited := Retry(s.primary, s.primaryInterrupted);
      ghost var last := r;
      e := Effort(k, 0, waited);
      if Again(r) && hasFallback {
        r := s.fallback(0);
        e := Effort(k, 1, waited);
      }
      assert Ends(s.primary, s.primaryInterrupted, maxRetries, e.primary, last);
      if r.Success? && Metered(org) {
        var diff := r.prompt + r.completion - CHAT_ESTIMATE;
        if diff > 0 {
          if s.live {
            var ignored := ledger.CheckAndRecord(s.trueUp.now, s.trueUp.wire, org.value, diff);
          }
        }
      }
    }

    method ChatStream(org: Option<nat>, s: Script) returns (r: Outcome, e: Effort, ghost pre: Reply)
      modifies ledger
      ensures !Metered(org) ==> pre == Accepted && (ledger != null ==> unchanged(ledger))
      ensures Metered(org) ==>
                (pre, ledger.counters) ==
                Charge(old(ledger.counters), ledger.dailyCap, s.preCharge.now, s.preCharge.wire, org.value,
                       STREAM_ESTIMATE)
      ensures pre != Accepted ==> r == Failure(LedgerError(pre)) && e == Effort(0, 0, 0)
      ensures e.primary + e.fallback <= 2 * maxRetries
      ensures pre == Accepted ==>
                exists o :: Ends(s.primary, s.primaryInterrupted, maxRetries, e.primary, o)
                         && (e.fallback == 0 ==> r == o)
      ensures e.fallback > 0 ==> Ends(s.fallback, s.fallbackInterrupted, maxRetries, e.fallback, r)
      ensures pre == Accepted ==>
                (e.fallback > 0 <==>
                 hasFallback && e.primary == maxRetries && Again(s.primary(e.primary - 1)))
      ensures pre == Accepted ==>
                e.waited == Pow2(e.primary - 1) - 1 + if e.fallback > 0 then Pow2(e.fallback - 1) - 1 else 0
    {
      var reply := PreCharge(org, STREAM_ESTIMATE, s.preCharge);
      pre := reply;
      if reply != Accepted {
        return Failure(LedgerError(reply)), Effort(0, 0, 0), reply;
      }
      var k, waited;
      r, k, waited := Retry(s.primary, s.primaryInterrupted);
      ghost var last := r;
      e := Effort(k, 0, waited);
      if Again(r) && hasFallback {
        var k', waited';
        r, k', waited' := Retry(s.fallback, s.fallbackInterrupted);
        e := Effort(k, k', waited + waited');
      }
      assert Ends(s.primary, s.primaryInterrupted, maxRetries, e.primary, last);
    }
  }

  // --------------------------------------------------------------- consequences

  /** The provider is called k times exactly when the first k - 1 calls failed retryably and were waited
      out, and a permanent error or a success among them is the outcome, whatever would have followed. */
  lemma FirstFinalAnswerWins(
      script: nat -> Outcome, interrupted: nat -> bool, max: nat, k: nat, o: Outcome, i: nat)
    requires Ends(script, interrupted, max, k, o) && i < max
    requires script(i).Failure? ==> script(i).error !in {RateLimitedError, Upstream}
    ensures k <= i + 1
    ensures (forall j: nat | j < i :: Again(script(j)) && !interrupted(j)) <==> k == i + 1
    ensures k == i + 1 ==> o == script(i)
  {
  }

  /** The waits double: those of m + n calls are those of m, and those of n stretched by what m doublings make. */
  lemma {:induction false} WaitsDouble(m: nat, n: nat)
    ensures Pow2(m + n) - 1 == Pow2(m) - 1 + Pow2(m) * (Pow2(n) - 1) && Pow2(1) == 2
    decreases n
  {
    if n > 0 {
      WaitsDouble(m, n - 1);
      assert Pow2(m + n) == 2 * Pow2(m + n - 1);
    }
  }

  /** A refused request is reported as rate limited exactly when the ledger answered; otherwise its store failed. */
  lemma RefusalIsNamed(cap: int, calls: seq<Call>, i: nat)
    requires cap > 0 && Ordinary(calls) && i < |calls| && ReplyTo(cap, calls, i) != Accepted
    ensures LedgerError(ReplyTo(cap, calls, i)) in {RateLimitedError, StoreError}
    ensures LedgerError(ReplyTo(cap, calls, i)) == RateLimitedError <==> calls[i].wire == Answered
  {
    ReplyIsBySpending(cap, calls, i);
  }

  /** A provider that is rate limited or failing is called as often as is allowed, as long as no wait is cut
      short, and its last failure is the outcome. */
  lemma FailuresAreRetriedToTheEnd(
      script: nat -> Outcome, interrupted: nat -> bool, max: nat, k: nat, o: Outcome)
    requires Ends(script, interrupted, max, k, o)
    requires forall i: nat | i < max :: script(i) in {Failure(RateLimitedError), Failure(Upstream)} && !interrupted(i)
    ensures k == max && o == script(max - 1)
  {}

  /** The backoff is cut short only by the caller's context: the outcome is the cancellation exactly when the
      last call was worth another and the wait after it was interrupted. */
  lemma CancelledExactly(script: nat -> Outcome, interrupted: nat -> bool, max: nat, k: nat, o: Outcome)
    requires Ends(script, interrupted, max, k, o) && script(k - 1) != Failure(Cancelled)
    ensures o == Failure(Cancelled) <==>
            k < max && interrupted(k - 1) && script(k - 1) in {Failure(RateLimitedError), Failure(Upstream)}
  {}

  /** An answered Chat raises the organisation's counter of the day by max(500, tokens used), exactly
      when the estimate covered them or the true-up reached the store the same day with a live context;
      it does not matter whether the true-up itself was over the cap. */
  lemma ChatChargesWhatItUsed(c: Counters, last: int, cap: int, org: nat, s: Script, o: Outcome)
    requires cap > 0 && Dated(c, last) && last <= s.preCharge.now <= s.trueUp.now && o.Success?
    requires Charge(c, cap, s.preCharge.now, s.preCharge.wire, org, CHAT_ESTIMATE).0 == Accepted
    ensures var day, used := DayOf(s.preCharge.now), o.prompt + o.completion;
            var c1 := Charge(c, cap, s.preCharge.now, s.preCharge.wire, org, CHAT_ESTIMATE).1;
            Held(TrueUp(c1, cap, org, s, o), Key(org, day)) == Held(c, Key(org, day)) + Max(CHAT_ESTIMATE, used) <==>
            used <= CHAT_ESTIMATE || (s.live && s.trueUp.wire != RequestLost && DayOf(s.trueUp.now) == day)
  {
    var day, used := DayOf(s.preCharge.now), o.prompt + o.completion;
    var c1 := Charge(c, cap, s.preCharge.now, s.preCharge.wire, org, CHAT_ESTIMATE).1;
    RecordKeepsDated(c, last, s.preCharge.now, Key(org, day), CHAT_ESTIMATE);
    if used > CHAT_ESTIMATE {
      RecordKeepsDated(c1, s.preCharge.now, s.trueUp.now, Key(org, DayOf(s.trueUp.now)), used - CHAT_ESTIMATE);
    }
  }

  /** The same among any other charges, those of other Chats included: wherever in the history the
      pre-charge and the true-up of a Chat stand, the counter of its day holds max(500, used) beside what
      all other charges left there, exactly when the true-up was recorded the same day. */
  lemma InterleavedChatChargesWhatItUsed(cap: int, calls: seq<Call>, i: nat, j: nat, used: int)
    requires cap > 0 && Ordinary(calls) && i < j < |calls| && calls[j].org == calls[i].org
    requires calls[i].tokens == CHAT_ESTIMATE && calls[i].wire != RequestLost && calls[j].tokens == used - CHAT_ESTIMATE
    ensures var org, day := calls[i].org, DayOf(calls[i].now);
            var others := calls[..i] + calls[i + 1..j] + calls[j + 1..];
            Held(After(cap, calls), Key(org, day)) == Spent(others, org, day) + Max(CHAT_ESTIMATE, used) <==>
            calls[j].wire != RequestLost && DayOf(calls[j].now) == day
  {
    var org, day := calls[i].org, DayOf(calls[i].now);
    CountersTrack(cap, calls);
    SpentWithout(calls, j, org, day);
    SpentWithout(calls[..j] + calls[j + 1..], i, org, day);
    var once := calls[..j] + calls[j + 1..];
    assert once[..i] + once[i + 1..] == calls[..i] + calls[i + 1..j] + calls[j + 1..];
  }

  /** A Chat that needs no true-up leaves its estimate, among any other charges. */
  lemma InterleavedChatLeavesItsEstimate(cap: int, calls: seq<Call>, i: nat)
    requires cap > 0 && Ordinary(calls) && i < |calls|
    requires calls[i].tokens == CHAT_ESTIMATE && calls[i].wire != RequestLost
    ensures var org, day := calls[i].org, DayOf(calls[i].now);
            Held(After(cap, calls), Key(org, day)) == Spent(calls[..i] + calls[i + 1..], org, day) + CHAT_ESTIMATE
  {
    CountersTrack(cap, calls);
    SpentWithout(calls, i, calls[i].org, DayOf(calls[i].now));
  }

  /** After one refusal no later request of the organisation that day reaches a provider: its pre-charge
      is not accepted, whichever estimate it makes. */
  lemma RefusalStopsTheDay(cap: int, calls: seq<Call>, i: nat, trip: Trip, estimate: int)
    requires cap > 0 && estimate > 0 && i < |calls|
    requires Ordinary(calls) && calls[|calls| - 1].now <= trip.now
    requires ReplyTo(cap, calls, i) == Reply.RateLimited && DayOf(trip.now) == DayOf(calls[i].now)
    ensures Charge(After(cap, calls), cap, trip.now, trip.wire, calls[i].org, estimate).0 != Accepted
  {
    var next := calls + [Call(trip.now, trip.wire, calls[i].org, estimate)];
    assert next[..|calls|] == calls && next[..i] == calls[..i];
    RefusalIsFinalForTheDay(cap, next, i, |calls|);
  }
}
