/** The daily token ledger (backend/internal/llm/token_ledger.go). Time is in seconds; the day of a
    charge is the client's calendar day. The Lua script is one atomic step. */
module TokenLedger {
  import opened Prelude

  const DAY: int := 24 * 60 * 60
  const TTL: int := 48 * 60 * 60

  datatype Key = Key(org: nat, day: int)

  /** A counter and the instant it disappears, if it has a TTL. */
  datatype Counter = Counter(value: int, expires: Option<int>)

  type Counters = map<Key, Counter>

  datatype Reply = Accepted | RateLimited | Failed

  function DayOf(now: int): int { now / DAY }

  predicate Present(c: Counters, now: int, k: Key) {
    k in c && (c[k].expires.Some? ==> now < c[k].expires.value)
  }

  function Value(c: Counters, now: int, k: Key): int {
    if Present(c, now, k) then c[k].value else 0
  }

  /** recordUsageScript: INCRBY keeps a TTL, and the first charge sets it. */
  function Record(c: Counters, now: int, k: Key, tokens: int): (int, Counters) {
    var value := Value(c, now, k) + tokens;
    var expires := if value == tokens then Some(now + TTL) else if Present(c, now, k) then c[k].expires else None;
    (value, c[k := Counter(value, expires)])
  }

  function Charge(c: Counters, cap: int, now: int, wire: Wire, org: nat, tokens: int): (Reply, Counters) {
    if cap <= 0 then (Accepted, c)
    else if wire == RequestLost then (Failed, c)
    else
      var (value, c') := Record(c, now, Key(org, DayOf(now)), tokens);
      (if wire == ReplyLost then Failed else if value > cap then RateLimited else Accepted, c')
  }

  class RedisTokenLedger {
    const dailyCap: int
    var counters: Counters

    constructor (dailyCap: int)
      ensures this.dailyCap == dailyCap && counters == map[]
    {
      this.dailyCap := dailyCap;
      counters := map[];
    }

    method CheckAndRecord(now: int, wire: Wire, org: nat, tokens: int) returns (r: Reply)
      modifies this
      ensures (r, counters) == Charge(old(counters), dailyCap, now, wire, org, tokens)
    {
      if dailyCap <= 0 {
        return Accepted;
      }
      var key := Key(org, DayOf(now));
      if wire == RequestLost {
        return Failed;
      }
      var val, next := Record(counters, now, key, tokens).0, Record(counters, now, key, tokens).1;
      counters := next;
      if wire == ReplyLost {
        return Failed;
      }
      if val > dailyCap {
        return RateLimited;
      }
      return Accepted;
    }
  }

  // --------------------------------------------------------------- histories

  datatype Call = Call(now: int, wire: Wire, org: nat, tokens: int)

  /** The counters after a history, from an empty store. */
  function After(cap: int, calls: seq<Call>): Counters {
    if calls == [] then map[]
    else
      var n := |calls| - 1;
      Charge(After(cap, calls[..n]), cap, calls[n].now, calls[n].wire, calls[n].org, calls[n].tokens).1
  }

  function ReplyTo(cap: int, calls: seq<Call>, i: nat): Reply
    requires i < |calls|
  {
    Charge(After(cap, calls[..i]), cap, calls[i].now, calls[i].wire, calls[i].org, calls[i].tokens).0
  }

  predicate For(call: Call, org: nat, day: int) { call.org == org && DayOf(call.now) == day }

  /** Tokens the server recorded for an organisation on a day. */
  function Spent(calls: seq<Call>, org: nat, day: int): int {
    if calls == [] then 0
    else
      var n := |calls| - 1;
      Spent(calls[..n], org, day) + if For(calls[n], org, day) && calls[n].wire != RequestLost then calls[n].tokens else 0
  }

  /** Tokens of the charges that came back without an error. */
  function Admitted(cap: int, calls: seq<Call>, org: nat, day: int): int {
    if calls == [] then 0
    else
      var n := |calls| - 1;
      Admitted(cap, calls[..n], org, day)
      + if For(calls[n], org, day) && ReplyTo(cap, calls, n) == Accepted then calls[n].tokens else 0
  }

  /** Positive charges, in time order. */
  predicate Ordinary(calls: seq<Call>) {
    && (forall i | 0 <= i < |calls| :: calls[i].tokens > 0)
    && (forall i, j | 0 <= i < j < |calls| :: calls[i].now <= calls[j].now)
  }

  /** Every counter is of a day that has begun, is positive, and outlives its day. */
  predicate Dated(c: Counters, now: int) {
    forall k | k in c ::
      k.day <= DayOf(now) && c[k].value > 0 && c[k].expires.Some? && c[k].expires.value >= (k.day + 2) * DAY
  }

  function Held(c: Counters, k: Key): int { if k in c then c[k].value else 0 }

  ghost predicate Counts(c: Counters, calls: seq<Call>) {
    forall org, day :: Held(c, Key(org, day)) == Spent(calls, org, day)
  }

  ghost predicate Tracks(c: Counters, calls: seq<Call>, now: int) { Dated(c, now) && Counts(c, calls) }

  /** A counter of the current day has not expired. */
  lemma TodayIsPresent(c: Counters, last: int, now: int, k: Key)
    requires Dated(c, last) && last <= now && k.day == DayOf(now)
    ensures Value(c, now, k) == Held(c, k) >= 0
    ensures k in c <==> Present(c, now, k)
  {}

  lemma SpentAppended(calls: seq<Call>, call: Call, org: nat, day: int)
    ensures Spent(calls + [call], org, day)
         == Spent(calls, org, day) + if For(call, org, day) && call.wire != RequestLost then call.tokens else 0
  {
    assert (calls + [call])[..|calls|] == calls;
  }

  /** What one call adds does not depend on the calls around it. */
  lemma {:induction false} SpentWithout(calls: seq<Call>, i: nat, org: nat, day: int)
    requires i < |calls|
    ensures Spent(calls, org, day)
         == Spent(calls[..i] + calls[i + 1..], org, day)
            + if For(calls[i], org, day) && calls[i].wire != RequestLost then calls[i].tokens else 0
  {
    var n := |calls| - 1;
    if i == n {
      assert calls[..i] + calls[i + 1..] == calls[..n];
    } else {
      SpentWithout(calls[..n], i, org, day);
      assert calls[..n][..i] + calls[..n][i + 1..] + [calls[n]] == calls[..i] + calls[i + 1..];
      SpentAppended(calls[..n][..i] + calls[..n][i + 1..], calls[n], org, day);
    }
  }

  lemma RecordKeepsDated(c: Counters, last: int, now: int, k: Key, tokens: int)
    requires Dated(c, last) && last <= now && k.day == DayOf(now) && tokens > 0
    ensures Dated(Record(c, now, k, tokens).1, now)
    ensures Record(c, now, k, tokens).0 == Held(c, k) + tokens
    ensures Held(Record(c, now, k, tokens).1, k) == Held(c, k) + tokens
  {
    TodayIsPresent(c, last, now, k);
    RecordOutlivesTheDay(c, last, now, k, tokens);
  }

  lemma TtlOutlivesTheDay(now: int)
    ensures now + TTL >= (DayOf(now) + 2) * DAY
  {}

  lemma DaysPass(last: int, now: int)
    requires last <= now
    ensures DayOf(last) <= DayOf(now)
  {}

  lemma RecordOutlivesTheDay(c: Counters, last: int, now: int, k: Key, tokens: int)
    requires Dated(c, last) && last <= now && k.day == DayOf(now) && tokens > 0
    ensures Dated(Record(c, now, k, tokens).1, now)
  {
    var c' := Record(c, now, k, tokens).1;
    TodayIsPresent(c, last, now, k);
    TtlOutlivesTheDay(now);
    DaysPass(last, now);
    forall j | j in c' && j != k ensures j in c && c'[j] == c[j] {}
  }

  /** The 48 h expiry never resets a counter within its own day: the counters always hold what was
      spent. */
  lemma {:induction false} CountersTrack(cap: int, calls: seq<Call>)
    requires cap > 0 && Ordinary(calls) && calls != []
    ensures Tracks(After(cap, calls), calls, calls[|calls| - 1].now)
  {
    var n := |calls| - 1;
    var last := if n > 0 then calls[n - 1].now else calls[n].now;
    var before := After(cap, calls[..n]);
    if n > 0 {
      CountersTrack(cap, calls[..n]);
    }
    assert Tracks(before, calls[..n], last);
    StepTracks(before, calls[..n], last, cap, calls[n]);
    assert calls[..n] + [calls[n]] == calls;
  }

  lemma StepTracks(c: Counters, calls: seq<Call>, last: int, cap: int, call: Call)
    requires cap > 0 && Tracks(c, calls, last) && last <= call.now && call.tokens > 0
    ensures Tracks(Charge(c, cap, call.now, call.wire, call.org, call.tokens).1, calls + [call], call.now)
  {
    var key := Key(call.org, DayOf(call.now));
    var c' := Charge(c, cap, call.now, call.wire, call.org, call.tokens).1;
    RecordKeepsDated(c, last, call.now, key, call.tokens);
    forall org, day ensures Held(c', Key(org, day)) == Spent(calls + [call], org, day) {
      SpentAppended(calls, call, org, day);
      assert For(call, org, day) <==> Key(org, day) == key;
    }
  }

  /** The reply is decided by what the organisation has spent that day, this charge included. */
  lemma ReplyIsBySpending(cap: int, calls: seq<Call>, i: nat)
    requires cap > 0 && Ordinary(calls) && i < |calls|
    ensures ReplyTo(cap, calls, i) ==
            if calls[i].wire != Answered then Failed
            else if Spent(calls[..i + 1], calls[i].org, DayOf(calls[i].now)) > cap then RateLimited
            else Accepted
  {
    if i > 0 {
      CountersTrack(cap, calls[..i]);
      TodayIsPresent(After(cap, calls[..i]), calls[i - 1].now, calls[i].now, Key(calls[i].org, DayOf(calls[i].now)));
    }
    assert calls[..i + 1][..i] == calls[..i];
  }

  lemma {:induction false} SpendingGrows(calls: seq<Call>, i: nat, org: nat, day: int)
    requires Ordinary(calls) && i <= |calls|
    ensures 0 <= Spent(calls[..i], org, day) <= Spent(calls, org, day)
    decreases |calls|
  {
    if i == |calls| {
      assert calls[..i] == calls;
      if calls != [] {
        SpendingGrows(calls[..|calls| - 1], |calls| - 1, org, day);
        assert calls[..|calls| - 1][..|calls| - 1] == calls[..|calls| - 1];
      }
    } else {
      SpendingGrows(calls[..|calls| - 1], i, org, day);
      assert calls[..|calls| - 1][..i] == calls[..i];
    }
  }

  lemma {:induction false} AdmittedWasSpent(cap: int, calls: seq<Call>, org: nat, day: int)
    requires cap > 0 && Ordinary(calls)
    ensures 0 <= Admitted(cap, calls, org, day) <= Spent(calls, org, day)
    ensures Admitted(cap, calls, org, day) <= cap
  {
    if calls != [] {
      var n := |calls| - 1;
      AdmittedWasSpent(cap, calls[..n], org, day);
      ReplyIsBySpending(cap, calls, n);
      assert calls[..n + 1] == calls;
    }
  }

  /** Ledger soundness, over every history of positive charges of any number of organisations: what was
      admitted for an organisation on a day never exceeds the cap. */
  lemma AdmittedStaysUnderTheCap(cap: int, calls: seq<Call>, org: nat, day: int)
    requires cap > 0 && Ordinary(calls)
    ensures Admitted(cap, calls, org, day) <= cap
  {
    AdmittedWasSpent(cap, calls, org, day);
  }

  /** One refusal ends the day: every later charge of the organisation that day that gets an answer is
      refused too. */
  lemma RefusalIsFinalForTheDay(cap: int, calls: seq<Call>, i: nat, j: nat)
    requires cap > 0 && Ordinary(calls) && i < j < |calls|
    requires For(calls[j], calls[i].org, DayOf(calls[i].now)) && ReplyTo(cap, calls, i) == RateLimited
    ensures ReplyTo(cap, calls, j) == if calls[j].wire == Answered then RateLimited else Failed
  {
    var org, day := calls[i].org, DayOf(calls[i].now);
    ReplyIsBySpending(cap, calls, i);
    ReplyIsBySpending(cap, calls, j);
    SpendingGrows(calls[..j + 1], i + 1, org, day);
    assert calls[..j + 1][..i + 1] == calls[..i + 1];
  }

  /** Without a cap nothing is refused and nothing is stored. */
  lemma {:induction false} NoCapNoLedger(cap: int, calls: seq<Call>)
    requires cap <= 0
    ensures After(cap, calls) == map[] && forall i: nat | i < |calls| :: ReplyTo(cap, calls, i) == Accepted
  {
    if calls != [] {
      NoCapNoLedger(cap, calls[..|calls| - 1]);
    }
  }

  /** The TTL is set by the first charge of the day that is recorded, and by no later one. */
  lemma {:induction false} FirstChargeSetsTheTtl(cap: int, calls: seq<Call>, i: nat)
    requires cap > 0 && Ordinary(calls) && i < |calls| && calls[i].wire != RequestLost
    requires forall j: nat | j < i :: !For(calls[j], calls[i].org, DayOf(calls[i].now)) || calls[j].wire == RequestLost
    ensures var k := Key(calls[i].org, DayOf(calls[i].now));
            k in After(cap, calls) && After(cap, calls)[k].expires == Some(calls[i].now + TTL)
    decreases |calls|
  {
    var n := |calls| - 1;
    var k := Key(calls[i].org, DayOf(calls[i].now));
    var before := calls[..n];
    if n > 0 {
      CountersTrack(cap, before);
    }
    if i == n {
      NothingSpent(before, k.org, k.day);
      assert Held(After(cap, before), k) == 0;
    } else {
      FirstChargeSetsTheTtl(cap, before, i);
      TtlKept(After(cap, before), cap, before[n - 1].now, calls[n], k);
    }
  }

  lemma {:induction false} NothingSpent(calls: seq<Call>, org: nat, day: int)
    requires forall j: nat | j < |calls| :: !For(calls[j], org, day) || calls[j].wire == RequestLost
    ensures Spent(calls, org, day) == 0
  {
    if calls != [] {
      NothingSpent(calls[..|calls| - 1], org, day);
    }
  }

  /** A positive charge leaves the TTL of every counter that is there. */
  lemma TtlKept(c: Counters, cap: int, last: int, call: Call, k: Key)
    requires cap > 0 && Dated(c, last) && last <= call.now && call.tokens > 0 && k in c
    ensures var c' := Charge(c, cap, call.now, call.wire, call.org, call.tokens).1; k in c' && c'[k].expires == c[k].expires
  {
    if k == Key(call.org, DayOf(call.now)) {
      TodayIsPresent(c, last, call.now, k);
    }
  }

  /** No counter stays: over any history, each lapses within its TTL of the end of its day. */
  lemma {:induction false} CountersLapse(cap: int, calls: seq<Call>, k: Key)
    requires k in After(cap, calls)
    ensures var expires := After(cap, calls)[k].expires; expires.Some? && expires.value < (k.day + 1) * DAY + TTL
  {
    var n := |calls| - 1;
    if k in After(cap, calls[..n]) {
      CountersLapse(cap, calls[..n], k);
    }
    DayHolds(calls[n].now);
  }

  lemma DayHolds(now: int)
    ensures now < (DayOf(now) + 1) * DAY
  {}
}
