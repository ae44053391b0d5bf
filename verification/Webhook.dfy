/** Delivering a webhook (backend/internal/integration/application/webhook_worker.go). The claim and the
    conditional update are the atomic statements of the repository
    (backend/internal/integration/infrastructure/persistence/postgres_webhook_repo.go). */
module Webhook {
  import opened Prelude

  const MAX_ATTEMPTS: nat := 3

  datatype Status = Pending | Delivered | Failed

  datatype Body = Text(id: nat) | ConfigRemoved

  datatype Row = Row(org: nat, webhook: nat, status: Status, attempts: nat, code: int, body: Body)

  /** What the POST comes to. */
  datatype Http = Unbuildable | TransportError | BodyUnreadable | Answer(code: int, body: nat)

  datatype Result = Done | SkipRetry | RetryLater

  predicate Claimable(r: Row) { r.status == Pending && r.attempts < MAX_ATTEMPTS }

  /** IncrementDeliveryAttempt. */
  function Claimed(r: Row): Row { if Claimable(r) then r.(attempts := r.attempts + 1) else r }

  /** UpdateDeliveryIfNotDelivered: the worker's copy overwrites the row unless it is delivered. */
  function Updated(stored: Row, copy: Row): Row {
    if stored.status == Delivered then stored
    else stored.(status := copy.status, attempts := copy.attempts, code := copy.code, body := copy.body)
  }

  predicate Ok(code: int) { 200 <= code < 300 }

  predicate Rejected(code: int) { 400 <= code < 500 }

  function LaterOrFailed(attempts: nat): Status { if attempts >= MAX_ATTEMPTS then Failed else Pending }

  /** The copy deliver stores, if it gets as far as storing one. */
  function Verdict(copy: Row, h: Http): Option<Row> {
    match h
    case Unbuildable => None
    case BodyUnreadable => None
    case TransportError => Some(copy.(status := LaterOrFailed(copy.attempts)))
    case Answer(code, body) =>
      var status := if Ok(code) then Delivered else if Rejected(code) then Failed else LaterOrFailed(copy.attempts);
      Some(copy.(status := status, code := code, body := Text(body)))
  }

  /** The deliveries and configurations of one database, and the worker's handler over them. */
  class WebhookWorker {
    var deliveries: map<nat, Row>
    var configs: set<nat>

    constructor (deliveries: map<nat, Row>, configs: set<nat>)
      ensures this.deliveries == deliveries && this.configs == configs
    {
      this.deliveries, this.configs := deliveries, configs;
    }

    method Persist(id: nat, copy: Row, wire: Wire) returns (updated: bool, err: bool)
      requires id in deliveries
      modifies this`deliveries
      ensures deliveries ==
              old(deliveries)[id := if wire == RequestLost then old(deliveries[id]) else Updated(old(deliveries[id]), copy)]
      ensures err <==> wire != Answered
      ensures !err ==> (updated <==> old(deliveries[id]).status != Delivered)
    {
      updated := false;
      if wire != RequestLost {
        updated := deliveries[id].status != Delivered;
        deliveries := deliveries[id := Updated(deliveries[id], copy)];
      }
      err := wire != Answered;
    }

    method Deliver(id: nat, claimed: Row, http: Http, wire: Wire) returns (r: Result)
      requires id in deliveries
      modifies this`deliveries
      ensures deliveries == old(deliveries)[id := Stored(old(deliveries[id]), claimed, http, wire)]
      ensures r == Next(old(deliveries[id]), claimed, http, wire)
    {
      var copy := claimed;
      if http == Unbuildable {
        return SkipRetry;
      }
      if http == TransportError {
        copy := copy.(status := Pending);
        if copy.attempts >= MAX_ATTEMPTS {
          copy := copy.(status := Failed);
        }
        var updated, err := Persist(id, copy, wire);
        if err {
          return RetryLater;
        }
        if !updated {
          return SkipRetry;
        }
        if copy.attempts >= MAX_ATTEMPTS {
          return SkipRetry;
        }
        return RetryLater;
      }
      if http == BodyUnreadable {
        return RetryLater;
      }
      copy := copy.(code := http.code, body := Text(http.body));
      if 200 <= http.code < 300 {
        copy := copy.(status := Delivered);
        var updated, err := Persist(id, copy, wire);
        if err {
          return RetryLater;
        }
        if !updated {
          return SkipRetry;
        }
        return Done;
      } else if 400 <= http.code < 500 {
        copy := copy.(status := Failed);
        var updated, err := Persist(id, copy, wire);
        if err {
          return RetryLater;
        }
        if !updated {
          return SkipRetry;
        }
        return SkipRetry;
      } else {
        copy := copy.(status := Pending);
        if copy.attempts >= MAX_ATTEMPTS {
          copy := copy.(status := Failed);
        }
        var updated, err := Persist(id, copy, wire);
        if err {
          return RetryLater;
        }
        if !updated {
          return SkipRetry;
        }
        if copy.attempts >= MAX_ATTEMPTS {
          return SkipRetry;
        }
        return RetryLater;
      }
    }

    /** One delivery of the task, with no other worker on the same row. */
    method Handle(org: nat, id: nat, a: Attempt) returns (r: Result)
      modifies this`deliveries
      ensures id !in old(deliveries) || old(deliveries[id]).org != org ==>
                deliveries == old(deliveries) && r == if a.claim == RequestLost then RetryLater else SkipRetry
      ensures id in old(deliveries) && old(deliveries[id]).org == org ==>
                deliveries == old(deliveries)[id := Handled(old(deliveries[id]), configs, a).1]
                && r == Handled(old(deliveries[id]), configs, a).0
    {
      if a.claim == RequestLost {
        return RetryLater;
      }
      if id !in deliveries || deliveries[id].org != org {
        return SkipRetry;
      }
      var delivery := deliveries[id];
      if delivery.webhook !in configs {
        var updated, err := Persist(id, delivery.(status := Failed, body := ConfigRemoved), a.persist);
        return SkipRetry;
      }
      var claimed := Claimable(delivery);
      deliveries := deliveries[id := Claimed(delivery)];
      if a.claim == ReplyLost {
        return RetryLater;
      }
      if !claimed {
        return SkipRetry;
      }
      delivery := delivery.(attempts := deliveries[id].attempts);
      r := Deliver(id, delivery, a.http, a.persist);
    }
  }

  // --------------------------------------------------------------- one worker at a time

  /** The transactions around one handling, and what the POST comes to. */
  datatype Attempt = Attempt(claim: Wire, http: Http, persist: Wire)

  function Stored(row: Row, claimed: Row, http: Http, wire: Wire): Row {
    var v := Verdict(claimed, http);
    if v.None? || wire == RequestLost then row else Updated(row, v.value)
  }

  /** What the queue is told: RetryLater keeps the task. */
  function Next(row: Row, claimed: Row, http: Http, wire: Wire): Result {
    var v := Verdict(claimed, http);
    if http == Unbuildable then SkipRetry
    else if v.None? || wire != Answered then RetryLater
    else if row.status == Delivered then SkipRetry
    else if v.value.status == Delivered then Done
    else if v.value.status == Failed then SkipRetry
    else RetryLater
  }

  function Handled(row: Row, configs: set<nat>, a: Attempt): (Result, Row) {
    if a.claim == RequestLost then (RetryLater, row)
    else if row.webhook !in configs then
      (SkipRetry, if a.persist == RequestLost then row
                  else Updated(row, row.(status := Failed, body := ConfigRemoved)))
    else if a.claim == ReplyLost then (RetryLater, Claimed(row))
    else if !Claimable(row) then (SkipRetry, row)
    else (Next(Claimed(row), Claimed(row), a.http, a.persist), Stored(Claimed(row), Claimed(row), a.http, a.persist))
  }

  /** What the queue is told, against what became of the row, when every reply arrives: the task is done
      exactly when this handling delivered, and is kept exactly when the delivery is left for another claim
      after a request that could be built. */
  lemma ResultTellsTheRow(row: Row, configs: set<nat>, a: Attempt)
    requires row.webhook in configs && a.claim == Answered && a.persist == Answered
    ensures var (r, row') := Handled(row, configs, a);
            && (r == Done <==> row.status == Pending && row'.status == Delivered)
            && (r == RetryLater <==> Claimable(row) && row'.status == Pending && a.http != Unbuildable)
  {}

  /** Without the replies: a lost claim and an outcome whose store was not acknowledged keep the task, so
      the queue is told that a task is done only when the row says so. */
  lemma UnacknowledgedIsRetried(row: Row, configs: set<nat>, a: Attempt)
    requires row.webhook in configs
    ensures var (r, row') := Handled(row, configs, a);
            && (r == Done ==> row.status == Pending && row'.status == Delivered)
            && (a.claim != Answered || (Claimable(row) && a.http != Unbuildable && a.persist != Answered) ==> r == RetryLater)
  {}

  /** What a recorded outcome leaves in the row of a claimed delivery: one attempt more and the answer with
      its text; delivered by a 2xx, failed by a 4xx or on the third attempt, pending otherwise. */
  lemma AnswerSettles(row: Row, configs: set<nat>, a: Attempt)
    requires row.webhook in configs && Claimable(row) && Recorded(a)
    ensures var row' := Handled(row, configs, a).1;
            && row'.attempts == row.attempts + 1 && row'.org == row.org && row'.webhook == row.webhook
            && (a.http.Answer? ==> row'.code == a.http.code && row'.body == Text(a.http.body))
            && (a.http == TransportError ==> row'.code == row.code && row'.body == row.body)
            && (row'.status == Delivered <==> a.http.Answer? && 200 <= a.http.code <= 299)
            && (row'.status == Failed <==>
                  || (a.http.Answer? && 400 <= a.http.code <= 499)
                  || (row.attempts == 2 && (a.http.Answer? ==> a.http.code < 200 || a.http.code > 299)))
  {}

  /** A delivery whose configuration is gone is parked as failed, at no attempt, unless it was delivered or
      the store was lost; the task is dropped either way. */
  lemma OrphanIsParked(row: Row, configs: set<nat>, a: Attempt)
    requires row.webhook !in configs && a.claim != RequestLost
    ensures var (r, row') := Handled(row, configs, a);
            && r == SkipRetry
            && row' == if row.status == Delivered || a.persist == RequestLost then row
                       else Row(row.org, row.webhook, Failed, row.attempts, row.code, ConfigRemoved)
  {}

  function Row0(org: nat, webhook: nat): Row { Row(org, webhook, Pending, 0, 0, Text(0)) }

  function AfterAll(row: Row, configs: set<nat>, attempts: seq<Attempt>): Row {
    if attempts == [] then row
    else
      var n := |attempts| - 1;
      Handled(AfterAll(row, configs, attempts[..n]), configs, attempts[n]).1
  }

  /** The claim was made: the transaction committed, acknowledged or not. */
  predicate Made(a: Attempt) { a.claim != RequestLost }

  /** The outcome of the POST reached the row. */
  predicate Recorded(a: Attempt) {
    a.claim == Answered && a.persist != RequestLost && (a.http == TransportError || a.http.Answer?)
  }

  /** A recorded 2xx or 4xx. */
  predicate Final(a: Attempt) { Recorded(a) && a.http.Answer? && (Ok(a.http.code) || Rejected(a.http.code)) }

  /** The row after n claims none of which recorded a final answer. */
  predicate Waiting(row: Row, n: nat) { row.status == Pending && row.attempts == n }

  lemma OneAttempt(row: Row, configs: set<nat>, a: Attempt, n: nat)
    requires row.webhook in configs && Made(a) && Waiting(row, n)
    ensures var row' := Handled(row, configs, a).1;
            if n >= MAX_ATTEMPTS then row' == row
            else if Final(a) || (Recorded(a) && n + 1 == MAX_ATTEMPTS) then
              row'.status == if a.http.Answer? && Ok(a.http.code) then Delivered else Failed
            else Waiting(row', n + 1)
    ensures Handled(row, configs, a).1.webhook == row.webhook
  {}

  lemma SettledStays(row: Row, configs: set<nat>, a: Attempt)
    requires row.webhook in configs && row.status != Pending
    ensures Handled(row, configs, a).1 == row
  {}

  /** Whether the claims so far have settled the delivery. */
  predicate Settled(attempts: seq<Attempt>) {
    (exists i | 0 <= i < |attempts| && i < MAX_ATTEMPTS :: Final(attempts[i]))
    || (|attempts| >= MAX_ATTEMPTS && Recorded(attempts[MAX_ATTEMPTS - 1]))
  }

  function Min(a: nat, b: nat): nat { if a < b then a else b }

  lemma {:induction false} AfterAllShape(org: nat, webhook: nat, configs: set<nat>, attempts: seq<Attempt>)
    requires webhook in configs && forall a | a in attempts :: Made(a)
    ensures var row := AfterAll(Row0(org, webhook), configs, attempts);
            row.webhook == webhook
            && if Settled(attempts) then row.status != Pending else Waiting(row, Min(|attempts|, MAX_ATTEMPTS))
  {
    if attempts != [] {
      var n := |attempts| - 1;
      var init, a := attempts[..n], attempts[n];
      AfterAllShape(org, webhook, configs, init);
      var row := AfterAll(Row0(org, webhook), configs, init);
      SettledAppended(init, a);
      assert init + [a] == attempts;
      if Settled(init) {
        SettledStays(row, configs, a);
      } else {
        OneAttempt(row, configs, a, Min(n, MAX_ATTEMPTS));
      }
    }
  }

  lemma SettledAppended(init: seq<Attempt>, a: Attempt)
    ensures Settled(init + [a]) <==>
            Settled(init) || (|init| < MAX_ATTEMPTS && (Final(a) || (Recorded(a) && |init| + 1 == MAX_ATTEMPTS)))
  {
    var all := init + [a];
    forall i | 0 <= i < |init| ensures all[i] == init[i] {}
    if Final(a) && |init| < MAX_ATTEMPTS {
      assert Final(all[|init|]);
    }
    if exists i | 0 <= i < |init| && i < MAX_ATTEMPTS :: Final(init[i]) {
      var i :| 0 <= i < |init| && i < MAX_ATTEMPTS && Final(init[i]);
      assert Final(all[i]);
    }
  }

  /** With one worker at a time, three or more claims leave a delivery pending exactly when none of the
      first three recorded a final answer and the third recorded nothing at all. */
  lemma PendingAfterThreeClaims(org: nat, webhook: nat, configs: set<nat>, attempts: seq<Attempt>)
    requires webhook in configs && |attempts| >= MAX_ATTEMPTS && forall a | a in attempts :: Made(a)
    ensures AfterAll(Row0(org, webhook), configs, attempts).status == Pending <==>
            !Final(attempts[0]) && !Final(attempts[1]) && !Recorded(attempts[2])
  {
    AfterAllShape(org, webhook, configs, attempts);
    if Final(attempts[0]) || Final(attempts[1]) {
      assert Settled(attempts);
    }
  }

  /** When every attempt's outcome is recorded, the third claim settles the delivery at the latest. */
  lemma ThirdClaimSettles(org: nat, webhook: nat, configs: set<nat>, attempts: seq<Attempt>)
    requires webhook in configs && forall a | a in attempts :: Recorded(a)
    ensures |attempts| >= MAX_ATTEMPTS ==> AfterAll(Row0(org, webhook), configs, attempts).status != Pending
    ensures AfterAll(Row0(org, webhook), configs, attempts).status == Pending ==>
              Waiting(AfterAll(Row0(org, webhook), configs, attempts), |attempts|)
  {
    AfterAllShape(org, webhook, configs, attempts);
    if |attempts| >= MAX_ATTEMPTS {
      assert attempts[2] in attempts;
    }
  }

  /** A delivery left pending by its third claim is never claimed again: as long as the configuration
      exists, no handling changes it. */
  lemma {:induction false} StuckForEver(row: Row, configs: set<nat>, attempts: seq<Attempt>)
    requires row.webhook in configs && row.status == Pending && row.attempts >= MAX_ATTEMPTS
    ensures AfterAll(row, configs, attempts) == row
  {
    if attempts != [] {
      StuckForEver(row, configs, attempts[..|attempts| - 1]);
    }
  }

  /** The task gives up on a pending delivery in exactly three ways: the request could not be built, the
      attempts were used up before, or parking an orphan was not stored. */
  lemma GivingUpOnAPendingDelivery(row: Row, configs: set<nat>, a: Attempt)
    requires Handled(row, configs, a).0 != RetryLater
    ensures Handled(row, configs, a).1.status == Pending <==>
            row.status == Pending
            && if row.webhook !in configs then a.persist == RequestLost
               else row.attempts >= MAX_ATTEMPTS || a.http == Unbuildable
  {}

  // --------------------------------------------------------------- overlapping workers

  /** Where a worker stands: it has read the row, or holds the copy it claimed. */
  datatype Phase = Idle | Reading(copy: Row) | Holding(copy: Row)

  datatype World = World(row: Row, workers: seq<Phase>)

  /** Atomic steps of worker w. Park follows a missing configuration; Quit is any end without a store. */
  datatype Step = Read(w: nat) | Park(w: nat) | Claim(w: nat) | Store(w: nat, http: Http) | Quit(w: nat)

  predicate Enabled(s: World, step: Step) {
    && step.w < |s.workers|
    && match step
       case Read(w) => s.workers[w].Idle?
       case Park(w) => s.workers[w].Reading?
       case Claim(w) => s.workers[w].Reading?
       case Store(w, http) => s.workers[w].Holding? && Verdict(s.workers[w].copy, http).Some?
       case Quit(w) => true
  }

  function Apply(s: World, step: Step): World
    requires Enabled(s, step)
  {
    match step
    case Read(w) => World(s.row, s.workers[w := Reading(s.row)])
    case Park(w) =>
      World(Updated(s.row, s.workers[w].copy.(status := Failed, body := ConfigRemoved)), s.workers[w := Idle])
    case Claim(w) =>
      World(Claimed(s.row),
            s.workers[w := if Claimable(s.row) then Holding(s.workers[w].copy.(attempts := s.row.attempts + 1)) else Idle])
    case Store(w, http) => World(Updated(s.row, Verdict(s.workers[w].copy, http).value), s.workers[w := Idle])
    case Quit(w) => World(s.row, s.workers[w := Idle])
  }

  /** The world after a run, if every step of it can be taken. */
  function Exec(s: World, run: seq<Step>): Option<World>
    decreases |run|
  {
    if run == [] then Some(s)
    else
      var n := |run| - 1;
      var s' := Exec(s, run[..n]);
      if s'.Some? && Enabled(s'.value, run[n]) then Some(Apply(s'.value, run[n])) else None
  }

  predicate Claims(s: World, step: Step) { step.Claim? && Claimable(s.row) }

  /** The successful claims of a run: no POST is made without one. */
  function Posts(s: World, run: seq<Step>): nat
    decreases |run|
  {
    if run == [] then 0
    else
      var n := |run| - 1;
      var s' := Exec(s, run[..n]);
      Posts(s, run[..n]) + if s'.Some? && Enabled(s'.value, run[n]) && Claims(s'.value, run[n]) then 1 else 0
  }

  /** Once delivered, a row is never written again, whatever the workers do. */
  lemma {:induction false} DeliveredIsFinal(s: World, run: seq<Step>)
    requires s.row.status == Delivered && Exec(s, run).Some?
    ensures Exec(s, run).value.row == s.row
    decreases |run|
  {
    if run != [] {
      DeliveredIsFinal(s, run[..|run| - 1]);
    }
  }

  /** A delivered row was delivered: some worker's POST was answered with a 2xx, and the row holds that
      answer. */
  lemma {:induction false} DeliveredWasAnswered(s: World, run: seq<Step>)
    requires s.row.status != Delivered && Exec(s, run).Some? && Exec(s, run).value.row.status == Delivered
    ensures exists step :: step in run && step.Store? && step.http.Answer? && Ok(step.http.code)
                           && Exec(s, run).value.row.code == step.http.code
                           && Exec(s, run).value.row.body == Text(step.http.body)
    decreases |run|
  {
    var n := |run| - 1;
    var s' := Exec(s, run[..n]).value;
    if s'.row.status == Delivered {
      DeliveredWasAnswered(s, run[..n]);
    } else {
      assert run[n] in run;
    }
  }

  /** Claims a pending row with this many attempts can still lead to, counting the copies that its
      holders may yet write back. */
  function Room(attempts: nat): nat {
    if attempts == 0 then 7 else if attempts == 1 then 3 else if attempts == 2 then 1 else 0
  }

  function RowRoom(r: Row): nat { if r.status == Pending then Room(r.attempts) else 0 }

  function PhaseRoom(p: Phase): nat { if p.Holding? then Room(p.copy.attempts) else 0 }

  function WorkersRoom(ps: seq<Phase>): nat {
    if ps == [] then 0 else PhaseRoom(ps[0]) + WorkersRoom(ps[1..])
  }

  lemma {:induction false} RoomUpdated(ps: seq<Phase>, w: nat, p: Phase)
    requires w < |ps|
    ensures WorkersRoom(ps[w := p]) == WorkersRoom(ps) - PhaseRoom(ps[w]) + PhaseRoom(p)
  {
    if w > 0 {
      RoomUpdated(ps[1..], w - 1, p);
      assert ps[w := p][1..] == ps[1..][w - 1 := p];
    } else {
      assert ps[w := p][1..] == ps[1..];
    }
  }

  function Left(s: World): nat { RowRoom(s.row) + WorkersRoom(s.workers) }

  lemma StepSpendsRoom(s: World, step: Step)
    requires Enabled(s, step)
    ensures Left(Apply(s, step)) + (if Claims(s, step) then 1 else 0) <= Left(s)
  {
    RoomUpdated(s.workers, step.w, Apply(s, step).workers[step.w]);
  }

  lemma {:induction false} RunSpendsRoom(s: World, run: seq<Step>)
    requires Exec(s, run).Some?
    ensures Posts(s, run) + Left(Exec(s, run).value) <= Left(s)
    decreases |run|
  {
    if run != [] {
      var n := |run| - 1;
      RunSpendsRoom(s, run[..n]);
      StepSpendsRoom(Exec(s, run[..n]).value, run[n]);
    }
  }

  predicate Fresh(s: World) { Waiting(s.row, 0) && forall w | 0 <= w < |s.workers| :: s.workers[w].Idle? }

  lemma {:induction false} IdleHasNoRoom(ps: seq<Phase>)
    requires forall w | 0 <= w < |ps| :: ps[w].Idle?
    ensures WorkersRoom(ps) == 0
  {
    if ps != [] {
      IdleHasNoRoom(ps[1..]);
    }
  }

  /** However many workers overlap, a delivery is posted at most seven times, not three: a slow worker
      can write back the attempts it claimed and so lower the count. */
  lemma AtMostSevenPosts(s: World, run: seq<Step>)
    requires Fresh(s) && Exec(s, run).Some?
    ensures Posts(s, run) <= 7
  {
    IdleHasNoRoom(s.workers);
    RunSpendsRoom(s, run);
  }

  /** A run, where it leads, and what it posted. */
  ghost predicate Reaches(s0: World, run: seq<Step>, s: World, posts: nat) {
    Exec(s0, run) == Some(s) && Posts(s0, run) == posts
  }

  lemma Extend(s0: World, run: seq<Step>, s: World, posts: nat, step: Step)
    returns (run': seq<Step>, s': World, posts': nat)
    requires Reaches(s0, run, s, posts) && Enabled(s, step)
    ensures Reaches(s0, run', s', posts') && s' == Apply(s, step)
    ensures posts' == posts + if Claims(s, step) then 1 else 0
  {
    run', s' := run + [step], Apply(s, step);
    posts' := posts + if Claims(s, step) then 1 else 0;
    assert run'[..|run|] == run;
  }

  /** Worker w reads and claims a pending row. */
  lemma Take(s0: World, run: seq<Step>, s: World, posts: nat, w: nat)
    returns (run': seq<Step>, s': World, posts': nat)
    requires Reaches(s0, run, s, posts) && w < |s.workers| && s.workers[w].Idle? && Claimable(s.row)
    ensures Reaches(s0, run', s', posts') && posts' == posts + 1
    ensures s' == World(Claimed(s.row), s.workers[w := Holding(Claimed(s.row))])
  {
    run', s', posts' := Extend(s0, run, s, posts, Read(w));
    run', s', posts' := Extend(s0, run', s', posts', Claim(w));
  }

  /** Worker w's POST fails in transport. */
  lemma Miss(s0: World, run: seq<Step>, s: World, posts: nat, w: nat)
    returns (run': seq<Step>, s': World, posts': nat)
    requires Reaches(s0, run, s, posts) && w < |s.workers| && s.workers[w].Holding? && s.row.status != Delivered
    requires s.workers[w].copy == s.row.(status := Pending, attempts := s.workers[w].copy.attempts)
    ensures Reaches(s0, run', s', posts') && posts' == posts
    ensures var attempts := s.workers[w].copy.attempts;
            s' == World(s.row.(status := LaterOrFailed(attempts), attempts := attempts), s.workers[w := Idle])
  {
    run', s', posts' := Extend(s0, run, s, posts, Store(w, TransportError));
  }

  /** A whole handling is a run of one worker's steps, posting at most once. */
  lemma HandlingIsARun(row: Row, configs: set<nat>, a: Attempt) returns (run: seq<Step>)
    ensures Exec(World(row, [Idle]), run) == Some(World(Handled(row, configs, a).1, [Idle]))
    ensures Posts(World(row, [Idle]), run) <= 1
  {
    var s0 := World(row, [Idle]);
    var s, posts := s0, 0;
    run := [];
    if a.claim != RequestLost {
      run, s, posts := Extend(s0, run, s, posts, Read(0));
      if row.webhook !in configs {
        run, s, posts := Extend(s0, run, s, posts, if a.persist == RequestLost then Quit(0) else Park(0));
      } else {
        run, s, posts := ClaimIsARun(s0, run, s, posts, configs, a);
      }
    }
    assert s.workers == [Idle];
  }

  /** The claim, and the POST if it succeeds. */
  lemma ClaimIsARun(s0: World, run: seq<Step>, s: World, posts: nat, configs: set<nat>, a: Attempt)
    returns (run': seq<Step>, s': World, posts': nat)
    requires Reaches(s0, run, s, posts) && s.workers == [Reading(s.row)]
    requires a.claim != RequestLost && s.row.webhook in configs
    ensures Reaches(s0, run', s', posts') && posts' <= posts + 1
    ensures s' == World(Handled(s.row, configs, a).1, [Idle])
  {
    run', s', posts' := Extend(s0, run, s, posts, Claim(0));
    if s'.workers[0].Holding? {
      var stores := a.claim == Answered && a.persist != RequestLost && Verdict(s'.workers[0].copy, a.http).Some?;
      run', s', posts' := Extend(s0, run', s', posts', if stores then Store(0, a.http) else Quit(0));
    }
    assert s'.workers == [Idle];
  }

  /** From a claimed first attempt still in flight, two more workers make two posts; the second attempt
      is then written back over the failed third, and the last attempt is made again. */
  lemma ThreePosts(s0: World, run: seq<Step>, s: World, posts: nat)
    returns (run': seq<Step>, s': World, posts': nat)
    requires Reaches(s0, run, s, posts) && |s.workers| == 3
    requires Waiting(s.row, 1) && s.workers[1].Idle? && s.workers[2].Idle?
    ensures Reaches(s0, run', s', posts') && posts' == posts + 3
    ensures s' == World(s.row.(status := Failed, attempts := 3), s.workers)
  {
    run', s', posts' := Take(s0, run, s, posts, 1);
    run', s', posts' := Take(s0, run', s', posts', 2);
    run', s', posts' := Miss(s0, run', s', posts', 2);
    run', s', posts' := Miss(s0, run', s', posts', 1);
    run', s', posts' := Take(s0, run', s', posts', 2);
    run', s', posts' := Miss(s0, run', s', posts', 2);
    assert s'.workers == s.workers;
  }

  /** Seven posts do happen: three workers, every POST failing in transport, the first two attempts slow
      to write their outcome back. In this run a failed delivery becomes pending again and is claimed. */
  lemma SevenPostsHappen(org: nat, webhook: nat) returns (s0: World, run: seq<Step>)
    ensures Fresh(s0) && Exec(s0, run).Some? && Posts(s0, run) == 7
  {
    s0 := World(Row0(org, webhook), [Idle, Idle, Idle]);
    var s, posts := s0, 0;
    run := [];
    run, s, posts := Take(s0, run, s, posts, 0);
    run, s, posts := ThreePosts(s0, run, s, posts);
    run, s, posts := Miss(s0, run, s, posts, 0);
    run, s, posts := ThreePosts(s0, run, s, posts);
  }
}
