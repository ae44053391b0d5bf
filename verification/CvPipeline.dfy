/** The CV pipeline: parse_cv and extract_cv workers over one candidate row and an at-least-once
    task queue (backend/internal/cv/application/parse_worker.go, extract_worker.go and
    cv_service.go, ReExtract). Workers interleave freely and may die, or return an error, between any
    two steps.

    A worker's transaction is not atomic: GetByID reads a copy of the row without locking it, and Update
    later writes every column of that copy back
    (backend/internal/cv/infrastructure/persistence/postgres_candidate_repo.go). Reading is one step,
    writing and committing another; a transaction that fails in between is a worker that dies there. */
module CvPipeline {
  import opened Prelude

  datatype Status = New | Parsing | Parsed | Extracting | Extracted | PendingReview | FailedOcr | FailedExtract

  /** The columns of the candidate row the workers look at. `hasText`: the raw text is not blank.
      Resumes are opaque and named by numbers. */
  datatype Row = Row(status: Status, hasText: bool, structured: Option<nat>, hasToken: bool, hasEmail: bool)

  datatype Kind = Parse | Extract

  /** Tasks with a deterministic id, which the queue accepts once. */
  datatype Notice = ReviewEmail | SyncMnemosyne

  /** The transactions that write the row. */
  datatype Tx =
    | MarkParsing | StoreText(blank: bool) | MarkUnreadable
    | MarkExtracting | Phase1(resume: nat) | MarkFailed | Phase3

  /** Where a delivery stands; in `Writing` it has read its copy and not yet written it back. The
      `Acking` state of a handler is just before it returns nil or SkipRetry. */
  datatype Pc =
    | Writing(tx: Tx, copy: Row)
    | ParseFetched | ParseStored | ParseAcking
    | ExtractLoaded(stored: Option<nat>) | ExtractReady(resume: nat) | ExtractUnusable
    | ExtractPersisted | ExtractAddressed(send: bool) | ExtractMailed | ExtractSynced | ExtractAcking
  {
    function Handler(): Kind {
      if Writing? then (if tx.MarkParsing? || tx.StoreText? || tx.MarkUnreadable? then Parse else Extract)
      else if ParseFetched? || ParseStored? || ParseAcking? then Parse
      else Extract
    }
  }

  datatype Worker = Worker(slot: nat, pc: Pc)

  /** `queue` holds the live tasks by slot; `seen` the jobs listed active by a committed phase 1 and
      `persisted` whether one ever committed; `exhausted` whether the queue gave up on some task. */
  datatype World = World(
    row: Row,
    apps: multiset<nat>,
    queue: map<nat, Kind>,
    nextSlot: nat,
    workers: map<nat, Worker>,
    accepted: multiset<Notice>,
    llmCalls: nat,
    seen: set<nat>,
    persisted: bool,
    exhausted: bool)

  datatype LlmOutcome = Answer(resume: nat) | Malformed | Unavailable

  datatype Step =
    | Begin(d: nat, slot: nat) // delivery, up to the first read of the row
    | Read(d: nat, tx: Tx)     // a later transaction reads the row
    | Commit(d: nat, jobs: seq<nat>) // writes the copy back; phase 1 finds these jobs active
    | Fail(d: nat)             // crash or returned error: the task stays in the queue
    | Ack(d: nat)              // nil or SkipRetry: the task leaves the queue
    | Exhaust(slot: nat)
    | QueueExtract(d: nat)
    | Decode(d: nat) | AskLlm(d: nat, outcome: LlmOutcome)
    | ReadAddress(d: nat) | SendMail(d: nat) | Sync(d: nat)
    | ReExtract(read: Status)  // the recruiter's retry; the status it read may be stale
    | Confirm(resume: nat, email: bool) // the candidate confirms the profile, in one statement

  /** The row is committed and its parse task queued. */
  function Start(hasEmail: bool, apps: multiset<nat>): World {
    World(Row(Parsing, false, None, false, hasEmail), apps, map[0 := Parse], 1, map[], multiset{}, 0, {}, false, false)
  }

  // ----------------------------------------------------- the atomic actions

  /** The copy a transaction writes back. */
  function Overwrite(copy: Row, tx: Tx): Row {
    match tx
    case MarkParsing => copy.(status := Parsing)
    case StoreText(blank) => copy.(status := Parsed, hasText := !blank)
    case MarkUnreadable => copy.(status := FailedOcr)
    case MarkExtracting => copy.(status := Extracting)
    case Phase1(resume) => copy.(structured := Some(resume), status := Extracting, hasToken := true)
    case MarkFailed => copy.(status := FailedExtract)
    case Phase3 => copy.(status := PendingReview)
  }

  /** fetch, loadAndMarkExtracting and phase 3 return without writing when the copy says so. */
  function AfterRead(tx: Tx, copy: Row): Pc {
    if tx.MarkParsing? && copy.status == Parsed && copy.hasText then ParseStored
    else if tx.MarkExtracting? && copy.status in {Extracted, PendingReview} then ExtractAcking
    else if tx.Phase3? && copy.status == PendingReview then ExtractAcking
    else Writing(tx, copy)
  }

  function AfterCommit(tx: Tx, copy: Row): Pc {
    match tx
    case MarkParsing => ParseFetched
    case StoreText(_) => ParseStored
    case MarkUnreadable => ParseAcking
    case MarkExtracting => ExtractLoaded(copy.structured)
    case Phase1(_) => ExtractPersisted
    case MarkFailed => ExtractAcking
    case Phase3 => ExtractAcking
  }

  function First(kind: Kind): Tx { match kind case Parse => MarkParsing case Extract => MarkExtracting }

  /** The later transactions a handler opens from `pc`. */
  predicate Opens(pc: Pc, tx: Tx) {
    match pc
    case ParseFetched => tx.StoreText? || tx.MarkUnreadable?
    case ExtractReady(resume) => tx == Phase1(resume)
    case ExtractUnusable => tx.MarkFailed?
    case ExtractSynced => tx.Phase3?
    case _ => false
  }

  /** ExtractWorker.handle, phase 1: the applications that exist afterwards. */
  function WithMissing(apps: multiset<nat>, jobs: seq<nat>): (r: multiset<nat>)
    ensures forall j :: r[j] == if j in jobs && apps[j] == 0 then 1 else apps[j]
    decreases |jobs|
  {
    if jobs == [] then apps
    else WithMissing(if jobs[0] in apps then apps else apps + multiset{jobs[0]}, jobs[1..])
  }

  /** The loop over active jobs. */
  method CreateApplications(apps: multiset<nat>, jobs: seq<nat>) returns (after: multiset<nat>)
    ensures forall j :: after[j] == if j in jobs && apps[j] == 0 then 1 else apps[j]
    ensures after == WithMissing(apps, jobs)
  {
    after := apps;
    for i := 0 to |jobs|
      invariant forall j :: after[j] == if j in jobs[..i] && apps[j] == 0 then 1 else apps[j]
    {
      if jobs[i] in after {
        continue;
      }
      after := after + multiset{jobs[i]};
    }
    assert jobs[..|jobs|] == jobs;
  }

  function Accept(accepted: multiset<Notice>, notice: Notice): multiset<Notice> {
    if notice in accepted then accepted else accepted + multiset{notice}
  }

  /** CVService.ReExtract: which task, if any, the read status asks for. */
  function RetryTask(read: Status): Option<Kind> {
    match read
    case FailedOcr => Some(Parse)
    case FailedExtract => Some(Extract)
    case Parsed => Some(Extract)
    case _ => None
  }

  /** candidate_confirm_review. */
  function ConfirmRow(row: Row, resume: nat, email: bool): Row {
    row.(status := Extracted, structured := Some(resume), hasToken := false, hasEmail := email)
  }

  function Enqueue(w: World, kind: Kind): World {
    w.(queue := w.queue[w.nextSlot := kind], nextSlot := w.nextSlot + 1)
  }

  /** The recruiter's retry. */
  function Retried(w: World, read: Status): World {
    match RetryTask(read) case Some(kind) => Enqueue(w, kind) case None => w
  }

  // ------------------------------------------------------------ the machine

  predicate At(w: World, d: nat, pc: Pc) { d in w.workers && w.workers[d].pc == pc }

  predicate Enabled(w: World, step: Step) {
    match step
    case Begin(d, slot) => d !in w.workers && slot in w.queue
    case Read(d, tx) => d in w.workers && Opens(w.workers[d].pc, tx)
    case Commit(d, _) => d in w.workers && w.workers[d].pc.Writing?
    case Fail(d) => d in w.workers
    case Ack(d) => At(w, d, ParseAcking) || At(w, d, ExtractAcking)
    case Exhaust(slot) => slot in w.queue && forall d | d in w.workers :: w.workers[d].slot != slot
    case QueueExtract(d) => At(w, d, ParseStored)
    case Decode(d) => d in w.workers && w.workers[d].pc.ExtractLoaded? && w.workers[d].pc.stored.Some?
    case AskLlm(d, _) => At(w, d, ExtractLoaded(None))
    case ReadAddress(d) => At(w, d, ExtractPersisted)
    case SendMail(d) => d in w.workers && w.workers[d].pc.ExtractAddressed?
    case Sync(d) => At(w, d, ExtractMailed)
    case ReExtract(_) => true
    case Confirm(_, _) => w.row.status == PendingReview && w.row.hasToken
  }

  function Move(w: World, d: nat, pc: Pc): World
    requires d in w.workers
  {
    w.(workers := w.workers[d := w.workers[d].(pc := pc)])
  }

  function Committed(w: World, d: nat, jobs: seq<nat>): World
    requires d in w.workers && w.workers[d].pc.Writing?
  {
    var Writing(tx, copy) := w.workers[d].pc;
    var w' := Move(w, d, AfterCommit(tx, copy)).(row := Overwrite(copy, tx));
    if tx.Phase1?
    then w'.(apps := WithMissing(w.apps, jobs), seen := w.seen + (set j | j in jobs), persisted := true)
    else w'
  }

  function Apply(w: World, step: Step): World
    requires Enabled(w, step)
  {
    match step
    case Begin(d, slot) => w.(workers := w.workers[d := Worker(slot, AfterRead(First(w.queue[slot]), w.row))])
    case Read(d, tx) => Move(w, d, AfterRead(tx, w.row))
    case Commit(d, jobs) => Committed(w, d, jobs)
    case Fail(d) => w.(workers := w.workers - {d})
    case Ack(d) => w.(workers := w.workers - {d}, queue := w.queue - {w.workers[d].slot})
    case Exhaust(slot) => w.(queue := w.queue - {slot}, exhausted := true)
    case QueueExtract(d) => Enqueue(Move(w, d, ParseAcking), Extract)
    case Decode(d) => Move(w, d, ExtractReady(w.workers[d].pc.stored.value))
    case AskLlm(d, outcome) =>
      var w' := w.(llmCalls := w.llmCalls + 1);
      (match outcome
       case Answer(resume) => Move(w', d, ExtractReady(resume))
       case Malformed => Move(w', d, ExtractUnusable)
       case Unavailable => w'.(workers := w.workers - {d}))
    case ReadAddress(d) => Move(w, d, ExtractAddressed(w.row.hasEmail && w.row.hasToken))
    case SendMail(d) =>
      Move(w, d, ExtractMailed).(accepted := if w.workers[d].pc.send then Accept(w.accepted, ReviewEmail) else w.accepted)
    case Sync(d) => Move(w, d, ExtractSynced).(accepted := Accept(w.accepted, SyncMnemosyne))
    case ReExtract(read) => Retried(w, read)
    case Confirm(resume, email) => w.(row := ConfirmRow(w.row, resume, email))
  }

  // ------------------------------------------------------------------- runs

  /** What a run may be held to. `leased`: the queue never hands a task to a second worker while the
      first still runs it. `serial`: no commit overwrites a row that changed since it was read.
      `alone`: no delivery begins before the last one ended. */
  datatype Rules = Rules(leased: bool, serial: bool, alone: bool)

  const ANY := Rules(false, false, false)
  const LEASED := Rules(true, false, false)
  const SERIAL := Rules(true, true, false)
  const ALONE := Rules(false, false, true)
  const UNLEASED := Rules(false, true, false)

  predicate Keeps(w: World, step: Step, rules: Rules)
    requires Enabled(w, step)
  {
    && (rules.leased && step.Begin? ==> forall d | d in w.workers :: w.workers[d].slot != step.slot)
    && (rules.serial && step.Commit? ==> w.workers[step.d].pc.copy == w.row)
    && (rules.alone && step.Begin? ==> w.workers == map[])
  }

  /** The world after a run, if every step can be taken and keeps the rules. */
  function Exec(w: World, run: seq<Step>, rules: Rules): Option<World>
    decreases |run|
  {
    if run == [] then Some(w)
    else
      var n := |run| - 1;
      var w' := Exec(w, run[..n], rules);
      if w'.Some? && Enabled(w'.value, run[n]) && Keeps(w'.value, run[n], rules) then Some(Apply(w'.value, run[n])) else None
  }

  lemma Extend(w0: World, run: seq<Step>, rules: Rules, w: World, step: Step) returns (run': seq<Step>, w': World)
    requires Exec(w0, run, rules) == Some(w) && Enabled(w, step) && Keeps(w, step, rules)
    ensures Exec(w0, run', rules) == Some(w') && w' == Apply(w, step) && run' == run + [step]
  {
    run', w' := run + [step], Apply(w, step);
    assert run'[..|run|] == run;
  }

  predicate Weaker(weak: Rules, strong: Rules) {
    && (weak.leased ==> strong.leased) && (weak.serial ==> strong.serial) && (weak.alone ==> strong.alone)
  }

  /** Rules only restrict runs; they do not change what a run does. */
  lemma {:induction false} Relax(w: World, run: seq<Step>, weak: Rules, strong: Rules)
    requires Weaker(weak, strong) && Exec(w, run, strong).Some?
    ensures Exec(w, run, weak) == Exec(w, run, strong)
    decreases |run|
  {
    if run != [] {
      Relax(w, run[..|run| - 1], weak, strong);
    }
  }

  // --------------------------------------------------- no stranded candidate

  predicate InBetween(status: Status) { status in {Parsing, Parsed, Extracting} }

  predicate LiveTask(w: World, kinds: set<Kind>) {
    exists slot | slot in w.queue :: w.queue[slot] in kinds
  }

  predicate NotStranded(w: World) {
    && (w.row.status == Parsing ==> LiveTask(w, {Parse}))
    && (w.row.status == Parsed ==> LiveTask(w, {Parse, Extract}))
    && (w.row.status == Extracting ==> LiveTask(w, {Extract}))
  }

  /** A delivery at `pc` still has to move the candidate on from `status`. */
  predicate WillAdvance(status: Status, pc: Pc) {
    match status
    case Parsing => pc.Handler() == Parse && pc !in {ParseStored, ParseAcking}
    case Parsed => pc !in {ParseAcking, ExtractAcking}
    case Extracting => pc.Handler() == Extract && pc != ExtractAcking
    case _ => true
  }

  predicate RightKind(status: Status, kind: Kind) {
    match status case Parsing => kind == Parse case Extracting => kind == Extract case _ => true
  }

  /** The task in `slot` is waiting, or the workers on it are not past their last contribution. */
  ghost predicate Carries(status: Status, queue: map<nat, Kind>, workers: map<nat, Worker>, slot: nat) {
    && slot in queue
    && RightKind(status, queue[slot])
    && forall d | d in workers && workers[d].slot == slot :: WillAdvance(status, workers[d].pc)
  }

  /** Workers run the handler of their task. */
  ghost predicate Typed(queue: map<nat, Kind>, nextSlot: nat, workers: map<nat, Worker>) {
    && (forall slot | slot in queue :: slot < nextSlot)
    && (forall d | d in workers :: workers[d].slot < nextSlot)
    && (forall d | d in workers && workers[d].slot in queue :: workers[d].pc.Handler() == queue[workers[d].slot])
  }

  /** Every worker has a live task to itself. */
  ghost predicate Leased(queue: map<nat, Kind>, workers: map<nat, Worker>) {
    && (forall d | d in workers :: workers[d].slot in queue)
    && (forall d, e | d in workers && e in workers && d != e :: workers[d].slot != workers[e].slot)
  }

  ghost predicate Carried(w: World) {
    exists slot :: Carries(w.row.status, w.queue, w.workers, slot)
  }

  ghost predicate LeaseInv(w: World) {
    && Typed(w.queue, w.nextSlot, w.workers)
    && Leased(w.queue, w.workers)
    && (InBetween(w.row.status) && !w.exhausted ==> Carried(w))
  }

  /** The steps that only move one worker on, and what they do to it. */
  predicate Moving(step: Step) {
    && !step.Begin? && !step.Fail? && !step.Ack? && !step.Exhaust? && !step.ReExtract? && !step.Confirm?
    && !(step.AskLlm? && step.outcome == Unavailable)
  }

  predicate Moves(w: World, step: Step, d: nat, pc: Pc)
    requires Enabled(w, step)
  {
    && d in w.workers
    && Apply(w, step).workers == w.workers[d := Worker(w.workers[d].slot, pc)]
    && pc.Handler() == w.workers[d].pc.Handler()
  }

  lemma WorkerStepMoves(w: World, step: Step) returns (pc: Pc)
    requires Enabled(w, step) && Moving(step)
    ensures Moves(w, step, step.d, pc) && At(Apply(w, step), step.d, pc)
    ensures !step.QueueExtract? ==> Apply(w, step).queue == w.queue && Apply(w, step).nextSlot == w.nextSlot
    ensures !step.Commit? ==> Apply(w, step).row == w.row
  {
    pc := Apply(w, step).workers[step.d].pc;
    if step.Commit? || step.Read? {
      TransactionMoves(w, step);
    } else if step.AskLlm? {
      AskMoves(w, step);
    }
  }

  lemma AskMoves(w: World, step: Step)
    requires Enabled(w, step) && step.AskLlm? && Moving(step)
    ensures step.d in Apply(w, step).workers && Moves(w, step, step.d, Apply(w, step).workers[step.d].pc)
    ensures Apply(w, step).queue == w.queue && Apply(w, step).nextSlot == w.nextSlot && Apply(w, step).row == w.row
  {}

  lemma TransactionMoves(w: World, step: Step)
    requires Enabled(w, step) && (step.Commit? || step.Read?)
    ensures step.d in Apply(w, step).workers && Moves(w, step, step.d, Apply(w, step).workers[step.d].pc)
    ensures Apply(w, step).queue == w.queue && Apply(w, step).nextSlot == w.nextSlot
    ensures step.Read? ==> Apply(w, step).row == w.row
  {
    if step.Commit? {
      HandlerKept(w.workers[step.d].pc.tx, w.workers[step.d].pc.copy);
    } else {
      HandlerKept(step.tx, w.row);
    }
  }

  lemma HandlerKept(tx: Tx, copy: Row)
    ensures AfterRead(tx, copy).Handler() == AfterCommit(tx, copy).Handler() == Writing(tx, copy).Handler()
  {}

  lemma StepKeepsTyped(w: World, step: Step)
    requires Typed(w.queue, w.nextSlot, w.workers) && Enabled(w, step)
    ensures var w' := Apply(w, step); Typed(w'.queue, w'.nextSlot, w'.workers)
  {
    if Moving(step) {
      var pc := WorkerStepMoves(w, step);
      assert step.d in w.workers;
    }
  }

  lemma StepKeepsLeased(w: World, step: Step)
    requires Leased(w.queue, w.workers) && Enabled(w, step) && Keeps(w, step, LEASED)
    ensures var w' := Apply(w, step); Leased(w'.queue, w'.workers)
  {
    if Moving(step) {
      var pc := WorkerStepMoves(w, step);
      assert step.d in w.workers;
    }
  }

  /** Which task moves the candidate on after a step that leaves it in an in-between status: the one
      just queued, the one whose worker just wrote the row, or the one that did before. */
  lemma StepKeepsCarrier(w: World, step: Step)
    requires LeaseInv(w) && Enabled(w, step) && Keeps(w, step, LEASED)
    requires InBetween(Apply(w, step).row.status) && !Apply(w, step).exhausted
    ensures Carried(Apply(w, step))
  {
    var w' := Apply(w, step);
    if step.QueueExtract? && w.row.status != Parsing {
      var pc := WorkerStepMoves(w, step);
      assert Carries(w'.row.status, w'.queue, w'.workers, w.nextSlot);
    } else if step.Commit? {
      WriterCarries(w, step);
    } else {
      var slot :| Carries(w.row.status, w.queue, w.workers, slot);
      CarrierStays(w, step, slot);
    }
  }

  lemma WriterCarries(w: World, step: Step)
    requires Typed(w.queue, w.nextSlot, w.workers) && Leased(w.queue, w.workers) && Enabled(w, step) && step.Commit?
    requires InBetween(Apply(w, step).row.status)
    ensures Carries(Apply(w, step).row.status, Apply(w, step).queue, Apply(w, step).workers, w.workers[step.d].slot)
  {
    TransactionMoves(w, step);
    CommitWrites(w, step);
    WriterWillAdvance(w.workers[step.d].pc.tx, w.workers[step.d].pc.copy);
  }

  lemma CommitWrites(w: World, step: Step)
    requires Enabled(w, step) && step.Commit?
    ensures var Writing(tx, copy) := w.workers[step.d].pc;
            Apply(w, step).row == Overwrite(copy, tx) && At(Apply(w, step), step.d, AfterCommit(tx, copy))
  {}

  /** Whoever writes an in-between status goes on from there. */
  lemma WriterWillAdvance(tx: Tx, copy: Row)
    requires InBetween(Overwrite(copy, tx).status)
    ensures WillAdvance(Overwrite(copy, tx).status, AfterCommit(tx, copy))
    ensures RightKind(Overwrite(copy, tx).status, Writing(tx, copy).Handler())
  {}

  lemma CarrierStays(w: World, step: Step, slot: nat)
    requires LeaseInv(w) && Enabled(w, step) && Keeps(w, step, LEASED)
    requires Carries(w.row.status, w.queue, w.workers, slot)
    requires InBetween(w.row.status) && !Apply(w, step).exhausted && !step.Commit?
    requires !step.QueueExtract? || w.row.status == Parsing
    ensures Apply(w, step).row.status == w.row.status
    ensures Carries(w.row.status, Apply(w, step).queue, Apply(w, step).workers, slot)
  {
    if Moving(step) {
      CarrierMoves(w, step, slot);
    }
  }

  lemma CarrierMoves(w: World, step: Step, slot: nat)
    requires Enabled(w, step) && Moving(step) && !step.Commit?
    requires Typed(w.queue, w.nextSlot, w.workers) && Carries(w.row.status, w.queue, w.workers, slot)
    requires InBetween(w.row.status) && (!step.QueueExtract? || w.row.status == Parsing)
    ensures Carries(w.row.status, Apply(w, step).queue, Apply(w, step).workers, slot)
  {
    var pc := WorkerStepMoves(w, step);
    if w.workers[step.d].slot == slot {
      MoverAdvances(w, step, pc);
    }
  }

  lemma MoverAdvances(w: World, step: Step, pc: Pc)
    requires Enabled(w, step) && Moving(step) && !step.Commit? && At(Apply(w, step), step.d, pc)
    requires InBetween(w.row.status) && (!step.QueueExtract? || w.row.status == Parsing)
    requires step.d in w.workers && WillAdvance(w.row.status, w.workers[step.d].pc)
    ensures WillAdvance(w.row.status, pc)
  {
    if step.Read? {
      ReaderAdvances(w.row, w.workers[step.d].pc, step.tx);
    } else {
      ExtractorAdvances(w, step, pc);
    }
  }

  lemma ReaderAdvances(row: Row, pc: Pc, tx: Tx)
    requires InBetween(row.status) && Opens(pc, tx) && WillAdvance(row.status, pc)
    ensures WillAdvance(row.status, AfterRead(tx, row))
  {}

  lemma ExtractorAdvances(w: World, step: Step, pc: Pc)
    requires Enabled(w, step) && Moving(step) && !step.Commit? && !step.Read? && At(Apply(w, step), step.d, pc)
    requires InBetween(w.row.status) && (!step.QueueExtract? || w.row.status == Parsing)
    requires step.d in w.workers && WillAdvance(w.row.status, w.workers[step.d].pc)
    ensures WillAdvance(w.row.status, pc)
  {}

  lemma {:induction false} RunKeepsLeaseInv(w: World, run: seq<Step>)
    requires LeaseInv(w) && Exec(w, run, LEASED).Some?
    ensures LeaseInv(Exec(w, run, LEASED).value)
    decreases |run|
  {
    if run != [] {
      var n := |run| - 1;
      RunKeepsLeaseInv(w, run[..n]);
      var w' := Exec(w, run[..n], LEASED).value;
      StepKeepsTyped(w', run[n]);
      StepKeepsLeased(w', run[n]);
      if InBetween(Apply(w', run[n]).row.status) && !Apply(w', run[n]).exhausted {
        StepKeepsCarrier(w', run[n]);
      }
    }
  }

  lemma CarriedIsNotStranded(w: World)
    requires LeaseInv(w) && !w.exhausted
    ensures NotStranded(w)
  {
    if InBetween(w.row.status) {
      var slot :| Carries(w.row.status, w.queue, w.workers, slot);
      assert slot in w.queue && (w.queue[slot] == Parse || w.queue[slot] == Extract);
    }
  }

  /** No stranded candidate: whatever crashes, errors, redeliveries, overlapping tasks and lost updates
      a run has, until the queue gives up on a task the candidate is never left in an in-between status
      without a live task that moves it on. */
  lemma NoStrandedCandidate(hasEmail: bool, apps: multiset<nat>, run: seq<Step>)
    requires Exec(Start(hasEmail, apps), run, LEASED).Some?
    ensures var w := Exec(Start(hasEmail, apps), run, LEASED).value; w.exhausted || NotStranded(w)
  {
    var w0 := Start(hasEmail, apps);
    assert Carries(Parsing, w0.queue, w0.workers, 0);
    RunKeepsLeaseInv(w0, run);
    if !Exec(w0, run, LEASED).value.exhausted {
      CarriedIsNotStranded(Exec(w0, run, LEASED).value);
    }
  }

  // --------------------------------------------- exactly when it is stranded

  /** The live tasks that could move the candidate on. */
  function Helpers(status: Status, queue: map<nat, Kind>): set<nat> {
    set slot | slot in queue && RightKind(status, queue[slot])
  }

  /** Without a carrier, every helpful task has a worker that will let it go as it is. */
  lemma Quitter(w: World, slot: nat) returns (d: nat)
    requires Typed(w.queue, w.nextSlot, w.workers) && InBetween(w.row.status) && !Carried(w)
    requires slot in Helpers(w.row.status, w.queue)
    ensures d in w.workers && w.workers[d].slot == slot
    ensures w.workers[d].pc in {ParseAcking, ExtractAcking} || (w.row.status == Parsing && w.workers[d].pc == ParseStored)
  {
    assert !Carries(w.row.status, w.queue, w.workers, slot);
    d :| d in w.workers && w.workers[d].slot == slot && !WillAdvance(w.row.status, w.workers[d].pc);
  }

  /** Nothing can strand the candidate but this: in between, and no task carries it. */
  ghost predicate Strandable(w: World) {
    Typed(w.queue, w.nextSlot, w.workers) && InBetween(w.row.status) && !w.exhausted && !Carried(w)
  }

  /** The worker on the task in `slot` is about to let it go, if it first queues an extract task. */
  lemma AboutToLetGo(w0: World, run: seq<Step>, w: World, slot: nat) returns (run': seq<Step>, w': World, d: nat)
    requires Exec(w0, run, LEASED) == Some(w) && Strandable(w) && slot in Helpers(w.row.status, w.queue)
    ensures Exec(w0, run', LEASED) == Some(w') && Strandable(w') && w'.row == w.row
    ensures Helpers(w'.row.status, w'.queue) == Helpers(w.row.status, w.queue)
    ensures d in w'.workers && w'.workers[d].slot == slot && w'.workers[d].pc in {ParseAcking, ExtractAcking}
  {
    d := Quitter(w, slot);
    run', w' := run, w;
    if w.workers[d].pc == ParseStored {
      StepKeepsTyped(w, QueueExtract(d));
      StillUncarried(w, QueueExtract(d), d);
      run', w' := Extend(w0, run, LEASED, w, QueueExtract(d));
    }
  }

  /** Its worker lets the task in `slot` go, and nothing else starts to carry. */
  lemma LetGo(w0: World, run: seq<Step>, w: World, slot: nat) returns (run': seq<Step>, w': World)
    requires Exec(w0, run, LEASED) == Some(w) && Strandable(w) && slot in Helpers(w.row.status, w.queue)
    ensures Exec(w0, run', LEASED) == Some(w') && Strandable(w') && w'.row == w.row
    ensures Helpers(w'.row.status, w'.queue) == Helpers(w.row.status, w.queue) - {slot}
  {
    var d;
    run', w', d := AboutToLetGo(w0, run, w, slot);
    StepKeepsTyped(w', Ack(d));
    StillUncarried(w', Ack(d), d);
    run', w' := Extend(w0, run', LEASED, w', Ack(d));
  }

  lemma StillUncarried(w: World, step: Step, d: nat)
    requires Typed(w.queue, w.nextSlot, w.workers) && InBetween(w.row.status) && !Carried(w)
    requires Enabled(w, step) && (step == Ack(d) || (step == QueueExtract(d) && w.row.status == Parsing))
    ensures !Carried(Apply(w, step))
  {
    var w' := Apply(w, step);
    forall slot ensures !Carries(w'.row.status, w'.queue, w'.workers, slot) {
      if slot in Helpers(w'.row.status, w'.queue) {
        assert slot in Helpers(w.row.status, w.queue);
        var e := Quitter(w, slot);
        assert e in w'.workers && w'.workers[e].slot == slot;
        assert !WillAdvance(w'.row.status, w'.workers[e].pc);
      }
    }
  }

  /** A candidate that no task carries can be stranded, with every lease kept. */
  lemma {:induction false} Strand(w0: World, run: seq<Step>, w: World) returns (run': seq<Step>, w': World)
    requires Exec(w0, run, LEASED) == Some(w) && Strandable(w)
    ensures Exec(w0, run', LEASED) == Some(w') && !w'.exhausted && !NotStranded(w')
    decreases |Helpers(w.row.status, w.queue)|
  {
    if slot :| slot in Helpers(w.row.status, w.queue) {
      run', w' := LetGo(w0, run, w, slot);
      run', w' := Strand(w0, run', w');
    } else {
      run', w' := run, w;
      forall slot | slot in w.queue ensures !RightKind(w.row.status, w.queue[slot]) {
        assert slot !in Helpers(w.row.status, w.queue);
      }
    }
  }

  /** From any world in which no two workers share a task, leased runs cannot strand the candidate
      before the queue gives up exactly when some task carries it. */
  lemma CarriedExactly(w: World)
    requires Typed(w.queue, w.nextSlot, w.workers) && Leased(w.queue, w.workers)
    requires InBetween(w.row.status) && !w.exhausted
    ensures Carried(w) <==>
            forall run | Exec(w, run, LEASED).Some? ::
              Exec(w, run, LEASED).value.exhausted || NotStranded(Exec(w, run, LEASED).value)
  {
    if Carried(w) {
      forall run | Exec(w, run, LEASED).Some?
        ensures Exec(w, run, LEASED).value.exhausted || NotStranded(Exec(w, run, LEASED).value)
      {
        RunKeepsLeaseInv(w, run);
        if !Exec(w, run, LEASED).value.exhausted {
          CarriedIsNotStranded(Exec(w, run, LEASED).value);
        }
      }
    } else {
      var run, end := Strand(w, [], w);
    }
  }

  // ------------------------------------------------- one step of a given run

  /** Only the workers and the row differ. */
  predicate SameTasks(w: World, w': World) {
    w'.queue == w.queue && w'.nextSlot == w.nextSlot && w'.exhausted == w.exhausted
  }

  /** A delivery begins. */
  lemma Arrives(w0: World, run: seq<Step>, rules: Rules, w: World, d: nat, slot: nat) returns (run': seq<Step>, w': World)
    requires Exec(w0, run, rules) == Some(w) && Enabled(w, Begin(d, slot)) && Keeps(w, Begin(d, slot), rules)
    ensures Exec(w0, run', rules) == Some(w') && SameTasks(w, w') && w'.row == w.row
    ensures w'.workers == w.workers[d := Worker(slot, AfterRead(First(w.queue[slot]), w.row))]
  {
    run', w' := Extend(w0, run, rules, w, Begin(d, slot));
  }

  /** Worker d goes on to `pc`. */
  lemma GoesOn(w0: World, run: seq<Step>, rules: Rules, w: World, d: nat, step: Step, pc: Pc)
    returns (run': seq<Step>, w': World)
    requires Exec(w0, run, rules) == Some(w) && Enabled(w, step) && Keeps(w, step, rules)
    requires Moving(step) && !step.QueueExtract? && step.d == d && At(Apply(w, step), d, pc)
    ensures d in w.workers && w'.workers == w.workers[d := Worker(w.workers[d].slot, pc)]
    ensures Exec(w0, run', rules) == Some(w') && SameTasks(w, w')
    ensures !step.Commit? ==> w'.row == w.row
    ensures step.Commit? ==> w'.row == Overwrite(w.workers[d].pc.copy, w.workers[d].pc.tx)
  {
    var moved := WorkerStepMoves(w, step);
    TasksStay(w, step);
    run', w' := Extend(w0, run, rules, w, step);
  }

  lemma TasksStay(w: World, step: Step)
    requires Enabled(w, step) && Moving(step) && !step.QueueExtract?
    ensures SameTasks(w, Apply(w, step))
    ensures step.Commit? ==> Apply(w, step).row == Overwrite(w.workers[step.d].pc.copy, w.workers[step.d].pc.tx)
  {}

  /** Worker d writes its copy back, stale or not; phase 1 finds no job. */
  lemma Writes(w0: World, run: seq<Step>, rules: Rules, w: World, d: nat) returns (run': seq<Step>, w': World)
    requires Exec(w0, run, rules) == Some(w) && d in w.workers && w.workers[d].pc.Writing?
    requires rules.serial ==> w.workers[d].pc.copy == w.row
    ensures var Writing(tx, copy) := w.workers[d].pc;
            w'.workers == w.workers[d := Worker(w.workers[d].slot, AfterCommit(tx, copy))] && w'.row == Overwrite(copy, tx)
    ensures Exec(w0, run', rules) == Some(w') && SameTasks(w, w')
  {
    CommitWrites(w, Commit(d, []));
    TransactionMoves(w, Commit(d, []));
    TasksStay(w, Commit(d, []));
    run', w' := Extend(w0, run, rules, w, Commit(d, []));
  }

  /** The candidate confirms. */
  lemma Confirms(w0: World, run: seq<Step>, rules: Rules, w: World, resume: nat, email: bool)
    returns (run': seq<Step>, w': World)
    requires Exec(w0, run, rules) == Some(w) && w.row.status == PendingReview && w.row.hasToken
    ensures Exec(w0, run', rules) == Some(w') && SameTasks(w, w') && w'.workers == w.workers
    ensures w'.row == ConfirmRow(w.row, resume, email)
  {
    run', w' := Extend(w0, run, rules, w, Confirm(resume, email));
  }

  /** Worker d reads the row in a later transaction and commits, with nothing in between. */
  lemma Transacts(w0: World, run: seq<Step>, rules: Rules, w: World, d: nat, tx: Tx) returns (run': seq<Step>, w': World)
    requires Exec(w0, run, rules) == Some(w) && d in w.workers && Opens(w.workers[d].pc, tx)
    requires AfterRead(tx, w.row) == Writing(tx, w.row)
    ensures w'.workers == w.workers[d := Worker(w.workers[d].slot, AfterCommit(tx, w.row))]
    ensures Exec(w0, run', rules) == Some(w') && SameTasks(w, w') && w'.row == Overwrite(w.row, tx)
  {
    run', w' := GoesOn(w0, run, rules, w, d, Read(d, tx), Writing(tx, w.row));
    run', w' := Writes(w0, run', rules, w', d);
  }

  /** It returns and takes its task out of the queue. */
  lemma Returns(w0: World, run: seq<Step>, rules: Rules, w: World, d: nat) returns (run': seq<Step>, w': World)
    requires Exec(w0, run, rules) == Some(w) && (At(w, d, ParseAcking) || At(w, d, ExtractAcking))
    ensures Exec(w0, run', rules) == Some(w') && w'.row == w.row && w'.nextSlot == w.nextSlot && w'.exhausted == w.exhausted
    ensures w'.workers == w.workers - {d} && w'.queue == w.queue - {w.workers[d].slot}
  {
    run', w' := Extend(w0, run, rules, w, Ack(d));
  }

  /** It dies. */
  lemma Dies(w0: World, run: seq<Step>, rules: Rules, w: World, d: nat) returns (run': seq<Step>, w': World)
    requires Exec(w0, run, rules) == Some(w) && d in w.workers
    ensures Exec(w0, run', rules) == Some(w') && w'.row == w.row && SameTasks(w, w') && w'.workers == w.workers - {d}
  {
    run', w' := Extend(w0, run, rules, w, Fail(d));
  }

  // ---------------------------------------------- how a candidate is stranded

  /** The lease is needed for parse tasks: two deliveries of one task read the row; the first finds the
      CV unreadable and returns, then the second marks the row parsing and dies. */
  lemma DoubleParseStrands() returns (run: seq<Step>)
    ensures Exec(Start(false, multiset{}), run, ANY).Some?
    ensures var w := Exec(Start(false, multiset{}), run, ANY).value;
            !w.exhausted && w.row.status == Parsing && w.queue == map[] && w.workers == map[]
  {
    var w0 := Start(false, multiset{});
    var w;
    run, w := Arrives(w0, [], ANY, w0, 0, 0);
    run, w := Arrives(w0, run, ANY, w, 1, 0);
    run, w := Writes(w0, run, ANY, w, 0);
    run, w := Unreadable(w0, run, ANY, w, 0);
    run, w := Writes(w0, run, ANY, w, 1);
    run, w := Dies(w0, run, ANY, w, 1);
  }

  /** A delivery of the parse task fails to read the CV and returns. */
  lemma Unreadable(w0: World, run: seq<Step>, rules: Rules, w: World, d: nat) returns (run': seq<Step>, w': World)
    requires Exec(w0, run, rules) == Some(w) && At(w, d, ParseFetched)
    ensures Exec(w0, run', rules) == Some(w') && w'.exhausted == w.exhausted
    ensures w'.workers == w.workers - {d} && w'.queue == w.queue - {w.workers[d].slot}
  {
    run', w' := Transacts(w0, run, rules, w, d, MarkUnreadable);
    run', w' := Returns(w0, run', rules, w', d);
  }

  /** And for extract tasks: the first delivery gets a malformed answer and returns, then the second
      marks the row extracting and dies. */
  lemma DoubleExtractionStrands() returns (run: seq<Step>)
    ensures Exec(Start(false, multiset{}), run, ANY).Some?
    ensures var w := Exec(Start(false, multiset{}), run, ANY).value;
            !w.exhausted && w.row.status == Extracting && w.queue == map[] && w.workers == map[]
  {
    var w0 := Start(false, multiset{});
    var w;
    run, w := ParseOnce(w0);
    Relax(w0, run, ANY, SERIAL);
    run, w := Arrives(w0, run, ANY, w, 0, 1);
    run, w := Arrives(w0, run, ANY, w, 1, 1);
    run, w := GivesUp(w0, run, w);
    run, w := Writes(w0, run, ANY, w, 1);
    run, w := Dies(w0, run, ANY, w, 1);
  }

  /** Delivery 0 of the extract task fails for good and returns. */
  lemma GivesUp(w0: World, run: seq<Step>, w: World) returns (run': seq<Step>, w': World)
    requires Exec(w0, run, ANY) == Some(w) && At(w, 0, Writing(MarkExtracting, w.row)) && w.row.structured == None
    ensures Exec(w0, run', ANY) == Some(w') && w'.exhausted == w.exhausted
    ensures w'.workers == w.workers - {0} && w'.queue == w.queue - {w.workers[0].slot}
  {
    run', w' := Writes(w0, run, ANY, w, 0);
    run', w' := GoesOn(w0, run', ANY, w', 0, AskLlm(0, Malformed), ExtractUnusable);
    run', w' := Transacts(w0, run', ANY, w', 0, MarkFailed);
    run', w' := Returns(w0, run', ANY, w', 0);
  }

  /** A parse task delivered twice can also leave the candidate parsed with an empty queue, and without
      any lost update: both deliveries mark the row, the first finds the CV unreadable and returns, and
      the second stores its text and dies. */
  lemma DoubleParseStrandsParsed(hasEmail: bool, apps: multiset<nat>) returns (run: seq<Step>)
    ensures Exec(Start(hasEmail, apps), run, UNLEASED).Some?
    ensures var w := Exec(Start(hasEmail, apps), run, UNLEASED).value;
            !w.exhausted && w.row.status == Parsed && w.queue == map[] && w.workers == map[]
  {
    var w0 := Start(hasEmail, apps);
    var w;
    run, w := BothMarked(w0);
    run, w := Unreadable(w0, run, UNLEASED, w, 0);
    run, w := Transacts(w0, run, UNLEASED, w, 1, StoreText(false));
    run, w := Dies(w0, run, UNLEASED, w, 1);
  }

  lemma BothMarked(w0: World) returns (run: seq<Step>, w: World)
    requires w0.workers == map[] && w0.queue == map[0 := Parse] && !w0.exhausted && w0.row.status == Parsing
    ensures Exec(w0, run, UNLEASED) == Some(w) && SameTasks(w0, w)
    ensures w.workers == map[0 := Worker(0, ParseFetched), 1 := Worker(0, ParseFetched)]
  {
    run, w := Marked(w0, [], w0, 0);
    run, w := Marked(w0, run, w, 1);
  }

  /** A delivery of the parse task marks the candidate. */
  lemma Marked(w0: World, run: seq<Step>, w: World, d: nat) returns (run': seq<Step>, w': World)
    requires Exec(w0, run, UNLEASED) == Some(w) && d !in w.workers && w.queue == map[0 := Parse] && w.row.status == Parsing
    ensures Exec(w0, run', UNLEASED) == Some(w') && SameTasks(w, w') && w'.row.status == Parsing
    ensures w'.workers == w.workers[d := Worker(0, ParseFetched)]
  {
    run', w' := Arrives(w0, run, UNLEASED, w, d, 0);
    run', w' := Writes(w0, run', UNLEASED, w', d);
  }

  lemma {:induction false} AloneIsLeased(w: World, run: seq<Step>, rules: Rules)
    requires rules.leased || rules.alone
    requires Exec(w, run, rules).Some?
    ensures Exec(w, run, LEASED) == Exec(w, run, rules)
    decreases |run|
  {
    if run != [] {
      AloneIsLeased(w, run[..|run| - 1], rules);
    }
  }

  /** The lease is the limit: of all rules on runs, those keep the candidate from being stranded before
      the queue gives up that give every task to one worker at a time, or run one delivery at a time. */
  lemma LeaseIsTheLimit(hasEmail: bool, apps: multiset<nat>, rules: Rules)
    ensures (forall run | Exec(Start(hasEmail, apps), run, rules).Some? ::
               var w := Exec(Start(hasEmail, apps), run, rules).value; w.exhausted || NotStranded(w))
            <==> rules.leased || rules.alone
  {
    var w0 := Start(hasEmail, apps);
    if rules.leased || rules.alone {
      forall run | Exec(w0, run, rules).Some?
        ensures var w := Exec(w0, run, rules).value; w.exhausted || NotStranded(w)
      {
        AloneIsLeased(w0, run, rules);
        NoStrandedCandidate(hasEmail, apps, run);
      }
    } else {
      var run := DoubleParseStrandsParsed(hasEmail, apps);
      Relax(w0, run, rules, UNLEASED);
      assert Exec(w0, run, rules).Some?;
    }
  }

  predicate Quiet(w: World, row: Row, queue: map<nat, Kind>, nextSlot: nat) {
    w.row == row && w.queue == queue && w.nextSlot == nextSlot && w.workers == map[] && !w.exhausted
  }

  /** The parse task, from start to end. */
  lemma ParseOnce(w0: World) returns (run: seq<Step>, w: World)
    requires w0 == Start(false, multiset{})
    ensures Exec(w0, run, SERIAL) == Some(w)
    ensures Quiet(w, Row(Parsed, true, None, false, false), map[1 := Extract], 2)
  {
    run, w := Arrives(w0, [], SERIAL, w0, 0, 0);
    run, w := Writes(w0, run, SERIAL, w, 0);
    run, w := Transacts(w0, run, SERIAL, w, 0, StoreText(false));
    run, w := QueuesAndReturns(w0, run, w);
  }

  lemma QueuesAndReturns(w0: World, run: seq<Step>, w: World) returns (run': seq<Step>, w': World)
    requires Exec(w0, run, SERIAL) == Some(w) && w.workers == map[0 := Worker(0, ParseStored)]
    requires w.queue == map[0 := Parse] && w.nextSlot == 1 && !w.exhausted
    ensures Exec(w0, run', SERIAL) == Some(w') && Quiet(w', w.row, map[1 := Extract], 2)
  {
    Requeued(w);
    run', w' := Extend(w0, run, SERIAL, w, QueueExtract(0));
    run', w' := Returns(w0, run', SERIAL, w', 0);
    assert w'.queue == map[1 := Extract];
  }

  lemma Requeued(w: World)
    requires At(w, 0, ParseStored) && w.queue == map[0 := Parse] && w.nextSlot == 1
    ensures var w' := Apply(w, QueueExtract(0));
            && w'.queue == map[0 := Parse, 1 := Extract] && w'.nextSlot == 2 && w'.row == w.row
            && w'.exhausted == w.exhausted && w'.workers == w.workers[0 := w.workers[0].(pc := ParseAcking)]
  {}

  // ------------------------------------------------------------ lost updates

  /** What an update of the row did: a worker's transaction, or the candidate's confirmation. */
  datatype Write = Tx(tx: Tx) | Confirmed(resume: nat, email: bool)

  function Rewrite(row: Row, write: Write): Row {
    match write case Tx(tx) => Overwrite(row, tx) case Confirmed(resume, email) => ConfirmRow(row, resume, email)
  }

  /** The writes one after the other, each on the row the last one left. */
  function Replay(row: Row, writes: seq<Write>): Row {
    if writes == [] then row else Rewrite(Replay(row, writes[..|writes| - 1]), writes[|writes| - 1])
  }

  /** The write of a step, if it is one. */
  function WriteOf(w: World, step: Step): Option<Write>
    requires Enabled(w, step)
  {
    match step
    case Commit(d, _) => Some(Tx(w.workers[d].pc.tx))
    case Confirm(resume, email) => Some(Confirmed(resume, email))
    case _ => None
  }

  /** Lineages: the writes the row stems from, and those that each worker's last read stems from. A
      commit puts its own write on what was read, so every write between the read and the commit is
      lost. */
  datatype Lineage = Lineage(row: seq<Write>, copies: map<nat, seq<Write>>)

  function Record(l: Lineage, w: World, step: Step): Lineage
    requires Enabled(w, step)
  {
    match step
    case Begin(d, _) => l.(copies := l.copies[d := l.row])
    case Read(d, _) => l.(copies := l.copies[d := l.row])
    case Commit(d, _) => l.(row := (if d in l.copies then l.copies[d] else l.row) + [WriteOf(w, step).value])
    case Confirm(_, _) => l.(row := l.row + [WriteOf(w, step).value])
    case _ => l
  }

  function LineageOf(w: World, run: seq<Step>, rules: Rules): Lineage
    requires Exec(w, run, rules).Some?
    decreases |run|
  {
    if run == [] then Lineage([], map[])
    else
      var n := |run| - 1;
      Record(LineageOf(w, run[..n], rules), Exec(w, run[..n], rules).value, run[n])
  }

  /** Every write of a run, in order. */
  function WritesOf(w: World, run: seq<Step>, rules: Rules): seq<Write>
    requires Exec(w, run, rules).Some?
    decreases |run|
  {
    if run == [] then []
    else
      var n := |run| - 1;
      var write := WriteOf(Exec(w, run[..n], rules).value, run[n]);
      WritesOf(w, run[..n], rules) + if write.Some? then [write.value] else []
  }

  ghost predicate Stems(row0: Row, l: Lineage, w: World) {
    && w.row == Replay(row0, l.row)
    && (forall d | d in w.workers && w.workers[d].pc.Writing? ::
          d in l.copies && w.workers[d].pc.copy == Replay(row0, l.copies[d]))
  }

  lemma ReplaySnoc(row: Row, writes: seq<Write>, write: Write)
    ensures Replay(row, writes + [write]) == Rewrite(Replay(row, writes), write)
  {
    assert (writes + [write])[..|writes|] == writes;
  }

  lemma StepStems(row0: Row, l: Lineage, w: World, step: Step)
    requires Stems(row0, l, w) && Enabled(w, step)
    ensures Stems(row0, Record(l, w, step), Apply(w, step))
  {
    RowStems(row0, l, w, step);
    CopiesStem(row0, l, w, step);
  }

  lemma RowStems(row0: Row, l: Lineage, w: World, step: Step)
    requires Stems(row0, l, w) && Enabled(w, step)
    ensures Apply(w, step).row == Replay(row0, Record(l, w, step).row)
  {
    if step.Commit? {
      ReplaySnoc(row0, l.copies[step.d], WriteOf(w, step).value);
    } else if step.Confirm? {
      ReplaySnoc(row0, l.row, WriteOf(w, step).value);
    }
  }

  /** Copies are taken when the row is read, and kept by every other step. */
  lemma CopiesStem(row0: Row, l: Lineage, w: World, step: Step)
    requires Stems(row0, l, w) && Enabled(w, step)
    ensures var w', copies := Apply(w, step), Record(l, w, step).copies;
            forall d | d in w'.workers && w'.workers[d].pc.Writing? ::
              d in copies && w'.workers[d].pc.copy == Replay(row0, copies[d])
  {
    if step.Read? {
      ReadStems(row0, l, w, step);
    } else if Moving(step) {
      MoveStems(row0, l, w, step);
    }
  }

  lemma ReadStems(row0: Row, l: Lineage, w: World, step: Step)
    requires Stems(row0, l, w) && Enabled(w, step) && step.Read?
    ensures var w', copies := Apply(w, step), Record(l, w, step).copies;
            forall d | d in w'.workers && w'.workers[d].pc.Writing? ::
              d in copies && w'.workers[d].pc.copy == Replay(row0, copies[d])
  {}

  lemma MoveStems(row0: Row, l: Lineage, w: World, step: Step)
    requires Stems(row0, l, w) && Enabled(w, step) && Moving(step) && !step.Read?
    ensures var w', copies := Apply(w, step), Record(l, w, step).copies;
            forall d | d in w'.workers && w'.workers[d].pc.Writing? ::
              d in copies && w'.workers[d].pc.copy == Replay(row0, copies[d])
  {
    var pc := WorkerStepMoves(w, step);
    assert !pc.Writing?;
  }

  /** Over every run, however transactions overlap: the row is what the writes of its lineage leave when
      they are made one after the other, and nothing else. */
  lemma {:induction false} RowIsItsLineage(w: World, run: seq<Step>, rules: Rules)
    requires w.workers == map[] && Exec(w, run, rules).Some?
    ensures Stems(w.row, LineageOf(w, run, rules), Exec(w, run, rules).value)
    ensures Exec(w, run, rules).value.row == Replay(w.row, LineageOf(w, run, rules).row)
    decreases |run|
  {
    if run != [] {
      var n := |run| - 1;
      RowIsItsLineage(w, run[..n], rules);
      StepStems(w.row, LineageOf(w, run[..n], rules), Exec(w, run[..n], rules).value, run[n]);
    }
  }

  /** When no commit overwrites a row that changed since it was read, no write is lost. */
  lemma {:induction false} SerialRunsKeepEveryWrite(w: World, run: seq<Step>, rules: Rules)
    requires rules.serial && Exec(w, run, rules).Some?
    ensures Exec(w, run, rules).value.row == Replay(w.row, WritesOf(w, run, rules))
    decreases |run|
  {
    if run != [] {
      var n := |run| - 1;
      SerialRunsKeepEveryWrite(w, run[..n], rules);
      var write := WriteOf(Exec(w, run[..n], rules).value, run[n]);
      if write.Some? {
        ReplaySnoc(w.row, WritesOf(w, run[..n], rules), write.value);
      } else {
        assert WritesOf(w, run, rules) == WritesOf(w, run[..n], rules);
      }
    }
  }

  predicate Saves(write: Write) { write.Tx? && write.tx.Phase1? }

  /** Some write stores a profile. */
  predicate Profiled(writes: seq<Write>) {
    exists i | 0 <= i < |writes| :: Saves(writes[i]) || writes[i].Confirmed?
  }

  /** Of the writes of phase 1 and the confirmations, the last is a phase 1. */
  predicate Tokened(writes: seq<Write>) {
    exists i | 0 <= i < |writes| :: Saves(writes[i]) && forall j | i < j < |writes| :: !writes[j].Confirmed?
  }

  lemma ProfiledSnoc(writes: seq<Write>, write: Write)
    ensures Profiled(writes + [write]) <==> Profiled(writes) || Saves(write) || write.Confirmed?
  {
    var all := writes + [write];
    if Profiled(writes) {
      var i :| 0 <= i < |writes| && (Saves(writes[i]) || writes[i].Confirmed?);
      assert all[i] == writes[i];
    }
    assert all[|writes|] == write;
  }

  lemma TokenedSnoc(writes: seq<Write>, write: Write)
    ensures Tokened(writes + [write]) <==> Saves(write) || (Tokened(writes) && !write.Confirmed?)
  {
    var all := writes + [write];
    assert all[|writes|] == write;
    if Tokened(writes) && !write.Confirmed? {
      var i :| 0 <= i < |writes| && Saves(writes[i]) && forall j | i < j < |writes| :: !writes[j].Confirmed?;
      assert Saves(all[i]) && forall j | i < j < |all| :: !all[j].Confirmed?;
    }
    if Tokened(all) && !Saves(write) {
      var i :| 0 <= i < |all| && Saves(all[i]) && forall j | i < j < |all| :: !all[j].Confirmed?;
      assert Saves(writes[i]);
      forall j | i < j < |writes| ensures !writes[j].Confirmed? {
        assert all[j] == writes[j];
      }
    }
  }

  /** What a sequence of writes leaves in the two columns of the review. */
  lemma {:induction false} ReplayedProfile(row: Row, writes: seq<Write>)
    requires row.structured == None && !row.hasToken
    ensures Replay(row, writes).structured.Some? <==> Profiled(writes)
    ensures Replay(row, writes).hasToken <==> Tokened(writes)
  {
    if writes != [] {
      var n := |writes| - 1;
      ReplayedProfile(row, writes[..n]);
      ProfiledSnoc(writes[..n], writes[n]);
      TokenedSnoc(writes[..n], writes[n]);
      assert writes[..n] + [writes[n]] == writes;
    }
  }

  // --------------------------------------------------- effects happen once

  /** At most one application per job, exactly one per job seen; no notice accepted twice. */
  ghost predicate NoDuplicates(apps: multiset<nat>, seen: set<nat>, accepted: multiset<Notice>) {
    && (forall j :: apps[j] <= 1)
    && (forall j | j in seen :: apps[j] == 1)
    && (forall n :: accepted[n] <= 1)
  }

  /** What a worker past phase 1 may rely on. */
  predicate PhaseOk(pc: Pc, persisted: bool, synced: bool) {
    && (pc.ExtractPersisted? || pc.ExtractAddressed? || pc.ExtractMailed? ==> persisted)
    && (pc.ExtractSynced? || (pc.Writing? && pc.tx.Phase3?) ==> persisted && synced)
  }

  predicate Phased(w: World) {
    && (forall d | d in w.workers :: PhaseOk(w.workers[d].pc, w.persisted, SyncMnemosyne in w.accepted))
    && (w.row.status == PendingReview ==> w.persisted && SyncMnemosyne in w.accepted)
  }

  ghost predicate EffectInv(w: World) { NoDuplicates(w.apps, w.seen, w.accepted) && Phased(w) }

  lemma StepKeepsNoDuplicates(w: World, step: Step)
    requires NoDuplicates(w.apps, w.seen, w.accepted) && Enabled(w, step)
    ensures var w' := Apply(w, step); NoDuplicates(w'.apps, w'.seen, w'.accepted)
  {
    if step.Commit? {
      CommitKeepsNoDuplicates(w, step);
    }
  }

  lemma CommitKeepsNoDuplicates(w: World, step: Step)
    requires NoDuplicates(w.apps, w.seen, w.accepted) && Enabled(w, step) && step.Commit?
    ensures var w' := Apply(w, step); NoDuplicates(w'.apps, w'.seen, w'.accepted)
  {}

  lemma EffectsStay(w: World, step: Step)
    requires Enabled(w, step)
    ensures w.persisted ==> Apply(w, step).persisted
    ensures SyncMnemosyne in w.accepted ==> SyncMnemosyne in Apply(w, step).accepted
  {}

  lemma PendingIsEarned(w: World, step: Step)
    requires Phased(w) && Enabled(w, step) && Apply(w, step).row.status == PendingReview
    ensures w.persisted && SyncMnemosyne in w.accepted
  {
    if step.Commit? {
      CommitWrites(w, step);
      assert PhaseOk(w.workers[step.d].pc, w.persisted, SyncMnemosyne in w.accepted);
    }
  }

  lemma MoverIsPhased(w: World, step: Step, pc: Pc)
    requires Enabled(w, step) && Moving(step) && step.d in w.workers && At(Apply(w, step), step.d, pc)
    requires PhaseOk(w.workers[step.d].pc, w.persisted, SyncMnemosyne in w.accepted)
    ensures PhaseOk(pc, Apply(w, step).persisted, SyncMnemosyne in Apply(w, step).accepted)
  {
    if step.Commit? {
      CommitIsPhased(w, step);
    } else if step.Read? {
      ReadIsPhased(w, step);
    }
  }

  lemma CommitIsPhased(w: World, step: Step)
    requires Enabled(w, step) && step.Commit?
    ensures var Writing(tx, copy) := w.workers[step.d].pc;
            At(Apply(w, step), step.d, AfterCommit(tx, copy)) && (tx.Phase1? ==> Apply(w, step).persisted)
  {}

  lemma ReadIsPhased(w: World, step: Step)
    requires Enabled(w, step) && step.Read? && PhaseOk(w.workers[step.d].pc, w.persisted, SyncMnemosyne in w.accepted)
    ensures PhaseOk(AfterRead(step.tx, w.row), w.persisted, SyncMnemosyne in w.accepted)
  {}

  lemma StepKeepsPhased(w: World, step: Step)
    requires Phased(w) && Enabled(w, step)
    ensures Phased(Apply(w, step))
  {
    EffectsStay(w, step);
    WorkersStayPhased(w, step);
    if Apply(w, step).row.status == PendingReview {
      PendingIsEarned(w, step);
    }
  }

  lemma WorkersStayPhased(w: World, step: Step)
    requires Phased(w) && Enabled(w, step)
    ensures var w' := Apply(w, step);
            forall d | d in w'.workers :: PhaseOk(w'.workers[d].pc, w'.persisted, SyncMnemosyne in w'.accepted)
  {
    EffectsStay(w, step);
    if Moving(step) {
      var pc := WorkerStepMoves(w, step);
      MoverIsPhased(w, step, pc);
    }
  }

  lemma StepKeepsEffectInv(w: World, step: Step)
    requires EffectInv(w) && Enabled(w, step)
    ensures EffectInv(Apply(w, step))
  {
    StepKeepsNoDuplicates(w, step);
    StepKeepsPhased(w, step);
  }

  lemma {:induction false} RunKeepsEffectInv(w: World, run: seq<Step>, rules: Rules)
    requires EffectInv(w) && Exec(w, run, rules).Some?
    ensures EffectInv(Exec(w, run, rules).value)
    decreases |run|
  {
    if run != [] {
      RunKeepsEffectInv(w, run[..|run| - 1], rules);
      StepKeepsEffectInv(Exec(w, run[..|run| - 1], rules).value, run[|run| - 1]);
    }
  }

  /** Over every interleaving, double deliveries and overlapping transactions included: no notice is ever
      accepted twice, there is exactly one application per job that some committed phase 1 saw active, and
      a candidate pending review had its sync task accepted. Its row holds structured data exactly when a
      phase 1 or a confirmation is in the lineage of the row, and a review token exactly when the last of
      these is a phase 1; `LostUpdateEmptiesTheProfile` shows that neither is certain. */
  lemma PendingReviewIsComplete(hasEmail: bool, apps: multiset<nat>, run: seq<Step>, rules: Rules)
    requires forall j :: apps[j] <= 1
    requires Exec(Start(hasEmail, apps), run, rules).Some?
    ensures var w := Exec(Start(hasEmail, apps), run, rules).value;
            var lineage := LineageOf(Start(hasEmail, apps), run, rules).row;
            && (forall n :: w.accepted[n] <= 1)
            && (forall j | j in w.seen :: w.apps[j] == 1)
            && (w.row.status == PendingReview ==> w.accepted[SyncMnemosyne] == 1)
            && (w.row.structured.Some? <==> Profiled(lineage))
            && (w.row.hasToken <==> Tokened(lineage))
  {
    var w0 := Start(hasEmail, apps);
    RunKeepsEffectInv(w0, run, rules);
    RowIsItsLineage(w0, run, rules);
    ReplayedProfile(w0.row, LineageOf(w0, run, rules).row);
  }

  /** In serial runs no update is lost: a candidate pending review has structured data, and lacks its
      token exactly when a confirmation came after the last phase 1. */
  lemma SerialPendingReview(hasEmail: bool, apps: multiset<nat>, run: seq<Step>, rules: Rules)
    requires rules.serial && (forall j :: apps[j] <= 1) && Exec(Start(hasEmail, apps), run, rules).Some?
    ensures var w := Exec(Start(hasEmail, apps), run, rules).value;
            var writes := WritesOf(Start(hasEmail, apps), run, rules);
            && (w.row.hasToken <==> Tokened(writes))
            && (w.row.status == PendingReview ==> w.row.structured.Some?)
  {
    var w0 := Start(hasEmail, apps);
    RunKeepsEffectInv(w0, run, rules);
    SerialRunsKeepEveryWrite(w0, run, rules);
    ReplayedProfile(w0.row, WritesOf(w0, run, rules));
    PersistedWasWritten(w0, run, rules);
  }

  lemma {:induction false} PersistedWasWritten(w: World, run: seq<Step>, rules: Rules)
    requires !w.persisted && Exec(w, run, rules).Some?
    ensures Exec(w, run, rules).value.persisted ==> Profiled(WritesOf(w, run, rules))
    decreases |run|
  {
    if run != [] {
      var n := |run| - 1;
      PersistedWasWritten(w, run[..n], rules);
      var write := WriteOf(Exec(w, run[..n], rules).value, run[n]);
      if write.Some? {
        ProfiledSnoc(WritesOf(w, run[..n], rules), write.value);
      } else {
        assert WritesOf(w, run, rules) == WritesOf(w, run[..n], rules);
      }
    }
  }

  // -------------------------------------------- one delivery after the other

  predicate Mailed(w: World) { w.row.hasEmail ==> w.accepted[ReviewEmail] == 1 }

  /** Only a parse delivery that found the candidate pending review can overlap another write, the
      candidate's confirmation. */
  predicate CopyOk(w: World, pc: Pc)
    requires pc.Writing?
  {
    && (pc.Handler() == Extract ==> pc.copy == w.row)
    && (pc.tx.MarkExtracting? ==> w.row.status !in {Extracted, PendingReview})
    && (w.persisted ==> pc.copy.structured.Some?)
  }

  predicate Tells(pc: Pc) { pc.ExtractPersisted? || pc.ExtractAddressed? || pc.ExtractMailed? }

  predicate Told(pc: Pc) { pc.ExtractMailed? || pc.ExtractSynced? || (pc.Writing? && pc.tx.Phase3?) }

  predicate DeliveryOk(w: World, pc: Pc) {
    && (pc.Writing? ==> CopyOk(w, pc))
    && (pc.Handler() == Extract && !pc.ExtractAcking? && !(pc.Writing? && pc.tx.MarkExtracting?) ==>
          w.row.status == Extracting)
    && (pc.ExtractLoaded? ==> pc.stored == w.row.structured)
    && (Tells(pc) || Told(pc) ==> w.row.hasToken)
    && (pc.ExtractAddressed? ==> pc.send == w.row.hasEmail)
    && (Told(pc) ==> Mailed(w))
  }

  ghost predicate SequentialInv(w: World) {
    && (forall d, e | d in w.workers && e in w.workers :: d == e)
    && (w.persisted ==> w.row.structured.Some?)
    && (forall n :: w.accepted[n] <= 1)
    && (w.row.status == PendingReview ==> w.row.hasToken && Mailed(w))
    && (forall d | d in w.workers :: DeliveryOk(w, w.workers[d].pc))
  }

  lemma StepKeepsDeliveries(w: World, step: Step)
    requires SequentialInv(w) && Enabled(w, step) && Keeps(w, step, ALONE)
    ensures forall d | d in Apply(w, step).workers :: DeliveryOk(Apply(w, step), Apply(w, step).workers[d].pc)
  {
    if Moving(step) {
      MoveKeepsDelivery(w, step);
    }
  }

  lemma MoveKeepsDelivery(w: World, step: Step)
    requires SequentialInv(w) && Enabled(w, step) && Moving(step)
    ensures forall d | d in Apply(w, step).workers :: DeliveryOk(Apply(w, step), Apply(w, step).workers[d].pc)
  {
    var pc := WorkerStepMoves(w, step);
    assert DeliveryOk(w, w.workers[step.d].pc);
    if step.Read? || step.Commit? {
      TransactionIsOk(w, step, pc);
    } else {
      MoverIsOk(w, step, pc);
    }
    forall d | d in Apply(w, step).workers ensures d == step.d {}
  }

  lemma TransactionIsOk(w: World, step: Step, pc: Pc)
    requires SequentialInv(w) && Enabled(w, step) && (step.Read? || step.Commit?) && At(Apply(w, step), step.d, pc)
    ensures DeliveryOk(Apply(w, step), pc)
  {
    assert DeliveryOk(w, w.workers[step.d].pc);
  }

  lemma MoverIsOk(w: World, step: Step, pc: Pc)
    requires SequentialInv(w) && Enabled(w, step) && Moving(step) && !step.Read? && !step.Commit?
    requires step.d in w.workers && DeliveryOk(w, w.workers[step.d].pc) && At(Apply(w, step), step.d, pc)
    ensures DeliveryOk(Apply(w, step), pc)
  {}

  lemma StepKeepsSequentialInv(w: World, step: Step)
    requires SequentialInv(w) && Enabled(w, step) && Keeps(w, step, ALONE)
    ensures SequentialInv(Apply(w, step))
    ensures w.persisted ==> Apply(w, step).persisted && Apply(w, step).llmCalls == w.llmCalls
  {
    StepKeepsSingle(w, step);
    StepKeepsDeliveries(w, step);
    StepKeepsOutcome(w, step);
  }

  lemma StepKeepsSingle(w: World, step: Step)
    requires (forall d, e | d in w.workers && e in w.workers :: d == e) && Enabled(w, step) && Keeps(w, step, ALONE)
    ensures forall d, e | d in Apply(w, step).workers && e in Apply(w, step).workers :: d == e
  {
    if Moving(step) {
      var pc := WorkerStepMoves(w, step);
    }
  }

  lemma StepKeepsOutcome(w: World, step: Step)
    requires SequentialInv(w) && Enabled(w, step) && Keeps(w, step, ALONE)
    ensures var w' := Apply(w, step);
            && (forall n :: w'.accepted[n] <= 1)
            && (w'.persisted ==> w'.row.structured.Some?)
            && (w'.row.status == PendingReview ==> w'.row.hasToken && Mailed(w'))
            && (w.persisted ==> w'.persisted && w'.llmCalls == w.llmCalls)
  {
    if step.Commit? {
      CommitKeepsOutcome(w, step);
    }
  }

  lemma CommitKeepsOutcome(w: World, step: Step)
    requires SequentialInv(w) && Enabled(w, step) && step.Commit?
    ensures var w' := Apply(w, step);
            && w'.accepted == w.accepted && w'.llmCalls == w.llmCalls
            && (w'.persisted ==> w'.row.structured.Some?)
            && (w'.row.status == PendingReview ==> w'.row.hasToken && Mailed(w'))
  {
    assert DeliveryOk(w, w.workers[step.d].pc);
  }

  lemma {:induction false} RunKeepsSequentialInv(w: World, run: seq<Step>)
    requires SequentialInv(w) && Exec(w, run, ALONE).Some?
    ensures SequentialInv(Exec(w, run, ALONE).value)
    decreases |run|
  {
    if run != [] {
      RunKeepsSequentialInv(w, run[..|run| - 1]);
      StepKeepsSequentialInv(Exec(w, run[..|run| - 1], ALONE).value, run[|run| - 1]);
    }
  }

  lemma {:induction false} NoMoreLlmCalls(w: World, run: seq<Step>)
    requires SequentialInv(w) && w.persisted && Exec(w, run, ALONE).Some?
    ensures Exec(w, run, ALONE).value.persisted && Exec(w, run, ALONE).value.llmCalls == w.llmCalls
    decreases |run|
  {
    if run != [] {
      var n := |run| - 1;
      NoMoreLlmCalls(w, run[..n]);
      RunKeepsSequentialInv(w, run[..n]);
      StepKeepsSequentialInv(Exec(w, run[..n], ALONE).value, run[n]);
    }
  }

  /** Extraction is crash-idempotent: over any sequence of crashed and retried deliveries, one at a
      time, pending review comes with structured data, a review token and, when there is an address,
      exactly one accepted review email; and once phase 1 has committed, nothing that comes later calls
      the LLM. */
  lemma ExtractionIsCrashIdempotent(hasEmail: bool, apps: multiset<nat>, run: seq<Step>, later: seq<Step>)
    requires Exec(Start(hasEmail, apps), run, ALONE).Some? && forall j :: apps[j] <= 1
    ensures var w := Exec(Start(hasEmail, apps), run, ALONE).value;
            && (w.row.status == PendingReview ==>
                  && w.row.structured.Some? && w.row.hasToken
                  && (w.row.hasEmail ==> w.accepted[ReviewEmail] == 1))
            && (w.persisted && Exec(w, later, ALONE).Some? ==> Exec(w, later, ALONE).value.llmCalls == w.llmCalls)
  {
    var w := Exec(Start(hasEmail, apps), run, ALONE).value;
    RunKeepsSequentialInv(Start(hasEmail, apps), run);
    RunKeepsEffectInv(Start(hasEmail, apps), run, ALONE);
    if w.persisted && Exec(w, later, ALONE).Some? {
      NoMoreLlmCalls(w, later);
    }
  }

  // ------------------------------------------- how a profile gets lost

  /** The parse worker and then a retry by the recruiter queue an extract task each. */
  lemma TwoExtractTasks(w0: World) returns (run: seq<Step>, w: World)
    requires w0 == Start(false, multiset{})
    ensures Exec(w0, run, SERIAL) == Some(w)
    ensures Quiet(w, Row(Parsed, true, None, false, false), map[1 := Extract, 2 := Extract], 3)
  {
    run, w := ParseOnce(w0);
    run, w := Extend(w0, run, SERIAL, w, ReExtract(w.row.status));
  }

  /** Worker d is at `pc`, and otherwise only the row differs. */
  predicate Advanced(w: World, w': World, d: nat, pc: Pc)
    requires d in w.workers
  {
    w'.workers == w.workers[d := Worker(w.workers[d].slot, pc)] && SameTasks(w, w')
  }

  /** A delivery of an extract task marks the candidate, undisturbed. */
  lemma Opened(w0: World, run: seq<Step>, w: World, d: nat) returns (run': seq<Step>, w': World)
    requires Exec(w0, run, SERIAL) == Some(w) && d !in w.workers && d in w.queue && w.queue[d] == Extract
    requires (forall e | e in w.workers :: w.workers[e].slot != d) && InBetween(w.row.status)
    ensures Exec(w0, run', SERIAL) == Some(w') && w'.row == w.row.(status := Extracting) && SameTasks(w, w')
    ensures w'.workers == w.workers[d := Worker(d, ExtractLoaded(w.row.structured))]
  {
    run', w' := Arrives(w0, run, SERIAL, w, d, d);
    run', w' := Writes(w0, run', SERIAL, w', d);
  }

  /** It asks the LLM and commits phase 1, undisturbed. */
  lemma Saved(w0: World, run: seq<Step>, rules: Rules, w: World, d: nat, resume: nat) returns (run': seq<Step>, w': World)
    requires Exec(w0, run, rules) == Some(w) && At(w, d, ExtractLoaded(None))
    ensures Exec(w0, run', rules) == Some(w') && Advanced(w, w', d, ExtractPersisted)
    ensures w'.row == w.row.(structured := Some(resume), status := Extracting, hasToken := true)
  {
    run', w' := GoesOn(w0, run, rules, w, d, AskLlm(d, Answer(resume)), ExtractReady(resume));
    run', w' := Transacts(w0, run', rules, w', d, Phase1(resume));
  }

  /** It runs phase 2. */
  lemma Notified(w0: World, run: seq<Step>, rules: Rules, w: World, d: nat) returns (run': seq<Step>, w': World)
    requires Exec(w0, run, rules) == Some(w) && At(w, d, ExtractPersisted)
    ensures Exec(w0, run', rules) == Some(w') && Advanced(w, w', d, ExtractSynced) && w'.row == w.row
  {
    run', w' := GoesOn(w0, run, rules, w, d, ReadAddress(d), ExtractAddressed(w.row.hasEmail && w.row.hasToken));
    run', w' := GoesOn(w0, run', rules, w', d, SendMail(d), ExtractMailed);
    run', w' := GoesOn(w0, run', rules, w', d, Sync(d), ExtractSynced);
  }

  /** It runs phase 3, undisturbed. */
  lemma Finished(w0: World, run: seq<Step>, rules: Rules, w: World, d: nat) returns (run': seq<Step>, w': World)
    requires Exec(w0, run, rules) == Some(w) && At(w, d, ExtractSynced) && w.row.status != PendingReview
    ensures Exec(w0, run', rules) == Some(w') && Advanced(w, w', d, ExtractAcking)
    ensures w'.row == w.row.(status := PendingReview)
  {
    run', w' := Transacts(w0, run, rules, w, d, Phase3);
  }

  /** One at a time is needed for the token even where no update is lost: two extract tasks overlap, the
      candidate confirms after the first finished, and the second then puts the row back to pending
      review without a token, for good. */
  lemma OverlapLosesTheToken() returns (run: seq<Step>)
    ensures Exec(Start(false, multiset{}), run, SERIAL).Some?
    ensures var w := Exec(Start(false, multiset{}), run, SERIAL).value;
            w.row.status == PendingReview && !w.row.hasToken && w.queue == map[] && w.workers == map[]
  {
    var w0 := Start(false, multiset{});
    var w;
    run, w := BothSynced(w0);
    run, w := Finished(w0, run, SERIAL, w, 1);
    run, w := Confirms(w0, run, SERIAL, w, 9, false);
    run, w := Finished(w0, run, SERIAL, w, 2);
    run, w := BothReturn(w0, run, w);
  }

  lemma BothReturn(w0: World, run: seq<Step>, w: World) returns (run': seq<Step>, w': World)
    requires Exec(w0, run, SERIAL) == Some(w) && w.queue == map[1 := Extract, 2 := Extract]
    requires w.workers == map[1 := Worker(1, ExtractAcking), 2 := Worker(2, ExtractAcking)]
    ensures Exec(w0, run', SERIAL) == Some(w') && w'.row == w.row && w'.queue == map[] && w'.workers == map[]
  {
    run', w' := Returns(w0, run, SERIAL, w, 1);
    run', w' := Returns(w0, run', SERIAL, w', 2);
  }

  lemma BothSynced(w0: World) returns (run: seq<Step>, w: World)
    requires w0 == Start(false, multiset{})
    ensures Exec(w0, run, SERIAL) == Some(w) && w.row == Row(Extracting, true, Some(8), true, false)
    ensures w.workers == map[1 := Worker(1, ExtractSynced), 2 := Worker(2, ExtractSynced)]
    ensures w.queue == map[1 := Extract, 2 := Extract]
  {
    run, w := TwoExtractTasks(w0);
    run, w := Opened(w0, run, w, 1);
    run, w := Opened(w0, run, w, 2);
    run, w := Saved(w0, run, SERIAL, w, 1, 7);
    run, w := Saved(w0, run, SERIAL, w, 2, 8);
    run, w := Notified(w0, run, SERIAL, w, 1);
    run, w := Notified(w0, run, SERIAL, w, 2);
  }

  /** Overlapping transactions lose updates even when every task has one worker: the second extract task
      reads the row before phase 1 of the first and writes its copy back after it. The first then
      finishes, the second dies, and its next delivery skips: the candidate is pending review with no
      structured data and no token, for good. */
  lemma LostUpdateEmptiesTheProfile() returns (run: seq<Step>)
    ensures Exec(Start(false, multiset{}), run, LEASED).Some?
    ensures var w := Exec(Start(false, multiset{}), run, LEASED).value;
            && w.row.status == PendingReview && w.row.structured == None && !w.row.hasToken
            && w.queue == map[] && w.workers == map[] && !w.exhausted
  {
    var w0 := Start(false, multiset{});
    var w;
    run, w := StaleCopy(w0);
    run, w := Saved(w0, run, LEASED, w, 1, 7);
    run, w := Writes(w0, run, LEASED, w, 2);
    run, w := Notified(w0, run, LEASED, w, 1);
    run, w := Finished(w0, run, LEASED, w, 1);
    run, w := LeaveForGood(w0, run, w);
  }

  /** Both extract deliveries have read the row, and the first has marked it. */
  lemma StaleCopy(w0: World) returns (run: seq<Step>, w: World)
    requires w0 == Start(false, multiset{})
    ensures Exec(w0, run, LEASED) == Some(w) && w.queue == map[1 := Extract, 2 := Extract] && !w.exhausted
    ensures var copy := Row(Parsed, true, None, false, false);
            && w.row == copy.(status := Extracting)
            && w.workers == map[1 := Worker(1, ExtractLoaded(None)), 2 := Worker(2, Writing(MarkExtracting, copy))]
  {
    run, w := TwoExtractTasks(w0);
    Relax(w0, run, LEASED, SERIAL);
    run, w := Arrives(w0, run, LEASED, w, 1, 1);
    run, w := Arrives(w0, run, LEASED, w, 2, 2);
    run, w := Writes(w0, run, LEASED, w, 1);
  }

  lemma LeaveForGood(w0: World, run: seq<Step>, w: World) returns (run': seq<Step>, w': World)
    requires Exec(w0, run, LEASED) == Some(w) && w.row.status == PendingReview
    requires w.workers == map[1 := Worker(1, ExtractAcking), 2 := Worker(2, ExtractLoaded(None))]
    requires w.queue == map[1 := Extract, 2 := Extract]
    ensures Exec(w0, run', LEASED) == Some(w') && w'.row == w.row && w'.exhausted == w.exhausted
    ensures w'.queue == map[] && w'.workers == map[]
  {
    run', w' := Returns(w0, run, LEASED, w, 1);
    run', w' := Dies(w0, run', LEASED, w', 2);
    assert w'.queue == map[2 := Extract] && w'.workers == map[];
    run', w' := Arrives(w0, run', LEASED, w', 3, 2);
    run', w' := Returns(w0, run', LEASED, w', 3);
  }

  // ------------------------------------------------------ the recruiter's retry

  /** Nothing is queued or running. */
  predicate Resting(w: World) { w.queue == map[] && w.workers == map[] }

  /** Worker 0 is at `pc` on the only task, in a run under way. */
  ghost predicate Onward(w0: World, run: seq<Step>, w: World, slot: nat, kind: Kind, pc: Pc) {
    && Exec(w0, run, ALONE) == Some(w) && w.queue == map[slot := kind] && w.nextSlot == slot + 1
    && w.workers == map[0 := Worker(slot, pc)]
  }

  /** Nothing runs, and one task is queued, the last there was. */
  predicate OneQueued(w: World, slot: nat, kind: Kind) {
    w.queue == map[slot := kind] && w.nextSlot == slot + 1 && w.workers == map[]
  }

  lemma RetryQueues(w: World, kind: Kind)
    requires Resting(w) && RetryTask(w.row.status) == Some(kind)
    ensures OneQueued(Retried(w, w.row.status), w.nextSlot, kind) && Retried(w, w.row.status).row == w.row
  {}

  /** The task begins, and its worker reads a row it will write. */
  lemma TaskBegins(w0: World, slot: nat, kind: Kind) returns (run: seq<Step>, w: World)
    requires OneQueued(w0, slot, kind)
    requires if kind == Parse then !(w0.row.status == Parsed && w0.row.hasText)
             else w0.row.status != Extracted && w0.row.status != PendingReview
    ensures w.row == w0.row && Onward(w0, run, w, slot, kind, Writing(First(kind), w0.row))
  {
    run, w := Arrives(w0, [], ALONE, w0, 0, slot);
  }

  lemma StoresText(w0: World, run: seq<Step>, w: World, slot: nat) returns (run': seq<Step>, w': World)
    requires Onward(w0, run, w, slot, Parse, Writing(MarkParsing, w.row))
    ensures w'.row == w.row.(status := Parsed, hasText := true) && Onward(w0, run', w', slot, Parse, ParseStored)
  {
    run', w' := Writes(w0, run, ALONE, w, 0);
    run', w' := Transacts(w0, run', ALONE, w', 0, StoreText(false));
  }

  /** A run to this row, with one task queued. */
  ghost predicate LeavesOne(w0: World, run: seq<Step>, w: World, row: Row, slot: nat, kind: Kind) {
    Exec(w0, run, ALONE) == Some(w) && w.row == row && OneQueued(w, slot, kind)
  }

  lemma Queues(w: World, slot: nat)
    requires At(w, 0, ParseStored) && w.queue == map[slot := Parse] && w.nextSlot == slot + 1
    ensures var w' := Apply(w, QueueExtract(0));
            && w'.queue == map[slot := Parse, slot + 1 := Extract] && w'.nextSlot == slot + 2 && w'.row == w.row
            && w'.workers == w.workers[0 := w.workers[0].(pc := ParseAcking)]
  {}

  lemma QueuesTheNext(w0: World, run: seq<Step>, w: World, slot: nat) returns (run': seq<Step>, w': World)
    requires Onward(w0, run, w, slot, Parse, ParseStored)
    ensures LeavesOne(w0, run', w', w.row, slot + 1, Extract)
  {
    Queues(w, slot);
    run', w' := Extend(w0, run, ALONE, w, QueueExtract(0));
    run', w' := Returns(w0, run', ALONE, w', 0);
    TakenFromTwo(slot);
  }

  lemma TakenFromTwo(slot: nat)
    ensures map[slot := Parse, slot + 1 := Extract] - {slot} == map[slot + 1 := Extract]
  {}

  /** A parse task reads the CV unless the candidate already has its text. */
  lemma ParsesAlone(w0: World, row: Row, slot: nat) returns (run: seq<Step>, w: World)
    requires OneQueued(w0, slot, Parse) && w0.row == row && !(row.status == Parsed && row.hasText)
    ensures Exec(w0, run, ALONE) == Some(w) && OneQueued(w, slot + 1, Extract)
    ensures w.row == row.(status := Parsed, hasText := true)
  {
    run, w := TaskBegins(w0, slot, Parse);
    run, w := StoresText(w0, run, w, slot);
    run, w := QueuesTheNext(w0, run, w, slot);
  }

  /** A retry after an unreadable CV reads the CV again: with nothing else queued or running, a run after it
      leaves the candidate parsed, with text and one extract task. */
  lemma RetryReadsAgain(w: World) returns (run: seq<Step>, w': World)
    requires Resting(w) && w.row.status == FailedOcr
    ensures LeavesOne(Retried(w, FailedOcr), run, w', w.row.(status := Parsed, hasText := true), w.nextSlot + 1, Extract)
  {
    run, w' := ParsesAlone(Enqueue(w, Parse), w.row, w.nextSlot);
  }

  /** From the stored data or the given answer of the LLM. */
  lemma Obtains(w0: World, run: seq<Step>, w: World, slot: nat, resume: nat) returns (run': seq<Step>, w': World)
    requires Onward(w0, run, w, slot, Extract, ExtractLoaded(w.row.structured))
    ensures w'.row == w.row
    ensures Onward(w0, run', w', slot, Extract, ExtractReady(OrElse(w.row.structured, resume)))
  {
    if w.row.structured.Some? {
      run', w' := GoesOn(w0, run, ALONE, w, 0, Decode(0), ExtractReady(w.row.structured.value));
    } else {
      run', w' := GoesOn(w0, run, ALONE, w, 0, AskLlm(0, Answer(resume)), ExtractReady(resume));
    }
  }

  lemma Persists(w0: World, run: seq<Step>, w: World, slot: nat, resume: nat) returns (run': seq<Step>, w': World)
    requires Onward(w0, run, w, slot, Extract, ExtractReady(resume))
    ensures w'.row == Overwrite(w.row, Phase1(resume)) && Onward(w0, run', w', slot, Extract, ExtractPersisted)
  {
    run', w' := Transacts(w0, run, ALONE, w, 0, Phase1(resume));
  }

  lemma TellsAndFinishes(w0: World, run: seq<Step>, w: World, slot: nat) returns (run': seq<Step>, w': World)
    requires Onward(w0, run, w, slot, Extract, ExtractPersisted) && w.row.status != PendingReview
    ensures w'.row == Overwrite(w.row, Phase3) && Onward(w0, run', w', slot, Extract, ExtractAcking)
  {
    run', w' := Notified(w0, run, ALONE, w, 0);
    run', w' := Finished(w0, run', ALONE, w', 0);
  }

  lemma PersistsAndFinishes(w0: World, run: seq<Step>, w: World, slot: nat, resume: nat)
    returns (run': seq<Step>, w': World)
    requires Onward(w0, run, w, slot, Extract, ExtractReady(resume))
    ensures Exec(w0, run', ALONE) == Some(w') && Resting(w') && w'.nextSlot == slot + 1
    ensures w'.row == w.row.(status := PendingReview, structured := Some(resume), hasToken := true)
  {
    run', w' := Persists(w0, run, w, slot, resume);
    run', w' := TellsAndFinishes(w0, run', w', slot);
    run', w' := Returns(w0, run', ALONE, w', 0);
  }

  function OrElse(stored: Option<nat>, resume: nat): nat { if stored.Some? then stored.value else resume }

  lemma ExtractsAlone(w0: World, slot: nat, resume: nat) returns (run: seq<Step>, w: World)
    requires OneQueued(w0, slot, Extract) && w0.row.status in {FailedExtract, Parsed}
    ensures Exec(w0, run, ALONE) == Some(w) && Resting(w) && w.nextSlot == slot + 1
    ensures w.row == w0.row.(status := PendingReview, hasToken := true,
                             structured := Some(OrElse(w0.row.structured, resume)))
  {
    run, w := TaskBegins(w0, slot, Extract);
    run, w := Writes(w0, run, ALONE, w, 0);
    run, w := Obtains(w0, run, w, slot, resume);
    run, w := PersistsAndFinishes(w0, run, w, slot, OrElse(w0.row.structured, resume));
  }

  /** A retry of a failed extraction, or of a parsed candidate, extracts again without reading the CV: with
      nothing else queued or running, a run after it, of this one task, leaves the candidate pending review
      with the stored resume or, for want of one, the LLM's. */
  lemma RetryExtractsAgain(w: World, resume: nat) returns (run: seq<Step>, w': World)
    requires Resting(w) && w.row.status in {FailedExtract, Parsed}
    ensures Exec(Retried(w, w.row.status), run, ALONE) == Some(w') && Resting(w') && w'.nextSlot == w.nextSlot + 1
    ensures w'.row == w.row.(status := PendingReview, hasToken := true,
                             structured := Some(OrElse(w.row.structured, resume)))
  {
    RetryQueues(w, Extract);
    run, w' := ExtractsAlone(Retried(w, w.row.status), w.nextSlot, resume);
  }

  /** A retry in any other status changes nothing. */
  lemma OthersAreNotRetried(w: World)
    ensures Retried(w, w.row.status) == w <==> w.row.status !in {FailedOcr, FailedExtract, Parsed}
  {
    assert w.nextSlot != w.nextSlot + 1;
  }

  // ------------------------------------------------ mails and confirmations

  /** Phase 2, undisturbed: the sync task is accepted in any case, the review mail exactly when it was before
      or the row, as it stands, has an address and a token to put in the link. */
  lemma NotifiesExactly(w: World, d: nat)
    requires At(w, d, ExtractPersisted)
    ensures var w' := Apply(Apply(Apply(w, ReadAddress(d)), SendMail(d)), Sync(d));
            && (ReviewEmail in w'.accepted <==> ReviewEmail in w.accepted || (w.row.hasEmail && w.row.hasToken))
            && SyncMnemosyne in w'.accepted
  {}

  /** A confirmation is the end of the review: the row holds the candidate's own profile and address and no
      token, nobody can confirm again, and an extract task that begins now leaves the row alone. */
  lemma ConfirmationEndsTheReview(w: World, resume: nat, email: bool, d: nat, slot: nat)
    requires Enabled(w, Confirm(resume, email)) && Enabled(w, Begin(d, slot)) && w.queue[slot] == Extract
    ensures var w' := Apply(w, Confirm(resume, email));
            && w'.row == Row(Extracted, w.row.hasText, Some(resume), false, email)
            && (forall again, e :: !Enabled(w', Confirm(again, e)))
            && At(Apply(w', Begin(d, slot)), d, ExtractAcking)
  {}
}
