/** The two task handlers, run one delivery at a time over the pipeline state
    (backend/internal/cv/application/parse_worker.go and extract_worker.go, handle). Each handler
    step is a step of CvPipeline, so what CvPipeline proves of deliveries one after the other holds of any
    sequence of them, however many die or fail on the way. */
module CvWorkers {
  import opened Prelude
  import opened CvPipeline

  datatype Verdict = Done | Skip | Retry

  /** What a parse delivery meets: after `steps` steps it crashes or gets an error. */
  datatype ParseScript = ParseScript(steps: nat, readable: bool, blank: bool)

  datatype ExtractScript = ExtractScript(steps: nat, llm: LlmOutcome, jobs: seq<nat>)

  /** A fully processed candidate. */
  ghost predicate Complete(w: World) {
    && w.row.status == PendingReview && w.row.structured.Some? && w.row.hasToken
    && w.accepted[SyncMnemosyne] == 1 && (w.row.hasEmail ==> w.accepted[ReviewEmail] == 1)
    && forall j | j in w.seen :: w.apps[j] == 1
  }

  /** What CvPipeline proves of every state that deliveries, one at a time, can reach. */
  ghost predicate Good(w: World) {
    SequentialInv(w) && EffectInv(w) && forall s | s in w.queue :: s < w.nextSlot
  }

  lemma StepKeepsGood(w: World, step: Step)
    requires Good(w) && Enabled(w, step) && Keeps(w, step, ALONE)
    ensures Good(Apply(w, step))
  {
    StepKeepsSequentialInv(w, step);
    StepKeepsEffectInv(w, step);
  }

  lemma PendingReviewIsGood(w: World)
    requires Good(w) && w.row.status == PendingReview
    ensures Complete(w)
  {}

  /** The world after an undisturbed transaction, but for the worker. */
  function Written(w: World, tx: Tx, jobs: seq<nat>): World {
    var w' := w.(row := Overwrite(w.row, tx));
    if tx.Phase1?
    then w'.(apps := WithMissing(w.apps, jobs), seen := w.seen + (set j | j in jobs), persisted := true)
    else w'
  }

  /** The queue without the task of a delivery that is done with it. */
  function Left(queue: map<nat, Kind>, slot: nat, verdict: Verdict): map<nat, Kind> {
    if verdict == Retry then queue else queue - {slot}
  }

  /** Nothing joined the queue but, at most, one extract task. */
  predicate Queued(before: World, after: map<nat, Kind>, slot: nat, verdict: Verdict) {
    after == Left(before.queue, slot, verdict) || after == Left(before.queue[before.nextSlot := Extract], slot, verdict)
  }

  /** What a parse delivery leaves: only its own task may leave the queue and only an extract task join
      it, and of the row only the status and the text change. */
  predicate ParseEnded(before: World, after: World, slot: nat, script: ParseScript, verdict: Verdict) {
    && (verdict == Retry <==> slot in after.queue)
    && (verdict == Done ==>
          && before.nextSlot in after.queue && after.queue[before.nextSlot] == Extract
          && after.row.status == Parsed
          && after.row == if before.row.status == Parsed && before.row.hasText then before.row
                          else before.row.(status := Parsed, hasText := !script.blank))
    && (verdict == Skip ==> after.row.status == FailedOcr)
    && (before.row.status == Parsed && before.row.hasText ==> after.row == before.row)
    && after.row == before.row.(status := after.row.status, hasText := after.row.hasText)
    && Queued(before, after.queue, slot, verdict)
    && after == before.(workers := map[], row := after.row, queue := after.queue, nextSlot := after.nextSlot)
  }

  /** Storing the text and then queueing the extraction is a whole parse delivery. */
  lemma TextStoredEnds(before: World, mid: World, after: World, slot: nat, script: ParseScript, verdict: Verdict)
    requires before.row.status == Parsing && mid == Written(before, StoreText(script.blank), []).(workers := mid.workers)
    requires after == mid.(workers := map[], queue := after.queue, nextSlot := after.nextSlot)
    requires verdict != Skip && (verdict == Retry <==> slot in after.queue) && Queued(mid, after.queue, slot, verdict)
    requires verdict == Done ==> mid.nextSlot in after.queue && after.queue[mid.nextSlot] == Extract
    ensures ParseEnded(before, after, slot, script, verdict)
  {}

  class Deliveries {
    var w: World

    ghost predicate Valid()
      reads this
    {
      Good(w)
    }

    /** The only worker runs the task in `slot` and is at `pc`. */
    ghost predicate Running(slot: nat, pc: Pc)
      reads this
    {
      Valid() && w.workers == map[0 := Worker(slot, pc)] && slot in w.queue
    }

    ghost predicate Idle()
      reads this
    {
      Valid() && w.workers == map[]
    }

    constructor (hasEmail: bool, apps: multiset<nat>)
      requires forall j :: apps[j] <= 1
      ensures Idle() && w == Start(hasEmail, apps)
    {
      w := Start(hasEmail, apps);
    }

    method Do(step: Step)
      requires Valid() && Enabled(w, step) && Keeps(w, step, ALONE)
      modifies this
      ensures Valid() && w == Apply(old(w), step)
    {
      StepKeepsGood(w, step);
      w := Apply(w, step);
    }

    // ------------------------------------------------ one step of a handler

    /** A crash or a returned error: the task will be delivered again. */
    method GiveBack(slot: nat, ghost pc: Pc)
      requires Running(slot, pc)
      modifies this
      ensures Idle() && w == old(w).(workers := map[])
    {
      Do(Fail(0));
    }

    /** Returning nil or SkipRetry; a worker that dies first has the task delivered again. */
    method Return(slot: nat, alive: bool, verdict: Verdict, ghost pc: Pc) returns (v: Verdict)
      requires Running(slot, pc) && pc in {ParseAcking, ExtractAcking}
      requires verdict != Retry
      modifies this
      ensures Idle() && w == old(w).(workers := map[], queue := if alive then old(w).queue - {slot} else old(w).queue)
      ensures v == if alive then verdict else Retry
    {
      if alive {
        Do(Ack(0));
        return verdict;
      }
      Do(Fail(0));
      return Retry;
    }

    /** The row is written back as it was read, with the changes of the transaction. */
    method Save(slot: nat, tx: Tx, jobs: seq<nat>)
      requires Running(slot, Writing(tx, w.row))
      modifies this
      ensures Running(slot, AfterCommit(tx, old(w).row)) && w == Written(old(w), tx, jobs).(workers := w.workers)
    {
      Do(Commit(0, jobs));
    }

    /** The end of a transaction that has read the row: it may die before it commits. */
    method SaveOrDie(slot: nat, tx: Tx, jobs: seq<nat>, alive: bool)
      requires Running(slot, Writing(tx, w.row))
      modifies this
      ensures if alive then
                Running(slot, AfterCommit(tx, old(w).row)) && w == Written(old(w), tx, jobs).(workers := w.workers)
              else Idle() && w == old(w).(workers := map[])
    {
      if !alive {
        GiveBack(slot, Writing(tx, w.row));
        return;
      }
      Save(slot, tx, jobs);
    }

    /** The delivery, up to the read of its first transaction. */
    method Open(slot: nat) returns (pc: Pc)
      requires Idle() && slot in w.queue
      modifies this
      ensures pc == AfterRead(First(old(w).queue[slot]), old(w).row)
      ensures Running(slot, pc) && w == old(w).(workers := w.workers)
    {
      Do(Begin(0, slot));
      pc := w.workers[0].pc;
    }

    /** The delivery and its first transaction: fetch, or loadAndMarkExtracting. None when it dies in
        between. */
    method Take(slot: nat, alive: bool) returns (pc: Option<Pc>)
      requires Idle() && slot in w.queue
      modifies this
      ensures var tx := First(old(w).queue[slot]);
              var read := AfterRead(tx, old(w).row);
              if !read.Writing? then pc == Some(read) && Running(slot, read) && w == old(w).(workers := w.workers)
              else if alive then
                var next := AfterCommit(tx, old(w).row);
                pc == Some(next) && Running(slot, next) && w == Written(old(w), tx, []).(workers := w.workers)
              else pc == None && Idle() && w == old(w)
    {
      var tx := First(w.queue[slot]);
      var read := Open(slot);
      if !read.Writing? {
        return Some(read);
      }
      SaveOrDie(slot, tx, [], alive);
      pc := if alive then Some(w.workers[0].pc) else None;
    }

    /** A later transaction, from reading the row to its commit; it may die in between. */
    method Transact(slot: nat, tx: Tx, jobs: seq<nat>, alive: bool, ghost pc: Pc)
      requires Running(slot, pc) && Opens(pc, tx)
      modifies this
      ensures if alive then
                Running(slot, AfterCommit(tx, old(w).row)) && w == Written(old(w), tx, jobs).(workers := w.workers)
              else Idle() && w == old(w).(workers := map[])
    {
      ReadRow(slot, tx, pc);
      SaveOrDie(slot, tx, jobs, alive);
    }

    method ReadRow(slot: nat, tx: Tx, ghost pc: Pc)
      requires Running(slot, pc) && Opens(pc, tx)
      modifies this
      ensures Running(slot, Writing(tx, w.row)) && w == old(w).(workers := w.workers)
    {
      Do(Read(0, tx));
    }

    method EnqueueExtract(slot: nat)
      requires Running(slot, ParseStored)
      modifies this
      ensures Running(slot, ParseAcking) && slot != old(w).nextSlot
      ensures w == old(w).(workers := w.workers, queue := old(w).queue[old(w).nextSlot := Extract], nextSlot := w.nextSlot)
    {
      Do(QueueExtract(0));
    }

    /** From the stored data when there is some, else from the LLM; a provider fault ends the
        delivery (None). */
    method ObtainResume(slot: nat, stored: Option<nat>, llm: LlmOutcome) returns (pc: Option<Pc>)
      requires Running(slot, ExtractLoaded(stored))
      modifies this
      ensures pc == if stored.Some? then Some(ExtractReady(stored.value))
                    else match llm
                         case Answer(resume) => Some(ExtractReady(resume))
                         case Malformed => Some(ExtractUnusable)
                         case Unavailable => None
      ensures if pc.Some? then Running(slot, pc.value) else Idle()
      ensures w == old(w).(workers := w.workers, llmCalls := old(w).llmCalls + if stored.Some? then 0 else 1)
    {
      if stored.Some? {
        Do(Decode(0));
        return Some(ExtractReady(stored.value));
      }
      Do(AskLlm(0, llm));
      match llm {
        case Answer(resume) => return Some(ExtractReady(resume));
        case Malformed => return Some(ExtractUnusable);
        case Unavailable => return None;
      }
    }

    /** Phase 1. */
    method PersistResume(slot: nat, resume: nat, jobs: seq<nat>, alive: bool)
      requires Running(slot, ExtractReady(resume))
      modifies this
      ensures if alive then
                Running(slot, ExtractPersisted) && w == Written(old(w), Phase1(resume), jobs).(workers := w.workers)
              else Idle() && w == old(w).(workers := map[])
    {
      var apps := CreateApplications(w.apps, jobs);
      Transact(slot, Phase1(resume), jobs, alive, ExtractReady(resume));
      assert alive ==> w.apps == apps;
    }

    method LoadAddress(slot: nat) returns (send: bool)
      requires Running(slot, ExtractPersisted)
      modifies this
      ensures Running(slot, ExtractAddressed(send)) && w == old(w).(workers := w.workers)
      ensures send == (w.row.hasEmail && w.row.hasToken)
    {
      send := w.row.hasEmail && w.row.hasToken;
      Do(ReadAddress(0));
    }

    method EnqueueMail(slot: nat, send: bool)
      requires Running(slot, ExtractAddressed(send))
      modifies this
      ensures Running(slot, ExtractMailed)
      ensures w == old(w).(workers := w.workers,
                           accepted := if send then Accept(old(w).accepted, ReviewEmail) else old(w).accepted)
    {
      Do(SendMail(0));
    }

    method EnqueueSync(slot: nat)
      requires Running(slot, ExtractMailed)
      modifies this
      ensures Running(slot, ExtractSynced)
      ensures w == old(w).(workers := w.workers, accepted := Accept(old(w).accepted, SyncMnemosyne))
    {
      Do(Sync(0));
    }

    /** Phase 2. */
    method Notify(slot: nat, steps: nat) returns (died: bool)
      requires Running(slot, ExtractPersisted)
      modifies this
      ensures if died then Idle() else Running(slot, ExtractSynced)
      ensures died <==> steps < 4
      ensures w == old(w).(workers := w.workers, accepted := w.accepted) && old(w).accepted <= w.accepted
      ensures !died ==> SyncMnemosyne in w.accepted && (w.row.hasEmail && w.row.hasToken ==> ReviewEmail in w.accepted)
      ensures ReviewEmail in w.accepted ==> ReviewEmail in old(w).accepted || (w.row.hasEmail && w.row.hasToken)
    {
      if steps == 0 {
        GiveBack(slot, ExtractPersisted);
        return true;
      }
      var send := LoadAddress(slot);
      if steps == 1 {
        GiveBack(slot, ExtractAddressed(send));
        return true;
      }
      EnqueueMail(slot, send);
      died := NotifySync(slot, steps - 2);
    }

    /** The second half of phase 2. */
    method NotifySync(slot: nat, steps: nat) returns (died: bool)
      requires Running(slot, ExtractMailed)
      modifies this
      ensures if died then Idle() else Running(slot, ExtractSynced)
      ensures died <==> steps < 2
      ensures w == old(w).(workers := w.workers, accepted := w.accepted) && old(w).accepted <= w.accepted
      ensures ReviewEmail in w.accepted ==> ReviewEmail in old(w).accepted
      ensures !died ==> SyncMnemosyne in w.accepted
    {
      if steps == 0 {
        GiveBack(slot, ExtractMailed);
        return true;
      }
      EnqueueSync(slot);
      if steps == 1 {
        GiveBack(slot, ExtractSynced);
        return true;
      }
      return false;
    }

    // ------------------------------------------------------------ handlers

    /** CVService.ReExtract. */
    method ReExtract() returns (retryable: bool)
      requires Idle()
      modifies this
      ensures Idle() && (retryable <==> old(w).row.status in {FailedOcr, FailedExtract, Parsed})
      ensures w == if !retryable then old(w)
                   else var kind := if old(w).row.status == FailedOcr then Parse else Extract;
                        old(w).(queue := old(w).queue[old(w).nextSlot := kind], nextSlot := old(w).nextSlot + 1)
    {
      retryable := RetryTask(w.row.status).Some?;
      Do(CvPipeline.ReExtract(w.row.status));
    }

    /** The end of a parse delivery, once the text is stored. */
    method QueueAndReturn(slot: nat, steps: nat) returns (verdict: Verdict)
      requires Running(slot, ParseStored)
      modifies this
      ensures Idle() && verdict == (if steps > 1 then Done else Retry)
      ensures w == old(w).(workers := map[], nextSlot := w.nextSlot, queue := w.queue)
      ensures Queued(old(w), w.queue, slot, verdict)
      ensures verdict == Done ==> old(w).nextSlot in w.queue && w.queue[old(w).nextSlot] == Extract
      ensures slot in w.queue <==> verdict == Retry
    {
      if steps == 0 {
        GiveBack(slot, ParseStored);
        return Retry;
      }
      EnqueueExtract(slot);
      verdict := Return(slot, steps > 1, Done, ParseAcking);
    }

    /** The outcome of reading the CV, once the candidate is marked parsing: None when the text is stored. */
    method StoreOrFail(slot: nat, script: ParseScript) returns (verdict: Option<Verdict>)
      requires Running(slot, ParseFetched)
      modifies this
      ensures verdict == None ==>
                Running(slot, ParseStored) && w == Written(old(w), StoreText(script.blank), []).(workers := w.workers)
      ensures verdict.Some? ==> Idle() && verdict.value != Done && (slot in w.queue <==> verdict.value == Retry)
      ensures verdict.Some? ==>
                (w.row == old(w).row || w.row == Overwrite(old(w).row, MarkUnreadable))
                && w == old(w).(workers := map[], row := w.row,
                                queue := Left(old(w).queue, slot, verdict.value))
      ensures verdict == Some(Skip) ==> w.row.status == FailedOcr
    {
      if script.readable {
        Transact(slot, StoreText(script.blank), [], script.steps > 3, ParseFetched);
        return if script.steps > 3 then None else Some(Retry);
      }
      Transact(slot, MarkUnreadable, [], script.steps > 3, ParseFetched);
      if script.steps <= 3 {
        return Some(Retry);
      }
      var v := Return(slot, script.steps > 4, Skip, ParseAcking);
      return Some(v);
    }

    /** A parse delivery from the row it marked. */
    method ParseMarked(slot: nat, script: ParseScript) returns (verdict: Verdict)
      requires Running(slot, ParseFetched) && w.row.status == Parsing
      modifies this
      ensures Idle() && ParseEnded(old(w), w, slot, script, verdict)
    {
      if script.steps == 2 {
        GiveBack(slot, ParseFetched);
        return Retry;
      }
      var early := StoreOrFail(slot, script);
      if early.Some? {
        return early.value;
      }
      ghost var mid := w;
      verdict := QueueAndReturn(slot, if script.steps > 4 then script.steps - 4 else 0);
      TextStoredEnds(old(w), mid, w, slot, script, verdict);
    }

    /** A parse delivery of a candidate that already has its text. */
    method AlreadyParsed(slot: nat, script: ParseScript) returns (verdict: Verdict)
      requires Running(slot, ParseStored) && w.row.status == Parsed && w.row.hasText
      modifies this
      ensures Idle() && ParseEnded(old(w), w, slot, script, verdict)
    {
      verdict := QueueAndReturn(slot, if script.steps > 4 then script.steps - 4 else 0);
    }

    method HandleParse(slot: nat, script: ParseScript) returns (verdict: Verdict)
      requires Idle() && slot in w.queue && w.queue[slot] == Parse
      modifies this
      ensures Idle() && ParseEnded(old(w), w, slot, script, verdict)
    {
      if script.steps == 0 {
        return Retry;
      }
      var pc := Take(slot, script.steps > 1);
      if pc == None {
        return Retry;
      }
      if pc == Some(ParseFetched) {
        verdict := ParseMarked(slot, script);
      } else {
        verdict := AlreadyParsed(slot, script);
      }
    }

    /** Phases 2 and 3, and the return. */
    method TellAndFinish(slot: nat, steps: nat) returns (verdict: Verdict)
      requires Running(slot, ExtractPersisted)
      modifies this
      ensures Idle() && (verdict == Retry <==> slot in w.queue) && verdict in {Done, Retry}
      ensures verdict == Done ==> Complete(w)
      ensures (w.row == old(w).row || w.row == Overwrite(old(w).row, Phase3)) && old(w).accepted <= w.accepted
      ensures w == old(w).(workers := map[], row := w.row, accepted := w.accepted,
                           queue := Left(old(w).queue, slot, verdict))
    {
      var died := Notify(slot, steps);
      if died {
        return Retry;
      }
      Transact(slot, Phase3, [], steps > 4, ExtractSynced);
      if steps <= 4 {
        return Retry;
      }
      PendingReviewIsGood(w);
      verdict := Return(slot, steps > 5, Done, ExtractAcking);
    }

    method HandleExtract(slot: nat, script: ExtractScript) returns (verdict: Verdict)
      requires Idle() && slot in w.queue && w.queue[slot] == Extract
      modifies this
      ensures Idle()
      ensures verdict == Retry <==> slot in w.queue
      ensures verdict == Done ==> Complete(w) && forall j | j in script.jobs :: w.apps[j] == 1
      ensures verdict == Done ==>
                w.row.structured == if old(w).row.structured.Some? then old(w).row.structured
                                    else if script.llm.Answer? then Some(script.llm.resume) else None
      ensures verdict == Skip ==> w.row.status in {Extracted, PendingReview, FailedExtract}
      ensures forall j :: w.apps[j] == old(w).apps[j] || (j in script.jobs && old(w).apps[j] == 0 && w.apps[j] == 1)
      ensures w.llmCalls <= old(w).llmCalls + 1
      ensures old(w).persisted ==> w.llmCalls == old(w).llmCalls
      ensures old(w).accepted <= w.accepted
      ensures w.queue == Left(old(w).queue, slot, verdict)
      ensures old(w).row.status in {Extracted, PendingReview} ==>
                verdict != Done && w == old(w).(queue := w.queue)
    {
      if script.steps == 0 {
        return Retry;
      }
      var pc := Take(slot, script.steps > 1);
      if pc == None {
        return Retry;
      }
      if pc == Some(ExtractAcking) {
        verdict := Return(slot, script.steps > 1, Skip, ExtractAcking);
        return;
      }
      var obtained := ObtainResume(slot, pc.value.stored, script.llm);
      if obtained == None {
        return Retry;
      }
      verdict := StoreAndTell(slot, obtained.value, script);
    }

    /** fail, and the return. */
    method FailForGood(slot: nat, steps: nat) returns (verdict: Verdict)
      requires Running(slot, ExtractUnusable)
      modifies this
      ensures Idle() && (verdict == Retry <==> slot in w.queue) && verdict != Done
      ensures verdict == Skip ==> w.row.status == FailedExtract
      ensures w == old(w).(workers := map[], row := w.row, queue := Left(old(w).queue, slot, verdict))
    {
      Transact(slot, MarkFailed, [], steps > 3, ExtractUnusable);
      if steps <= 3 {
        return Retry;
      }
      verdict := Return(slot, steps > 4, Skip, ExtractAcking);
    }

    /** From a resume, or the lack of a usable one, to the end. */
    method StoreAndTell(slot: nat, pc: Pc, script: ExtractScript) returns (verdict: Verdict)
      requires Running(slot, pc) && (pc.ExtractReady? || pc == ExtractUnusable)
      modifies this
      ensures Idle() && (verdict == Retry <==> slot in w.queue)
      ensures verdict == Done ==> Complete(w) && pc.ExtractReady? && w.row.structured == Some(pc.resume)
      ensures verdict == Done ==> forall j | j in script.jobs :: w.apps[j] == 1
      ensures verdict == Skip ==> w.row.status == FailedExtract
      ensures w.apps == old(w).apps || w.apps == WithMissing(old(w).apps, script.jobs)
      ensures w.llmCalls == old(w).llmCalls && old(w).accepted <= w.accepted
      ensures w.queue == Left(old(w).queue, slot, verdict)
    {
      if script.steps == 2 {
        GiveBack(slot, pc);
        return Retry;
      }
      if pc == ExtractUnusable {
        verdict := FailForGood(slot, script.steps);
        return;
      }
      PersistResume(slot, pc.resume, script.jobs, script.steps > 3);
      if script.steps <= 3 {
        return Retry;
      }
      assert forall j | j in script.jobs :: j in w.seen;
      verdict := TellAndFinish(slot, script.steps - 4);
    }
  }
}
