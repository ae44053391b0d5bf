/** The bulk CV upload (backend/internal/cv/application/cv_service.go, BulkUpload): each file is stored,
    given a candidate row and a parse task, and a failure undoes the steps before it. Ids, which the
    source draws at random, and the fate of every request are passed in.

    Objects and tasks exist at once. Rows do not: every INSERT and DELETE of a batch is part of the one
    transaction of the HTTP request (backend/internal/iam/api/tenant_tx_middleware.go), whose commit
    comes after the last file. A refused statement aborts that transaction: all later statements fail, and
    so does the commit. */
module BulkUpload {
  import opened Prelude

  datatype Reason = InvalidName | StorageFailed | PersistFailed | EnqueueFailed

  datatype Outcome = Outcome(name: string, reason: Option<Reason>)

  /** What the database says to a row statement while the transaction is live. */
  datatype Statement = Done | Refused

  /** A file with the candidate id it gets, and what becomes of each request made for it. */
  datatype File = File(
    name: string, id: nat, validName: bool,
    store: Wire, create: Statement, enqueue: Wire, deleteObject: Wire, deleteRow: Statement)

  /** How the request ends: the status of its response, and the commit. */
  datatype Ending = Ending(status: int, commit: Wire)

  /** Object store, queue and candidate table, by candidate id; `pending` are the rows inserted by the
      request transaction, and `live` whether it can still commit. */
  datatype Stores = Stores(objects: set<nat>, tasks: set<nat>, rows: set<nat>, pending: set<nat>, live: bool)

  class CVService {
    var objects: set<nat>
    var tasks: set<nat>
    var rows: set<nat>
    var pending: set<nat>
    var live: bool

    function Model(): Stores
      reads this
    {
      Stores(objects, tasks, rows, pending, live)
    }

    /** The stores as a request finds them, its transaction just begun. */
    constructor (objects: set<nat>, tasks: set<nat>, rows: set<nat>)
      ensures Model() == Stores(objects, tasks, rows, {}, true)
    {
      this.objects, this.tasks, this.rows, pending, live := objects, tasks, rows, {}, true;
    }

    method CreateRow(f: File) returns (ok: bool)
      modifies this`pending, this`live
      ensures ok == (old(live) && f.create == Done) && live == ok
      ensures pending == if ok then old(pending) + {f.id} else old(pending)
    {
      ok := live && f.create == Done;
      if ok {
        pending := pending + {f.id};
      }
      live := ok;
    }

    method DeleteRow(f: File)
      modifies this`pending, this`live
      ensures live == (old(live) && f.deleteRow == Done)
      ensures pending == if live then old(pending) - {f.id} else old(pending)
    {
      live := live && f.deleteRow == Done;
      if live {
        pending := pending - {f.id};
      }
    }

    method DeleteObject(f: File)
      modifies this`objects
      ensures objects == if f.deleteObject == RequestLost then old(objects) else old(objects) - {f.id}
    {
      if f.deleteObject != RequestLost {
        objects := objects - {f.id};
      }
    }

    /** The loop body: None when the file was taken in. */
    method Ingest(f: File) returns (reason: Option<Reason>)
      modifies this
      ensures reason == ReasonOf(f, old(live)) && Model() == Ingested(old(Model()), f)
    {
      if !f.validName {
        return Some(InvalidName);
      }
      if f.store != RequestLost {
        objects := objects + {f.id};
      }
      if f.store != Answered {
        return Some(StorageFailed);
      }
      var created := CreateRow(f);
      if !created {
        DeleteObject(f);
        return Some(PersistFailed);
      }
      if f.enqueue != RequestLost {
        tasks := tasks + {f.id};
      }
      if f.enqueue != Answered {
        DeleteObject(f);
        DeleteRow(f);
        return Some(EnqueueFailed);
      }
      return None;
    }

    method BulkUpload(files: seq<File>) returns (uploaded: nat, failed: nat, outcomes: seq<Outcome>)
      requires live
      modifies this
      ensures Model() == Batch(old(Model()), files)
      ensures outcomes == OutcomesOf(files, |files|)
      ensures uploaded + failed == |files| && uploaded == AcceptedCount(files, |files|)
    {
      uploaded, failed, outcomes := 0, 0, [];
      for i := 0 to |files|
        invariant Model() == Batch(old(Model()), files[..i]) && live == LiveAt(files, i)
        invariant outcomes == OutcomesOf(files, i)
        invariant uploaded + failed == i && uploaded == AcceptedCount(files, i)
      {
        BatchSnoc(old(Model()), files, i);
        IngestedLive(Model(), files[i]);
        var reason := Ingest(files[i]);
        outcomes := outcomes + [Outcome(files[i].name, reason)];
        if reason.Some? {
          failed := failed + 1;
          continue;
        }
        uploaded := uploaded + 1;
      }
      assert files[..|files|] == files;
    }

    /** The end of the request transaction. */
    method Finish(end: Ending) returns (committed: bool)
      modifies this
      ensures committed == (old(live) && end.status < 400 && end.commit != RequestLost)
      ensures Model() == Ended(old(Model()), end)
    {
      committed := live && end.status < 400 && end.commit != RequestLost;
      if committed {
        rows := rows + pending;
      }
      pending, live := {}, false;
    }

    /** The whole request: the outcomes reach the recruiter when the commit is acknowledged. */
    method Request(files: seq<File>, end: Ending) returns (reply: Option<seq<Outcome>>)
      requires live
      modifies this
      ensures Model() == Ended(Batch(old(Model()), files), end)
      ensures reply.Some? <==> end.status < 400 && LiveAt(files, |files|) && end.commit == Answered
      ensures reply.Some? ==>
                reply.value == OutcomesOf(files, |files|)
    {
      var uploaded, failed, outcomes := BulkUpload(files);
      BatchLive(old(Model()), files);
      var committed := Finish(end);
      if !committed || end.commit != Answered {
        return None;
      }
      return Some(outcomes);
    }
  }

  // --------------------------------------------------------------- one file

  /** The first step that reported an error, in a transaction that is live or aborted. */
  function ReasonOf(f: File, live: bool): Option<Reason> {
    if !f.validName then Some(InvalidName)
    else if f.store != Answered then Some(StorageFailed)
    else if !live || f.create != Done then Some(PersistFailed)
    else if f.enqueue != Answered then Some(EnqueueFailed)
    else None
  }

  function Put(s: set<nat>, id: nat, wire: Wire): set<nat> { if wire == RequestLost then s else s + {id} }

  function Drop(s: set<nat>, id: nat, wire: Wire): set<nat> { if wire == RequestLost then s else s - {id} }

  function Ingested(s: Stores, f: File): Stores {
    var objects, tasks := Put(s.objects, f.id, f.store), Put(s.tasks, f.id, f.enqueue);
    match ReasonOf(f, s.live)
    case Some(InvalidName) => s
    case Some(StorageFailed) => s.(objects := objects)
    case Some(PersistFailed) => s.(objects := Drop(objects, f.id, f.deleteObject), live := false)
    case Some(EnqueueFailed) =>
      s.(objects := Drop(objects, f.id, f.deleteObject), tasks := tasks, live := f.deleteRow == Done,
         pending := if f.deleteRow == Done then s.pending + {f.id} - {f.id} else s.pending + {f.id})
    case None => s.(objects := objects, tasks := tasks, pending := s.pending + {f.id})
  }

  function Batch(s: Stores, files: seq<File>): Stores {
    if files == [] then s else Ingested(Batch(s, files[..|files| - 1]), files[|files| - 1])
  }

  function Ended(s: Stores, end: Ending): Stores {
    if s.live && end.status < 400 && end.commit != RequestLost
    then s.(rows := s.rows + s.pending, pending := {}, live := false)
    else s.(pending := {}, live := false)
  }

  // -------------------------------------------- what links the files of a batch

  /** A row statement of the file is made, and refused. */
  predicate Breaks(f: File) {
    f.validName && f.store == Answered && (f.create == Refused || (f.enqueue != Answered && f.deleteRow == Refused))
  }

  /** No row statement of the first i files was refused (`LiveExactly`). */
  predicate LiveAt(files: seq<File>, i: nat)
    requires i <= |files|
  {
    i == 0 || (LiveAt(files, i - 1) && !Breaks(files[i - 1]))
  }

  lemma {:induction false} LiveExactly(files: seq<File>, i: nat)
    requires i <= |files|
    ensures LiveAt(files, i) <==> forall j | 0 <= j < i :: !Breaks(files[j])
    decreases i
  {
    if i > 0 {
      LiveExactly(files, i - 1);
    }
  }

  lemma {:induction false} LivePrefix(files: seq<File>, n: nat, i: nat)
    requires i <= n <= |files|
    ensures LiveAt(files[..n], i) == LiveAt(files, i)
    decreases i
  {
    if i > 0 {
      LivePrefix(files, n, i - 1);
    }
  }

  function AcceptedCount(files: seq<File>, i: nat): nat
    requires i <= |files|
  {
    if i == 0 then 0
    else AcceptedCount(files, i - 1) + if ReasonOf(files[i - 1], LiveAt(files, i - 1)).None? then 1 else 0
  }

  /** One outcome per file, in order. */
  function OutcomesOf(files: seq<File>, i: nat): (r: seq<Outcome>)
    requires i <= |files|
    ensures |r| == i
  {
    if i == 0 then []
    else OutcomesOf(files, i - 1) + [Outcome(files[i - 1].name, ReasonOf(files[i - 1], LiveAt(files, i - 1)))]
  }

  lemma {:induction false} OutcomeAt(files: seq<File>, i: nat, j: nat)
    requires j < i <= |files|
    ensures OutcomesOf(files, i)[j] == Outcome(files[j].name, ReasonOf(files[j], LiveAt(files, j)))
    decreases i
  {
    if j < i - 1 {
      OutcomeAt(files, i - 1, j);
    }
  }

  lemma BatchSnoc(s: Stores, files: seq<File>, i: nat)
    requires i < |files|
    ensures Batch(s, files[..i + 1]) == Ingested(Batch(s, files[..i]), files[i])
  {
    assert files[..i + 1][..i] == files[..i];
  }

  lemma IngestedLive(s: Stores, f: File)
    ensures Ingested(s, f).live <==> s.live && !Breaks(f)
  {}

  lemma {:induction false} BatchLive(s: Stores, files: seq<File>)
    requires s.live
    ensures Batch(s, files).live == LiveAt(files, |files|)
  {
    if files != [] {
      var n := |files| - 1;
      BatchLive(s, files[..n]);
      IngestedLive(Batch(s, files[..n]), files[n]);
      LivePrefix(files, n, n);
    }
  }

  /** The stores agree about a candidate. */
  predicate SameFate(s: Stores, t: Stores, id: nat) {
    && (id in s.objects <==> id in t.objects) && (id in s.tasks <==> id in t.tasks)
    && (id in s.rows <==> id in t.rows) && (id in s.pending <==> id in t.pending)
  }

  predicate DistinctIds(files: seq<File>) {
    forall i, j | 0 <= i < j < |files| :: files[i].id != files[j].id
  }

  lemma {:induction false} OthersUntouched(s: Stores, files: seq<File>, id: nat)
    requires forall f | f in files :: f.id != id
    ensures SameFate(Batch(s, files), s, id)
  {
    if files != [] {
      OthersUntouched(s, files[..|files| - 1], id);
    }
  }

  /** The only link between the files of a batch is the transaction: a file fares as it would alone, in a
      live transaction up to the first refused row statement and in an aborted one after it. */
  lemma {:induction false} FilesMeetInTheTransaction(s: Stores, files: seq<File>, i: nat)
    requires i < |files| && DistinctIds(files) && s.live
    ensures SameFate(Batch(s, files), Ingested(s.(live := LiveAt(files, i)), files[i]), files[i].id)
  {
    var n := |files| - 1;
    if i == n {
      OthersUntouched(s, files[..n], files[n].id);
      BatchLive(s, files[..n]);
      LivePrefix(files, n, n);
      SameFateIngested(Batch(s, files[..n]), s.(live := LiveAt(files, n)), files[n]);
    } else {
      FilesMeetInTheTransaction(s, files[..n], i);
      LivePrefix(files, n, i);
      OtherFileIngested(Batch(s, files[..n]), files[n], files[i].id);
    }
  }

  lemma SameFateIngested(s: Stores, t: Stores, f: File)
    requires SameFate(s, t, f.id) && s.live == t.live
    ensures SameFate(Ingested(s, f), Ingested(t, f), f.id)
  {}

  lemma OtherFileIngested(s: Stores, f: File, id: nat)
    requires f.id != id
    ensures SameFate(Ingested(s, f), s, id)
  {}

  /** Before any refusal a file's outcome, object and task are its own business; a refusal makes every
      later file fail that had come as far as its row. */
  lemma RefusalFailsTheRest(files: seq<File>, i: nat)
    requires i < |files|
    ensures LiveAt(files, i) ==> ReasonOf(files[i], LiveAt(files, i)) == ReasonOf(files[i], true)
    ensures !LiveAt(files, i) ==>
              ReasonOf(files[i], LiveAt(files, i))
              == if files[i].validName && files[i].store == Answered then Some(PersistFailed) else ReasonOf(files[i], true)
  {}

  /** The recruiter is told the step that failed: each reason is given exactly when its step was reached and
      reported an error. */
  lemma ReasonTellsTheStep(f: File, live: bool)
    ensures ReasonOf(f, live) == Some(InvalidName) <==> !f.validName
    ensures ReasonOf(f, live) == Some(StorageFailed) <==> f.validName && f.store != Answered
    ensures ReasonOf(f, live) == Some(PersistFailed) <==>
            f.validName && f.store == Answered && !(live && f.create == Done)
    ensures ReasonOf(f, live) == Some(EnqueueFailed) <==>
            f.validName && f.store == Answered && live && f.create == Done && f.enqueue != Answered
  {}

  function AcceptedIn(outcomes: seq<Outcome>): set<nat> {
    set j: nat | j < |outcomes| && outcomes[j].reason == None
  }

  /** The counters agree with the outcomes: `uploaded` is the number of outcomes without a reason. */
  lemma {:induction false} CountersMatchOutcomes(files: seq<File>, i: nat)
    requires i <= |files|
    ensures AcceptedCount(files, i) == |AcceptedIn(OutcomesOf(files, i))|
    decreases i
  {
    if i > 0 {
      CountersMatchOutcomes(files, i - 1);
      var before, all := OutcomesOf(files, i - 1), OutcomesOf(files, i);
      assert all[..i - 1] == before;
      assert forall j: nat | j < i - 1 :: all[j] == before[j];
      assert AcceptedIn(all) == AcceptedIn(before) + if all[i - 1].reason == None then {i - 1} else {};
    }
  }

  // ------------------------------------------------------------ all or nothing

  predicate Everything(s: Stores, id: nat) { id in s.objects && id in s.rows && id in s.tasks }

  predicate Nothing(s: Stores, id: nat) { id !in s.objects && id !in s.rows && id !in s.tasks }

  /** The transaction commits: no row statement was refused, the response is no error, and the commit
      reaches the database. */
  predicate Commits(files: seq<File>, end: Ending) {
    LiveAt(files, |files|) && end.status < 400 && end.commit != RequestLost
  }

  /** A failed file left no object and no task: an error meant nothing was done, and the object, once
      stored, was deleted again. Its row is the transaction's business. */
  predicate Undone(f: File, live: bool) {
    match ReasonOf(f, live)
    case Some(InvalidName) => true
    case Some(StorageFailed) => f.store == RequestLost
    case Some(PersistFailed) => f.deleteObject != RequestLost
    case Some(EnqueueFailed) => f.enqueue == RequestLost && f.deleteObject != RequestLost
    case None => true
  }

  function After(s: Stores, files: seq<File>, end: Ending): Stores { Ended(Batch(s, files), end) }

  /** The start of a request. */
  predicate Fresh(s: Stores) { s.live && s.pending == {} }

  lemma {:induction false} RowsBeforeCommit(s: Stores, files: seq<File>)
    ensures Batch(s, files).rows == s.rows
  {
    if files != [] {
      RowsBeforeCommit(s, files[..|files| - 1]);
    }
  }

  /** What the request leaves of one file. */
  lemma FateOfFile(s: Stores, files: seq<File>, end: Ending, i: nat)
    requires i < |files| && DistinctIds(files) && Fresh(s) && Nothing(s, files[i].id)
    ensures var t, f := After(s, files, end), files[i];
            var reason := ReasonOf(f, LiveAt(files, i));
            && (reason.None? ==> f.id in t.objects && f.id in t.tasks && (f.id in t.rows <==> Commits(files, end)))
            && (reason.Some? ==> f.id !in t.rows && (Nothing(t, f.id) <==> Undone(f, LiveAt(files, i))))
  {
    FilesMeetInTheTransaction(s, files, i);
    BatchLive(s, files);
    RowsBeforeCommit(s, files);
    var f, b := files[i], Batch(s, files);
    if b.live {
      LiveExactly(files, |files|);
    }
    FateAlone(s.(live := LiveAt(files, i)), f);
  }

  lemma FateAlone(s: Stores, f: File)
    requires Nothing(s, f.id) && f.id !in s.pending
    ensures var t := Ingested(s, f);
            && (ReasonOf(f, s.live).None? ==> f.id in t.objects && f.id in t.tasks && f.id in t.pending)
            && (ReasonOf(f, s.live).Some? ==>
                  && (f.id in t.pending ==> Breaks(f))
                  && (f.id !in t.objects && f.id !in t.tasks <==> Undone(f, s.live)))
            && f.id !in t.rows
  {}

  ghost predicate AllOrNothing(s: Stores, files: seq<File>, end: Ending) {
    forall i: nat | i < |files| ::
      if ReasonOf(files[i], LiveAt(files, i)).None? then Everything(After(s, files, end), files[i].id)
      else Nothing(After(s, files, end), files[i].id)
  }

  /** Over every batch of new candidates: each accepted file has its object, row and task and each failed
      one none of them, exactly when the transaction commits, unless no file was accepted, and every
      failed file was undone. Nobody else is touched. */
  lemma BatchIsAllOrNothing(s: Stores, files: seq<File>, end: Ending)
    requires DistinctIds(files) && Fresh(s) && forall f | f in files :: Nothing(s, f.id)
    ensures AllOrNothing(s, files, end) <==>
            && (Commits(files, end) || forall i: nat | i < |files| :: ReasonOf(files[i], LiveAt(files, i)).Some?)
            && (forall i: nat | i < |files| :: Undone(files[i], LiveAt(files, i)))
    ensures forall id | (forall f | f in files :: f.id != id) :: SameFate(After(s, files, end), s, id)
  {
    forall i: nat | i < |files|
      ensures var t, f := After(s, files, end), files[i];
              var live := LiveAt(files, i);
              if ReasonOf(f, live).None? then Undone(f, live) && (Everything(t, f.id) <==> Commits(files, end))
              else Nothing(t, f.id) <==> Undone(f, live)
    {
      assert files[i] in files;
      FateOfFile(s, files, end, i);
    }
    forall id | (forall f | f in files :: f.id != id) ensures SameFate(After(s, files, end), s, id) {
      OthersUntouched(s, files, id);
    }
  }

  /** A file whose every request is answered and every statement done. */
  function Plain(name: string, id: nat): File { File(name, id, true, Answered, Done, Answered, Answered, Done) }

  /** One refused INSERT among three files: the first is reported accepted and keeps its object and its
      queued task but has no row; the third, which alone would have been accepted, fails. */
  lemma RefusedInsertSplitsTheBatch(name: string)
    ensures var files := [Plain(name, 0), Plain(name, 1).(create := Refused), Plain(name, 2)];
            var t := After(Stores({}, {}, {}, {}, true), files, Ending(201, Answered));
            && ReasonOf(files[0], LiveAt(files, 0)).None? && 0 in t.objects && 0 in t.tasks && 0 !in t.rows
            && ReasonOf(files[2], LiveAt(files, 2)) == Some(PersistFailed) && ReasonOf(files[2], true).None?
  {
    var files := [Plain(name, 0), Plain(name, 1).(create := Refused), Plain(name, 2)];
    var s := Stores({}, {}, {}, {}, true);
    LiveExactly(files, 2);
    LiveExactly(files, 3);
    assert Breaks(files[1]);
    FateOfFile(s, files, Ending(201, Answered), 0);
  }
}
