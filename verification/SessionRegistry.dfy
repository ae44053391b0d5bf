/** The single-active-connection lock (backend/internal/interview/api/session_registry.go): an
    in-memory registry and a Redis one whose three Lua scripts are atomic steps. Time is in
    milliseconds and is passed in. */
module SessionRegistry {
  import opened Prelude

  const PLACEHOLDER := "active"
  const PREFIX := "intivai:session:"
  const DEFAULT_TTL: int := 30 * 60 * 1000

  type Holders = map<string, string>

  // ------------------------------------------------------------ in memory

  function MemAcquire(active: Holders, key: string, sid: string): (bool, Holders) {
    if key !in active then (true, active[key := sid])
    else (sid != "" && active[key] == sid, active)
  }

  function MemRelease(active: Holders, key: string, sid: string): Holders {
    if key in active && (sid == "" || active[key] == sid) then active - {key} else active
  }

  class MemorySessionRegistry {
    var active: Holders

    constructor ()
      ensures active == map[]
    {
      active := map[];
    }

    method TryAcquire(key: string, sid: string) returns (ok: bool)
      modifies this
      ensures (ok, active) == MemAcquire(old(active), key, sid)
    {
      if key in active {
        if sid != "" && active[key] == sid {
          return true;
        }
        return false;
      }
      active := active[key := sid];
      return true;
    }

    method Release(key: string, sid: string)
      modifies this
      ensures active == MemRelease(old(active), key, sid)
    {
      if key in active {
        if sid == "" || active[key] == sid {
          active := active - {key};
        }
      }
    }

    method Touch(key: string, sid: string)
      ensures active == old(active)
    {}
  }

  // ---------------------------------------------------------------- Redis

  datatype Entry = Entry(value: string, expires: int)

  /** The fixed prefix and the interview id it is put in front of. */
  datatype DbKey = DbKey(prefix: string, key: string)

  type Db = map<DbKey, Entry>

  /** What a GET returns: a key is gone from the instant its TTL runs out. */
  function Peek(db: Db, now: int, k: DbKey): Option<string> {
    if k in db && now < db[k].expires then Some(db[k].value) else None
  }

  function EvalAcquire(db: Db, now: int, k: DbKey, val: string, ttl: int): (bool, Db) {
    match Peek(db, now, k)
    case None => (true, db[k := Entry(val, now + ttl)])
    case Some(holder) => if holder == val then (true, db[k := Entry(holder, now + ttl)]) else (false, db)
  }

  function EvalTouch(db: Db, now: int, k: DbKey, val: string, ttl: int): Db {
    if Peek(db, now, k) == Some(val) then db[k := Entry(val, now + ttl)] else db
  }

  function EvalRelease(db: Db, now: int, k: DbKey, val: string): Db {
    if Peek(db, now, k) == Some(val) then db - {k} else db
  }

  function RedisKey(key: string): DbKey { DbKey(PREFIX, key) }

  /** The value stored for a session: pre-session clients share the placeholder. */
  function HolderOf(sid: string): string { if sid == "" then PLACEHOLDER else sid }

  datatype Reply = Ok(value: bool) | Error

  function RedisAcquire(db: Db, now: int, ttl: int, wire: Wire, key: string, sid: string): (Reply, Db) {
    var (ok, db') := EvalAcquire(db, now, RedisKey(key), HolderOf(sid), ttl);
    match wire case Answered => (Ok(ok), db') case RequestLost => (Error, db) case ReplyLost => (Error, db')
  }

  function RedisTouch(db: Db, now: int, ttl: int, wire: Wire, key: string, sid: string): Db {
    if sid == "" || wire == RequestLost then db else EvalTouch(db, now, RedisKey(key), sid, ttl)
  }

  function RedisRelease(db: Db, now: int, wire: Wire, key: string, sid: string): Db {
    if wire == RequestLost then db
    else if sid == "" then db - {RedisKey(key)}
    else EvalRelease(db, now, RedisKey(key), sid)
  }

  class RedisSessionRegistry {
    const hasClient: bool
    const ttl: int
    var db: Db

    constructor (hasClient: bool, ttl: int)
      ensures this.hasClient == hasClient && this.ttl == (if ttl <= 0 then DEFAULT_TTL else ttl) && db == map[]
    {
      this.hasClient := hasClient;
      this.ttl := if ttl <= 0 then DEFAULT_TTL else ttl;
      db := map[];
    }

    method TryAcquire(now: int, wire: Wire, key: string, sid: string) returns (r: Reply)
      modifies this
      ensures (r, db) == if hasClient then RedisAcquire(old(db), now, ttl, wire, key, sid) else (Ok(true), old(db))
    {
      if !hasClient {
        return Ok(true);
      }
      var val := sid;
      if val == "" {
        val := PLACEHOLDER;
      }
      if wire == RequestLost {
        return Error;
      }
      var ok, after := Eval(db, now, RedisKey(key), val);
      db := after;
      if wire == ReplyLost {
        return Error;
      }
      return Ok(ok);
    }

    /** acquireLuaScript. */
    method Eval(store: Db, now: int, k: DbKey, val: string) returns (ok: bool, after: Db)
      ensures (ok, after) == EvalAcquire(store, now, k, val, ttl)
    {
      var holder := Peek(store, now, k);
      if holder == None {
        return true, store[k := Entry(val, now + ttl)];
      } else if holder.value == val {
        return true, store[k := Entry(holder.value, now + ttl)];
      }
      return false, store;
    }

    method Touch(now: int, wire: Wire, key: string, sid: string) returns (failed: bool)
      modifies this
      ensures db == if hasClient then RedisTouch(old(db), now, ttl, wire, key, sid) else old(db)
      ensures failed <==> hasClient && sid != "" && wire != Answered
    {
      if !hasClient || sid == "" {
        return false;
      }
      if wire != RequestLost && Peek(db, now, RedisKey(key)) == Some(sid) {
        db := db[RedisKey(key) := Entry(sid, now + ttl)];
      }
      return wire != Answered;
    }

    method Release(now: int, wire: Wire, key: string, sid: string) returns (failed: bool)
      modifies this
      ensures db == if hasClient then RedisRelease(old(db), now, wire, key, sid) else old(db)
      ensures failed <==> hasClient && wire != Answered
    {
      if !hasClient {
        return false;
      }
      if wire != RequestLost {
        if sid == "" || Peek(db, now, RedisKey(key)) == Some(sid) {
          db := db - {RedisKey(key)};
        }
      }
      return wire != Answered;
    }
  }

  // ----------------------------------- Redis refines the in-memory registry

  datatype Op = Acquire(key: string, sid: string) | Release(key: string, sid: string) | Touch(key: string, sid: string)

  datatype Call = Call(now: int, op: Op)

  function MemStep(active: Holders, op: Op): (Option<bool>, Holders) {
    match op
    case Acquire(key, sid) => var (ok, next) := MemAcquire(active, key, sid); (Some(ok), next)
    case Release(key, sid) => (None, MemRelease(active, key, sid))
    case Touch(_, _) => (None, active)
  }

  function RedisStep(db: Db, ttl: int, call: Call): (Option<bool>, Db) {
    match call.op
    case Acquire(key, sid) =>
      var (reply, next) := RedisAcquire(db, call.now, ttl, Answered, key, sid);
      (Some(reply == Ok(true)), next)
    case Release(key, sid) => (None, RedisRelease(db, call.now, Answered, key, sid))
    case Touch(key, sid) => (None, RedisTouch(db, call.now, ttl, Answered, key, sid))
  }

  function MemAnswers(active: Holders, calls: seq<Call>): seq<Option<bool>>
    decreases |calls|
  {
    if calls == [] then [] else
    var (answer, next) := MemStep(active, calls[0].op);
    [answer] + MemAnswers(next, calls[1..])
  }

  function RedisAnswers(db: Db, ttl: int, calls: seq<Call>): seq<Option<bool>>
    decreases |calls|
  {
    if calls == [] then [] else
    var (answer, next) := RedisStep(db, ttl, calls[0]);
    [answer] + RedisAnswers(next, ttl, calls[1..])
  }

  predicate AllFresh(db: Db, now: int) {
    forall k | k in db :: now < db[k].expires
  }

  /** No lock lapses: whenever a call arrives, every stored key is still within its TTL. */
  predicate NothingExpires(db: Db, ttl: int, calls: seq<Call>)
    decreases |calls|
  {
    calls == [] || (AllFresh(db, calls[0].now) && NothingExpires(RedisStep(db, ttl, calls[0]).1, ttl, calls[1..]))
  }

  /** Both registries hold the same keys, Redis with the placeholder in place of an empty id. */
  ghost predicate SameHolders(active: Holders, db: Db) {
    && (forall key :: key in active <==> RedisKey(key) in db)
    && (forall key | key in active :: db[RedisKey(key)].value == HolderOf(active[key]))
  }

  ghost predicate NoEmptyHolder(active: Holders) {
    forall key | key in active :: active[key] != ""
  }

  lemma StepsAgree(active: Holders, db: Db, ttl: int, call: Call)
    requires SameHolders(active, db) && NoEmptyHolder(active) && AllFresh(db, call.now)
    requires call.op.sid != ""
    ensures MemStep(active, call.op).0 == RedisStep(db, ttl, call).0
    ensures SameHolders(MemStep(active, call.op).1, RedisStep(db, ttl, call).1)
    ensures NoEmptyHolder(MemStep(active, call.op).1)
  {
    var key := call.op.key;
    assert key in active <==> RedisKey(key) in db;
  }

  /** With no expiry and no empty session id, the Redis registry answers every call of every history
      exactly as the in-memory one does. */
  lemma {:induction false} RedisRefinesMemory(active: Holders, db: Db, ttl: int, calls: seq<Call>)
    requires SameHolders(active, db) && NoEmptyHolder(active) && NothingExpires(db, ttl, calls)
    requires forall i | 0 <= i < |calls| :: calls[i].op.sid != ""
    ensures MemAnswers(active, calls) == RedisAnswers(db, ttl, calls)
    decreases |calls|
  {
    if calls != [] {
      StepsAgree(active, db, ttl, calls[0]);
      RedisRefinesMemory(MemStep(active, calls[0].op).1, RedisStep(db, ttl, calls[0]).1, ttl, calls[1..]);
    }
  }

  /** Outside that domain the two differ in exactly these cases: a held key is asked for with an
      empty id and Redis stores the placeholder (Redis says yes, memory no), or it is held by an
      empty id and asked for with the placeholder as a session id. */
  lemma AcquireDiffersExactly(active: Holders, db: Db, ttl: int, now: int, key: string, sid: string)
    requires SameHolders(active, db) && AllFresh(db, now)
    ensures MemAcquire(active, key, sid).0 == (RedisAcquire(db, now, ttl, Answered, key, sid).0 == Ok(true))
            <==> !(key in active && ((sid == "" && active[key] in {"", PLACEHOLDER})
                                     || (sid == PLACEHOLDER && active[key] == "")))
  {
    assert key in active <==> RedisKey(key) in db;
  }

  /** Only its holder, or a caller without a session, frees a lock: of a key held by one session, another
      session gets it after a release exactly when the release carried the holder's id or none. */
  lemma ReleaseFreesExactly(active: Holders, key: string, releaser: string, stranger: string)
    requires key in active && stranger != "" && stranger != active[key]
    ensures MemAcquire(MemRelease(active, key, releaser), key, stranger).0
            <==> releaser == "" || releaser == active[key]
    ensures forall other | other != key && other in active ::
              other in MemRelease(active, key, releaser) && MemRelease(active, key, releaser)[other] == active[other]
  {}

  /** The same of the Redis lock, of a key whose TTL has not run out. */
  lemma RedisReleaseFreesExactly(db: Db, now: int, ttl: int, key: string, releaser: string, stranger: string)
    requires Peek(db, now, RedisKey(key)).Some? && Peek(db, now, RedisKey(key)) != Some(HolderOf(stranger))
    ensures RedisAcquire(RedisRelease(db, now, Answered, key, releaser), now, ttl, Answered, key, stranger).0 == Ok(true)
            <==> releaser == "" || Peek(db, now, RedisKey(key)) == Some(releaser)
    ensures forall k | k != RedisKey(key) && k in db ::
              k in RedisRelease(db, now, Answered, key, releaser) && RedisRelease(db, now, Answered, key, releaser)[k] == db[k]
  {}

  /** A heartbeat renews the lock of its holder and nobody else's: a held lock is still there at a later time
      exactly when its TTL reaches that far, or the touch carried the holder's id and the new one does. */
  lemma TouchRenewsExactly(db: Db, now: int, ttl: int, key: string, sid: string, later: int)
    requires Peek(db, now, RedisKey(key)).Some? && db[RedisKey(key)].expires <= now + ttl
    ensures var db' := RedisTouch(db, now, ttl, Answered, key, sid);
            && (Peek(db', later, RedisKey(key)).Some? <==>
                  || later < db[RedisKey(key)].expires
                  || (sid != "" && Peek(db, now, RedisKey(key)) == Some(sid) && later < now + ttl))
            && Peek(db', now, RedisKey(key)) == Peek(db, now, RedisKey(key))
  {}
}

/** Connections, their heartbeats and their teardown around the Redis lock
    (backend/internal/interview/api/chat_handler.go, Chat). */
module SessionProtocol {
  import opened Prelude
  import opened SessionRegistry

  /** A connection past TryAcquire and not yet past Release. `touched` is the last time its lock's
      TTL was renewed: by acquiring, by a heartbeat whose script ran, or by another acquire that carried
      its session id. */
  datatype Conn = Conn(key: string, sid: string, touched: int)

  datatype World = World(db: Db, now: int, ttl: int, live: map<nat, Conn>)

  datatype Step =
    | Connect(id: nat, key: string, sid: string, wire: Wire)
    | Heartbeat(id: nat, wire: Wire)
    | Disconnect(id: nat, wire: Wire)
    | Crash(id: nat) // the server process dies: no Release
    | Wait(dt: nat)

  predicate Enabled(w: World, step: Step) {
    match step
    case Connect(id, _, _, _) => id !in w.live
    case Heartbeat(id, _) => id in w.live
    case Disconnect(id, _) => id in w.live
    case Crash(id) => id in w.live
    case Wait(_) => true
  }

  predicate Shares(c: Conn, key: string, sid: string) { c.key == key && HolderOf(c.sid) == HolderOf(sid) }

  function Renewed(live: map<nat, Conn>, key: string, sid: string, now: int): map<nat, Conn> {
    map id | id in live :: if Shares(live[id], key, sid) then live[id].(touched := now) else live[id]
  }

  function Apply(w: World, step: Step): World
    requires Enabled(w, step)
  {
    match step
    case Connect(id, key, sid, wire) =>
      var (reply, db) := RedisAcquire(w.db, w.now, w.ttl, wire, key, sid);
      var live := if wire == RequestLost then w.live else Renewed(w.live, key, sid, w.now);
      w.(db := db, live := if reply == Ok(true) then live[id := Conn(key, sid, w.now)] else live)
    case Heartbeat(id, wire) =>
      var c := w.live[id];
      w.(db := RedisTouch(w.db, w.now, w.ttl, wire, c.key, c.sid),
         live := if c.sid != "" && wire != RequestLost then w.live[id := c.(touched := w.now)] else w.live)
    case Disconnect(id, wire) =>
      var c := w.live[id];
      w.(db := RedisRelease(w.db, w.now, wire, c.key, c.sid), live := w.live - {id})
    case Crash(id) => w.(live := w.live - {id})
    case Wait(dt) => w.(now := w.now + dt)
  }

  /** What the lock relies on: no connection gets through with the session id of a live one of the same
      interview, and every connection renews its lock, or is gone, before the TTL runs out.
      `ConnectBreaksExactly` and `StrangerEntersExactly` show that neither can be had for less. */
  predicate Disciplined(w: World, step: Step) {
    match step
    case Connect(_, key, sid, wire) => wire == Answered ==> forall id | id in w.live :: !Shares(w.live[id], key, sid)
    case Wait(dt) => forall id | id in w.live :: w.now + dt < w.live[id].touched + w.ttl
    case _ => true
  }

  function Exec(w: World, run: seq<Step>): Option<World>
    decreases |run|
  {
    if run == [] then Some(w)
    else if Enabled(w, run[0]) then Exec(Apply(w, run[0]), run[1..])
    else None
  }

  predicate DisciplinedRun(w: World, run: seq<Step>)
    requires Exec(w, run).Some?
    decreases |run|
  {
    run == [] || (Disciplined(w, run[0]) && DisciplinedRun(Apply(w, run[0]), run[1..]))
  }

  ghost predicate MutualExclusion(w: World) {
    forall a, b | a in w.live && b in w.live && a != b :: w.live[a].key != w.live[b].key
  }

  ghost predicate OwnsLock(w: World, c: Conn) {
    && RedisKey(c.key) in w.db
    && w.db[RedisKey(c.key)] == Entry(HolderOf(c.sid), c.touched + w.ttl)
    && w.now < c.touched + w.ttl
  }

  ghost predicate Inv(w: World) {
    && w.ttl > 0
    && MutualExclusion(w)
    && (forall id | id in w.live :: OwnsLock(w, w.live[id]))
    && (forall k | k in w.db :: w.db[k].expires <= w.now + w.ttl)
  }

  lemma StepKeepsOwnership(w: World, step: Step)
    requires Inv(w) && Enabled(w, step) && Disciplined(w, step)
    ensures forall id | id in Apply(w, step).live :: OwnsLock(Apply(w, step), Apply(w, step).live[id])
  {
    if step.Connect? {
      ConnectKeepsOwnership(w, step);
    }
  }

  lemma ConnectKeepsOwnership(w: World, step: Step)
    requires Inv(w) && Enabled(w, step) && Disciplined(w, step) && step.Connect?
    ensures forall id | id in Apply(w, step).live :: OwnsLock(Apply(w, step), Apply(w, step).live[id])
  {
    var w' := Apply(w, step);
    forall id | id in w'.live ensures OwnsLock(w', w'.live[id]) {
      if id in w.live {
        assert OwnsLock(w, w.live[id]);
      }
    }
  }

  lemma StepKeepsInv(w: World, step: Step)
    requires Inv(w) && Enabled(w, step) && Disciplined(w, step)
    ensures Inv(Apply(w, step))
  {
    StepKeepsOwnership(w, step);
    StepKeepsExclusion(w, step);
  }

  lemma StepKeepsExclusion(w: World, step: Step)
    requires Inv(w) && Enabled(w, step) && Disciplined(w, step)
    ensures MutualExclusion(Apply(w, step))
  {}

  lemma {:induction false} RunKeepsInv(w: World, run: seq<Step>)
    requires Inv(w) && Exec(w, run).Some? && DisciplinedRun(w, run)
    ensures Inv(Exec(w, run).value)
    decreases |run|
  {
    if run != [] {
      StepKeepsInv(w, run[0]);
      RunKeepsInv(Apply(w, run[0]), run[1..]);
    }
  }

  function Start(now: int, ttl: int): World { World(map[], now, ttl, map[]) }

  /** Timed mutual exclusion: after any disciplined run, with lost requests, lost replies and crashed
      servers, at most one connection per interview is live, and each live one still holds the lock. */
  lemma TimedMutualExclusion(now: int, ttl: int, run: seq<Step>)
    requires ttl > 0
    requires Exec(Start(now, ttl), run).Some? && DisciplinedRun(Start(now, ttl), run)
    ensures var w := Exec(Start(now, ttl), run).value;
            && MutualExclusion(w)
            && forall id | id in w.live ::
                 Peek(w.db, w.now, RedisKey(w.live[id].key)) == Some(HolderOf(w.live[id].sid))
  {
    RunKeepsInv(Start(now, ttl), run);
    RunKeepsTtl(Start(now, ttl), run);
  }

  lemma {:induction false} RunKeepsTtl(w: World, run: seq<Step>)
    requires Exec(w, run).Some?
    ensures Exec(w, run).value.ttl == w.ttl
    decreases |run|
  {
    if run != [] {
      RunKeepsTtl(Apply(w, run[0]), run[1..]);
    }
  }

  ghost predicate NoLongLocks(w: World) {
    w.ttl > 0 && forall k | k in w.db :: w.db[k].expires <= w.now + w.ttl
  }

  lemma {:induction false} RunKeepsNoLongLocks(w: World, run: seq<Step>)
    requires NoLongLocks(w) && Exec(w, run).Some?
    ensures NoLongLocks(Exec(w, run).value)
    decreases |run|
  {
    if run != [] {
      RunKeepsNoLongLocks(Apply(w, run[0]), run[1..]);
    }
  }

  /** Nobody is locked out for good: after any run, disciplined or not, and whatever leaked (a crash, a
      lost release, a lost acquire reply), one TTL later with no renewals anyone may take any interview. */
  lemma LeakedLocksLapse(now: int, ttl: int, run: seq<Step>, dt: nat, key: string, sid: string)
    requires ttl > 0 && dt >= ttl
    requires Exec(Start(now, ttl), run).Some?
    ensures var w := Exec(Start(now, ttl), run).value;
            RedisAcquire(w.db, w.now + dt, ttl, Answered, key, sid).0 == Ok(true)
  {
    RunKeepsNoLongLocks(Start(now, ttl), run);
    RunKeepsTtl(Start(now, ttl), run);
  }

  /** Exactly when a connection breaks the exclusion: it shares its session id with a live connection of
      the interview, and the store's yes reaches it. */
  lemma ConnectBreaksExactly(w: World, id: nat, key: string, sid: string, wire: Wire)
    requires Inv(w) && id !in w.live
    ensures MutualExclusion(Apply(w, Connect(id, key, sid, wire)))
            <==> !(wire == Answered && exists other | other in w.live :: Shares(w.live[other], key, sid))
  {
    var w' := Apply(w, Connect(id, key, sid, wire));
    if other :| other in w.live && Shares(w.live[other], key, sid) {
      assert OwnsLock(w, w.live[other]);
      assert wire == Answered ==> id in w'.live && other in w'.live && w'.live[id].key == w'.live[other].key;
    } else if id in w'.live {
      forall other | other in w.live ensures w.live[other].key != key {
        assert OwnsLock(w, w.live[other]);
      }
    }
  }

  /** Exactly when a stranger gets in beside a live connection that is silent for `dt`: when its TTL has
      run out since its last renewal. */
  lemma StrangerEntersExactly(w: World, id: nat, dt: nat, sid: string)
    requires Inv(w) && id in w.live && HolderOf(sid) != HolderOf(w.live[id].sid)
    ensures RedisAcquire(w.db, w.now + dt, w.ttl, Answered, w.live[id].key, sid).0 == Ok(true)
            <==> w.now + dt >= w.live[id].touched + w.ttl
  {
    assert OwnsLock(w, w.live[id]);
  }

  /** Both halves of the discipline are needed. A session id carried by two connections makes both
      live, and when the first one leaves it deletes the lock of the second, so a stranger joins it. */
  lemma SharedSessionBreaksTheLock(ttl: int)
    requires ttl > 0
    ensures var run := [Connect(0, "iv", "s", Answered), Connect(1, "iv", "s", Answered),
                        Disconnect(0, Answered), Connect(2, "iv", "t", Answered)];
            var end := Exec(Start(0, ttl), run);
            end.Some? && 1 in end.value.live && 2 in end.value.live
            && end.value.live[1].key == end.value.live[2].key && end.value.live[1].sid != end.value.live[2].sid
  {
    var run := [Connect(0, "iv", "s", Answered), Connect(1, "iv", "s", Answered),
                Disconnect(0, Answered), Connect(2, "iv", "t", Answered)];
    var w1 := Apply(Start(0, ttl), run[0]);
    var w2 := Apply(w1, run[1]);
    var w3 := Apply(w2, run[2]);
    assert run[1..][0] == run[1] && run[2..][0] == run[2] && run[3..][0] == run[3];
    assert run[1..][1..] == run[2..] && run[2..][1..] == run[3..] && run[3..][1..] == [];
    assert Exec(w3, run[3..]) == Some(Apply(w3, run[3]));
    assert Exec(w2, run[2..]) == Exec(w3, run[3..]);
    assert Exec(w1, run[1..]) == Exec(w2, run[2..]);
  }

  lemma LateHeartbeatBreaksTheLock(ttl: nat)
    requires ttl > 0
    ensures var run := [Connect(0, "iv", "s", Answered), Wait(ttl), Connect(1, "iv", "t", Answered)];
            var end := Exec(Start(0, ttl), run);
            end.Some? && 0 in end.value.live && 1 in end.value.live
            && end.value.live[0].key == end.value.live[1].key
  {
    var run := [Connect(0, "iv", "s", Answered), Wait(ttl), Connect(1, "iv", "t", Answered)];
    var w1 := Apply(Start(0, ttl), run[0]);
    var w2 := Apply(w1, run[1]);
    assert run[1..][0] == run[1] && run[2..][0] == run[2];
    assert run[1..][1..] == run[2..] && run[2..][1..] == [];
    assert Exec(w2, run[2..]) == Some(Apply(w2, run[2]));
    assert Exec(w1, run[1..]) == Exec(w2, run[2..]);
  }
}
