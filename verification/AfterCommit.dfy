/** Transactions and after-commit hooks (backend/pkg/db/postgres.go and
    backend/internal/iam/api/tenant_tx_middleware.go). A transaction body is a tree: it registers
    hooks, runs nested RunInTx bodies and returns. What happens is a trace of events. */
module AfterCommit {
  import opened Prelude

  /** A hook may itself call AfterCommit on the context it is given: `more`, in order. */
  datatype Hook = Hook(id: nat, more: seq<Hook>)

  /** Whether beginning a transaction, setting its tenant and committing it succeed. */
  datatype Answers = Answers(beginOk: bool, tenantOk: bool, commitOk: bool)

  /** `Nested` is a call of RunInTx; `db` says how the database answers if that call
      opens its own transaction, `swallow` whether the caller ignores its error. */
  datatype Prog =
    | Return(ok: bool)
    | Register(hook: Hook, rest: Prog)
    | Nested(body: Prog, db: Answers, swallow: bool, rest: Prog)

  datatype Event = Begin | Commit | Rollback | Ran(id: nat)

  // ------------------------------------------------------ what a body means

  /** `hooks` are left in the registry of the enclosing transaction. */
  datatype Effect = Effect(trace: seq<Event>, hooks: seq<Hook>, ok: bool)

  function Ids(hooks: seq<Hook>): seq<Event> {
    if hooks == [] then [] else Ids(hooks[..|hooks| - 1]) + [Ran(hooks[|hooks| - 1].id)]
  }

  /** What hooks register when they run. */
  function RegisteredBy(hooks: seq<Hook>): seq<Hook> {
    if hooks == [] then [] else RegisteredBy(hooks[..|hooks| - 1]) + hooks[|hooks| - 1].more
  }

  /** Without a registry a hook runs at once, and so do the hooks it registers. */
  function Inline(hook: Hook): seq<Event>
    decreases hook, 1
  {
    [Ran(hook.id)] + InlineAll(hook.more)
  }

  function InlineAll(hooks: seq<Hook>): seq<Event>
    decreases hooks, 0
  {
    if hooks == [] then [] else Inline(hooks[0]) + InlineAll(hooks[1..])
  }

  /** How a transaction ends. */
  function End(hooks: seq<Hook>, commit: bool): seq<Event> {
    if commit then [Commit] + Ids(hooks) else [Rollback]
  }

  /** Where a body runs: outside any transaction, in one that has a registry, or in one that has none. */
  datatype Mode = Free | Joined | Bare

  function Body(p: Prog, mode: Mode): Effect
    decreases p, 0
  {
    match p
    case Return(ok) => Effect([], [], ok)
    case Register(hook, rest) =>
      var r := Body(rest, mode);
      if mode == Joined then r.(hooks := [hook] + r.hooks) else r.(trace := Inline(hook) + r.trace)
    case Nested(body, db, swallow, rest) =>
      var inner := if mode == Free then Transaction(body, db) else Body(body, mode);
      if !inner.ok && !swallow then inner
      else
        var r := Body(rest, mode);
        Effect(inner.trace + r.trace, inner.hooks + r.hooks, r.ok)
  }

  /** RunInTx where there is no transaction to join. */
  function Transaction(p: Prog, db: Answers): Effect
    decreases p, 1
  {
    if !db.beginOk then Effect([], [], false)
    else if !db.tenantOk then Effect([Begin, Rollback], [], false)
    else
      var r := Body(p, Joined);
      Effect([Begin] + r.trace + End(r.hooks, r.ok && db.commitOk), [], r.ok && db.commitOk)
  }

  /** RunInTx of the transaction manager, which attaches no registry: always a transaction of its own. */
  function Managed(p: Prog, db: Answers): Effect {
    if !db.beginOk then Effect([], [], false)
    else if !db.tenantOk then Effect([Begin, Rollback], [], false)
    else
      var r := Body(p, Bare);
      Effect([Begin] + r.trace + End([], r.ok && db.commitOk), [], r.ok && db.commitOk)
  }

  // ----------------------------------------------------- as it is programmed

  class Registry {
    var fns: seq<Hook>

    constructor ()
      ensures fns == []
    {
      fns := [];
    }
  }

  /** A context: without a transaction, with one and its registry, or with a bare one
      (backend/internal/iam/infrastructure/persistence/postgres_tx.go attaches no registry). */
  datatype Ctx = NoTx | Within(registry: Registry) | BareTx

  function ModeOf(ctx: Ctx): Mode { match ctx case NoTx => Free case Within(_) => Joined case BareTx => Bare }

  function Footprint(ctx: Ctx): set<object> { if ctx.Within? then {ctx.registry} else {} }

  class Database {
    var trace: seq<Event>

    constructor ()
      ensures trace == []
    {
      trace := [];
    }

    method AfterCommit(ctx: Ctx, hook: Hook)
      modifies this, Footprint(ctx)
      ensures !ctx.Within? ==> trace == old(trace) + Inline(hook)
      ensures ctx.Within? ==> trace == old(trace) && ctx.registry.fns == old(ctx.registry.fns) + [hook]
      decreases hook, 1
    {
      if !ctx.Within? {
        Call(ctx, hook);
        return;
      }
      ctx.registry.fns := ctx.registry.fns + [hook];
    }

    /** Runs the hook function itself. */
    method Call(ctx: Ctx, hook: Hook)
      modifies this, Footprint(ctx)
      ensures !ctx.Within? ==> trace == old(trace) + Inline(hook)
      ensures ctx.Within? ==> trace == old(trace) + [Ran(hook.id)] && ctx.registry.fns == old(ctx.registry.fns) + hook.more
      decreases hook, 0
    {
      trace := trace + [Ran(hook.id)];
      var i := 0;
      while i < |hook.more|
        invariant 0 <= i <= |hook.more|
        invariant !ctx.Within? ==>
                    trace + InlineAll(hook.more[i..]) == old(trace) + [Ran(hook.id)] + InlineAll(hook.more)
        invariant ctx.Within? ==> trace == old(trace) + [Ran(hook.id)] && ctx.registry.fns == old(ctx.registry.fns) + hook.more[..i]
      {
        assert hook.more[i..][1..] == hook.more[i + 1..];
        AfterCommit(ctx, hook.more[i]);
        i := i + 1;
      }
      assert hook.more[|hook.more|..] == [] && hook.more[..|hook.more|] == hook.more;
      assert trace + [] == trace;
      assert old(trace) + [Ran(hook.id)] + InlineAll(hook.more) == old(trace) + Inline(hook);
    }

    /** Takes the hooks out and runs them in order; what they register stays behind. */
    method RunAfterCommit(ctx: Ctx)
      modifies this, Footprint(ctx)
      ensures trace == old(trace) + if !ctx.Within? then [] else Ids(old(ctx.registry.fns))
      ensures ctx.Within? ==> ctx.registry.fns == RegisteredBy(old(ctx.registry.fns))
    {
      if !ctx.Within? {
        return;
      }
      var fns := ctx.registry.fns;
      ctx.registry.fns := [];
      for i := 0 to |fns|
        invariant trace == old(trace) + Ids(fns[..i])
        invariant ctx.registry.fns == RegisteredBy(fns[..i])
      {
        assert fns[..i + 1][..i] == fns[..i];
        Call(ctx, fns[i]);
      }
      assert fns[..|fns|] == fns;
    }

    method RunBody(ctx: Ctx, p: Prog) returns (ok: bool)
      modifies this, Footprint(ctx)
      ensures var r := Body(p, ModeOf(ctx));
              ok == r.ok && trace == old(trace) + r.trace && (ctx.Within? ==> ctx.registry.fns == old(ctx.registry.fns) + r.hooks)
      decreases p, 0, 0
    {
      match p {
        case Return(result) => return result;
        case Register(hook, rest) =>
          AfterCommit(ctx, hook);
          ok := RunBody(ctx, rest);
          Regroup(old(trace), Inline(hook), Body(rest, ModeOf(ctx)).trace);
          if ctx.Within? {
            Regroup(old(ctx.registry.fns), [hook], Body(rest, Joined).hooks);
          }
        case Nested(body, db, swallow, rest) =>
          var inner := RunInTx(ctx, body, db);
          if !inner && !swallow {
            return false;
          }
          ghost var first := if ctx == NoTx then Transaction(body, db) else Body(body, ModeOf(ctx));
          ok := RunBody(ctx, rest);
          Regroup(old(trace), first.trace, Body(rest, ModeOf(ctx)).trace);
          if ctx.Within? {
            Regroup(old(ctx.registry.fns), first.hooks, Body(rest, Joined).hooks);
          }
      }
    }

    method RunInTx(ctx: Ctx, p: Prog, db: Answers) returns (ok: bool)
      modifies this, Footprint(ctx)
      ensures var r := if ctx == NoTx then Transaction(p, db) else Body(p, ModeOf(ctx));
              ok == r.ok && trace == old(trace) + r.trace && (ctx.Within? ==> ctx.registry.fns == old(ctx.registry.fns) + r.hooks)
      decreases p, 1, 0
    {
      if ctx != NoTx {
        ok := RunBody(ctx, p);
        return;
      }
      ok := RunStandalone(p, db);
    }

    /** A transaction of its own, with a registry of its own. */
    method RunStandalone(p: Prog, db: Answers) returns (ok: bool)
      modifies this
      ensures var r := Transaction(p, db); ok == r.ok && trace == old(trace) + r.trace
      decreases p, 0, 2
    {
      if !db.beginOk {
        return false;
      }
      trace := trace + [Begin];
      if !db.tenantOk {
        trace := trace + [Rollback];
        return false;
      }
      ok := Enclose(p, db.commitOk);
      InsideIsSilent(p);
      Regroup(old(trace), [Begin], End(Body(p, Joined).hooks, ok));
    }

    /** A body with a registry of its own, and the end of its transaction. */
    method Enclose(p: Prog, commit: bool) returns (committed: bool)
      modifies this
      ensures var r := Body(p, Joined);
              committed == (r.ok && commit) && trace == old(trace) + End(r.hooks, committed)
      decreases p, 0, 1
    {
      JoinedBodiesAreSilent(p);
      var registry := new Registry();
      var ok := RunBody(Within(registry), p);
      assert registry.fns == Body(p, Joined).hooks && trace == old(trace);
      committed := Finish(registry, ok && commit);
    }

    method RunManaged(p: Prog, db: Answers) returns (ok: bool)
      modifies this
      ensures var r := Managed(p, db); ok == r.ok && trace == old(trace) + r.trace
    {
      if !db.beginOk {
        return false;
      }
      trace := trace + [Begin];
      if !db.tenantOk {
        trace := trace + [Rollback];
        return false;
      }
      ok := RunBody(BareTx, p);
      ok := ok && db.commitOk;
      trace := trace + if ok then [Commit] else [Rollback];
      ghost var r := Body(p, Bare);
      assert End([], ok) == if ok then [Commit] else [Rollback];
      Regroup(old(trace), [Begin], r.trace);
      Regroup(old(trace), [Begin] + r.trace, End([], ok));
    }

    /** Commit and run the hooks, or roll back. */
    method Finish(registry: Registry, commit: bool) returns (ok: bool)
      modifies this, registry
      ensures ok == commit
      ensures trace == old(trace) + End(old(registry.fns), commit)
    {
      if !commit {
        trace := trace + [Rollback];
        return false;
      }
      trace := trace + [Commit];
      RunAfterCommit(Within(registry));
      return true;
    }

    /** TenantTxMiddleware around a handler that answers with `status`. */
    method Middleware(req: Request, handler: Prog) returns (committed: bool)
      modifies this
      ensures trace == old(trace) + Served(req, handler)
      ensures committed <==> req.hasActor && Commits(req, handler)
    {
      if !req.hasActor {
        var _ := RunBody(NoTx, handler);
        return false;
      }
      if !req.beginOk {
        return false;
      }
      trace := trace + [Begin];
      if !req.tenantOk || !req.orgExists {
        trace := trace + [Rollback];
        return false;
      }
      committed := Enclose(handler, req.status < 400 && req.commitOk);
      InsideIsSilent(handler);
      Regroup(old(trace), [Begin], End(Body(handler, Joined).hooks, committed));
    }
  }

  datatype Request = Request(hasActor: bool, beginOk: bool, tenantOk: bool, orgExists: bool, status: int, commitOk: bool)

  predicate Commits(req: Request, handler: Prog) {
    req.beginOk && req.tenantOk && req.orgExists && Body(handler, Joined).ok && req.status < 400 && req.commitOk
  }

  function Served(req: Request, handler: Prog): seq<Event> {
    if !req.hasActor then Body(handler, Free).trace
    else if !req.beginOk then []
    else if !req.tenantOk || !req.orgExists then [Begin, Rollback]
    else
      var r := Body(handler, Joined);
      [Begin] + r.trace + End(r.hooks, Commits(req, handler))
  }

  // -------------------------------------------------------------- properties

  /** A nested RunInTx is silent: whatever it does, nothing begins, ends or fires inside the
      transaction it joins. */
  lemma {:induction false} JoinedBodiesAreSilent(p: Prog)
    ensures Body(p, Joined).trace == []
  {
    match p {
      case Return(_) =>
      case Register(_, rest) => JoinedBodiesAreSilent(rest);
      case Nested(body, _, _, rest) =>
        JoinedBodiesAreSilent(body);
        JoinedBodiesAreSilent(rest);
    }
  }

  lemma InsideIsSilent(p: Prog)
    ensures [Begin] + Body(p, Joined).trace == [Begin]
  {
    JoinedBodiesAreSilent(p);
  }

  lemma Regroup<T>(a: seq<T>, b: seq<T>, c: seq<T>)
    ensures a + b + c == a + (b + c)
  {}

  /** The AfterCommit calls a body makes, one after the other, as a log kept at the calls themselves:
      the path the body takes through its tree. */
  ghost predicate Takes(p: Prog, calls: seq<Hook>, ok: bool)
    decreases p
  {
    match p
    case Return(result) => calls == [] && ok == result
    case Register(hook, rest) => calls != [] && calls[0] == hook && Takes(rest, calls[1..], ok)
    case Nested(body, _, swallow, rest) =>
      exists i: nat, innerOk: bool | i <= |calls| ::
        && Takes(body, calls[..i], innerOk)
        && if innerOk || swallow then Takes(rest, calls[i..], ok) else i == |calls| && !ok
  }

  lemma {:induction false} BodyTakes(p: Prog)
    ensures Takes(p, Body(p, Joined).hooks, Body(p, Joined).ok)
  {
    var r := Body(p, Joined);
    match p {
      case Return(_) =>
      case Register(hook, rest) =>
        BodyTakes(rest);
        assert r.hooks[1..] == Body(rest, Joined).hooks;
      case Nested(body, _, swallow, rest) =>
        BodyTakes(body);
        BodyTakes(rest);
        var inner := Body(body, Joined);
        var i := |inner.hooks|;
        assert r.hooks[..i] == inner.hooks;
        if inner.ok || swallow {
          assert r.hooks[i..] == Body(rest, Joined).hooks;
        }
    }
  }

  lemma {:induction false} TakesOnePath(p: Prog, calls: seq<Hook>, ok: bool)
    requires Takes(p, calls, ok)
    ensures calls == Body(p, Joined).hooks && ok == Body(p, Joined).ok
  {
    match p {
      case Return(_) =>
      case Register(hook, rest) =>
        TakesOnePath(rest, calls[1..], ok);
        assert calls == [calls[0]] + calls[1..];
      case Nested(body, _, swallow, rest) =>
        var i: nat, innerOk: bool :| i <= |calls| && Takes(body, calls[..i], innerOk)
          && if innerOk || swallow then Takes(rest, calls[i..], ok) else i == |calls| && !ok;
        TakesOnePath(body, calls[..i], innerOk);
        if innerOk || swallow {
          TakesOnePath(rest, calls[i..], ok);
          assert calls == calls[..i] + calls[i..];
        } else {
          assert calls == calls[..i];
        }
    }
  }

  /** After-commit hooks, for every tree: when the transaction commits, the hooks registered on the way
      run after the commit, each exactly once and in registration order, and nothing else runs, hooks
      that hooks register included; when it does not, none run. */
  lemma HooksRunOnceAfterCommit(p: Prog, db: Answers, calls: seq<Hook>, bodyOk: bool)
    requires Takes(p, calls, bodyOk)
    ensures var t := Transaction(p, db);
            && (t.ok <==> db.beginOk && db.tenantOk && bodyOk && db.commitOk)
            && t.trace == if t.ok then [Begin, Commit] + Ids(calls) else if db.beginOk then [Begin, Rollback] else []
  {
    TakesOnePath(p, calls, bodyOk);
    OwnTransaction(p, db);
  }

  /** A transaction of its own shows its begin, its end and its hooks. */
  lemma OwnTransaction(p: Prog, db: Answers)
    ensures var r, t := Body(p, Joined), Transaction(p, db);
            && (t.ok <==> db.beginOk && db.tenantOk && r.ok && db.commitOk)
            && t.trace == if t.ok then [Begin, Commit] + Ids(r.hooks) else if db.beginOk then [Begin, Rollback] else []
  {
    InsideIsSilent(p);
    Regroup([Begin], [Commit], Ids(Body(p, Joined).hooks));
    assert [Begin] + [Commit] == [Begin, Commit] && [Begin] + [Rollback] == [Begin, Rollback];
  }

  /** The same for a request: hooks run exactly when the request transaction commits, which a handler
      error, a status of 400 or above or a failed commit prevents. */
  lemma RequestHooksRunOnceAfterCommit(req: Request, handler: Prog, calls: seq<Hook>, bodyOk: bool)
    requires req.hasActor && req.beginOk && Takes(handler, calls, bodyOk)
    ensures var committed := req.tenantOk && req.orgExists && bodyOk && req.status < 400 && req.commitOk;
            Served(req, handler) == if committed then [Begin, Commit] + Ids(calls) else [Begin, Rollback]
  {
    TakesOnePath(handler, calls, bodyOk);
    JoinedBodiesAreSilent(handler);
  }

  /** Hooks of an inner body whose error the outer body swallowed still run with the rest. */
  lemma SwallowedHooksStillRun(body: Prog, db: Answers, rest: Prog)
    ensures var outer := Nested(body, db, true, rest);
            var t := Transaction(outer, Answers(true, true, true));
            Body(rest, Joined).ok ==>
              t.ok && t.trace == [Begin, Commit] + Ids(Body(body, Joined).hooks) + Ids(Body(rest, Joined).hooks)
  {
    var a, b := Body(body, Joined).hooks, Body(rest, Joined).hooks;
    var outer := Nested(body, db, true, rest);
    assert Body(outer, Joined).hooks == a + b && Body(outer, Joined).ok == Body(rest, Joined).ok;
    OwnTransaction(outer, Answers(true, true, true));
    IdsConcat(a, b);
    Regroup([Begin, Commit], Ids(a), Ids(b));
  }

  lemma {:induction false} IdsConcat(a: seq<Hook>, b: seq<Hook>)
    ensures Ids(a + b) == Ids(a) + Ids(b)
  {
    if b == [] {
      assert a + b == a;
    } else {
      var n := |b| - 1;
      assert (a + b)[..|a| + n] == a + b[..n];
      IdsConcat(a, b[..n]);
    }
  }

  // ----------------------------------------- several transactions in a row

  /** Follows a trace: the state is whether a transaction is open; None when an event does not fit. */
  function Follow(open: bool, trace: seq<Event>): Option<bool>
    decreases |trace|
  {
    if trace == [] then Some(open)
    else
      match trace[0]
      case Begin => if open then None else Follow(true, trace[1..])
      case Commit => if open then Follow(false, trace[1..]) else None
      case Rollback => if open then Follow(false, trace[1..]) else None
      case Ran(_) => if open then None else Follow(false, trace[1..])
  }

  lemma {:induction false} FollowConcat(open: bool, a: seq<Event>, b: seq<Event>)
    requires Follow(open, a).Some?
    ensures Follow(open, a + b) == Follow(Follow(open, a).value, b)
    decreases |a|
  {
    if a == [] {
      assert a + b == b;
    } else {
      assert (a + b)[1..] == a[1..] + b;
      match a[0] {
        case Begin => FollowConcat(true, a[1..], b);
        case _ => FollowConcat(false, a[1..], b);
      }
    }
  }

  lemma {:induction false} IdsFit(hooks: seq<Hook>)
    ensures Follow(false, Ids(hooks)) == Some(false)
  {
    if hooks != [] {
      var n := |hooks| - 1;
      IdsFit(hooks[..n]);
      assert [Ran(hooks[n].id)][1..] == [];
      FollowConcat(false, Ids(hooks[..n]), [Ran(hooks[n].id)]);
    }
  }

  lemma {:induction false} InlineFits(hooks: seq<Hook>)
    ensures Follow(false, InlineAll(hooks)) == Some(false)
    decreases hooks
  {
    if hooks != [] {
      InlineFits(hooks[0].more);
      InlineFits(hooks[1..]);
      assert Inline(hooks[0])[1..] == InlineAll(hooks[0].more);
      FollowConcat(false, Inline(hooks[0]), InlineAll(hooks[1..]));
    }
  }

  lemma TransactionFits(p: Prog, db: Answers)
    ensures Follow(false, Transaction(p, db).trace) == Some(false)
  {
    JoinedBodiesAreSilent(p);
    var r := Body(p, Joined);
    IdsFit(r.hooks);
    assert [Begin, Rollback][1..] == [Rollback] && [Rollback][1..] == [];
    assert [Begin, Commit][1..] == [Commit] && [Commit][1..] == [];
    assert Follow(true, [Rollback]) == Some(false) && Follow(true, [Commit]) == Some(false);
    FollowConcat(false, [Begin, Commit], Ids(r.hooks));
    assert [Begin] + r.trace + [Commit] + Ids(r.hooks) == [Begin, Commit] + Ids(r.hooks);
    assert [Begin] + r.trace + [Rollback] == [Begin, Rollback];
  }

  /** Outside a request, whatever sequence of transactions a program runs, no hook ever runs while a
      transaction is open and every transaction is closed before the next begins. */
  lemma {:induction false} HooksNeverRunInside(p: Prog)
    ensures Follow(false, Body(p, Free).trace) == Some(false)
  {
    match p {
      case Return(_) =>
      case Register(hook, rest) =>
        HooksNeverRunInside(rest);
        InlineFits([hook]);
        assert InlineAll([hook]) == Inline(hook) + InlineAll([]);
        assert Inline(hook) + [] == Inline(hook);
        FollowConcat(false, Inline(hook), Body(rest, Free).trace);
      case Nested(body, db, swallow, rest) =>
        TransactionFits(body, db);
        HooksNeverRunInside(rest);
        FollowConcat(false, Transaction(body, db).trace, Body(rest, Free).trace);
    }
  }

  // ------------------------------------------------- without a registry

  lemma {:induction false} InlineAllConcat(a: seq<Hook>, b: seq<Hook>)
    ensures InlineAll(a + b) == InlineAll(a) + InlineAll(b)
  {
    if a == [] {
      assert a + b == b;
    } else {
      assert (a + b)[1..] == a[1..] + b && (a + b)[0] == a[0];
      InlineAllConcat(a[1..], b);
    }
  }

  /** In a transaction without a registry every hook the path registers runs there and then, with all
      that it registers. */
  lemma {:induction false} BareHooksRunAtOnce(p: Prog)
    ensures var r := Body(p, Bare);
            r.trace == InlineAll(Body(p, Joined).hooks) && r.hooks == [] && r.ok == Body(p, Joined).ok
  {
    match p {
      case Return(_) =>
      case Register(hook, rest) =>
        BareHooksRunAtOnce(rest);
        assert ([hook] + Body(rest, Joined).hooks)[1..] == Body(rest, Joined).hooks;
      case Nested(body, db, swallow, rest) =>
        BareHooksRunAtOnce(body);
        BareHooksRunAtOnce(rest);
        InlineAllConcat(Body(body, Joined).hooks, Body(rest, Joined).hooks);
    }
  }

  /** Exactly when hooks fire early: in a transaction of the transaction manager some hook runs while it
      is still open if and only if the transaction gets going and its body registers one. */
  lemma EarlyExactly(p: Prog, db: Answers)
    ensures Follow(false, Managed(p, db).trace).None? <==> db.beginOk && db.tenantOk && Body(p, Joined).hooks != []
  {
    BareHooksRunAtOnce(p);
    if db.beginOk && db.tenantOk {
      var r := Body(p, Bare);
      assert [Commit] + Ids([]) == [Commit];
      FiresInside(Body(p, Joined).hooks, End([], r.ok && db.commitOk));
      assert [Begin] + r.trace + End([], r.ok && db.commitOk)
          == [Begin] + (InlineAll(Body(p, Joined).hooks) + End([], r.ok && db.commitOk));
    } else {
      assert [Begin, Rollback][1..] == [Rollback] && Follow(true, [Rollback]) == Some(false);
    }
  }

  lemma EndsFit()
    ensures Follow(true, [Commit]) == Some(false) && Follow(true, [Rollback]) == Some(false)
  {
    var none: seq<Event> := [];
    assert [Commit][1..] == none && [Rollback][1..] == none;
    assert Follow(false, none) == Some(false);
  }

  lemma FiresInside(hooks: seq<Hook>, end: seq<Event>)
    requires end == [Commit] || end == [Rollback]
    ensures Follow(false, [Begin] + (InlineAll(hooks) + end)).None? <==> hooks != []
  {
    var inside := InlineAll(hooks) + end;
    assert ([Begin] + inside)[1..] == inside;
    if hooks == [] {
      assert inside == end;
      EndsFit();
    } else {
      assert Inline(hooks[0])[0] == Ran(hooks[0].id);
      assert InlineAll(hooks) == Inline(hooks[0]) + InlineAll(hooks[1..]);
      assert inside[0] == Ran(hooks[0].id);
    }
  }

  /** A transaction of the transaction manager, for every tree: it commits exactly when it gets going, its
      body succeeds and the commit does, and every hook of the path runs before its end either way. */
  lemma ManagedCommitsExactly(p: Prog, db: Answers, calls: seq<Hook>, bodyOk: bool)
    requires Takes(p, calls, bodyOk)
    ensures var t := Managed(p, db);
            && (t.ok <==> db.beginOk && db.tenantOk && bodyOk && db.commitOk)
            && t.trace == if !db.beginOk then []
                          else if !db.tenantOk then [Begin, Rollback]
                          else [Begin] + InlineAll(calls) + (if t.ok then [Commit] else [Rollback])
  {
    TakesOnePath(p, calls, bodyOk);
    BareHooksRunAtOnce(p);
    assert [Commit] + Ids([]) == [Commit];
  }
}
