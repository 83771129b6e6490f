/**
  The ambient transaction: a context carries an optional transaction handle under one
  private key, and `InTx` runs a unit of work inside the context's transaction when it
  has one (a nested frame) or inside a transaction of its own that it begins and then
  commits or rolls back exactly once (the root frame).
*/
module Transactions {
  import opened Wrappers

  /** A `*bun.Tx`; `NilTx` is the nil pointer. */
  datatype TxPtr = NilTx | Ptr(id: nat)

  /** A context key: the library's own `TxKey`, or a key of some other package. */
  datatype Key = TxKey | OtherKey(n: int)

  /** A value stored in a context: a `*bun.Tx`, or a value of any other type. */
  datatype Value = TxValue(tx: TxPtr) | OtherValue(n: int)

  /** An immutable context: the background context, or one derived by `WithValue`. */
  datatype Context = Background | WithValue(parent: Context, key: Key, val: Value)

  /** `ctx.Value(key)`: the innermost binding of `key`, if any. */
  function Lookup(ctx: Context, key: Key): Option<Value>
  {
    match ctx
    case Background => None
    case WithValue(parent, k, v) => if k == key then Some(v) else Lookup(parent, key)
  }

  /**
    The transaction the context carries. A missing slot and a slot holding a value of
    another type both give the nil handle.
  */
  function TxFromContext(ctx: Context): (tx: TxPtr)
    ensures tx != NilTx ==> Lookup(ctx, TxKey) == Some(TxValue(tx))
    ensures !(Lookup(ctx, TxKey).Some? && Lookup(ctx, TxKey).value.TxValue?) ==> tx == NilTx
    ensures Lookup(ctx, TxKey).Some? && Lookup(ctx, TxKey).value.TxValue? ==> tx == Lookup(ctx, TxKey).value.tx
  {
    match Lookup(ctx, TxKey)
    case Some(TxValue(tx)) => tx
    case _ => NilTx
  }

  /**
    A context derived from `ctx` (the background context when `ctx` is nil) that carries
    `tx`; every other key reads as it did in the parent.
  */
  function TxToContext(ctx: Option<Context>, tx: TxPtr): (r: Context)
    ensures TxFromContext(r) == tx
    ensures forall k :: k != TxKey ==> Lookup(r, k) == Lookup(if ctx.Some? then ctx.value else Background, k)
  {
    WithValue(if ctx.Some? then ctx.value else Background, TxKey, TxValue(tx))
  }

  lemma TxContextRoundTrip(ctx: Option<Context>, tx: TxPtr, n: int, v: Value)
    ensures TxFromContext(TxToContext(ctx, tx)) == tx
    ensures TxToContext(None, tx) == TxToContext(Some(Background), tx)
    ensures TxFromContext(Background) == NilTx
    ensures TxFromContext(WithValue(Background, TxKey, OtherValue(n))) == NilTx
    ensures ctx.Some? ==> TxFromContext(WithValue(ctx.value, OtherKey(n), v)) == TxFromContext(ctx.value)
  {
  }

  /** An error value; `RollbackFailed` is the `%w`-wrapped error built when a rollback fails. */
  datatype Error =
    | Failure(code: int)
    | RollbackFailed(cause: Error, rollback: Error)

  /** `errors.Unwrap`: only the cause is wrapped; the rollback error is only formatted. */
  function Unwrap(err: Error): (r: Option<Error>)
    ensures r.Some? <==> err.RollbackFailed?
    ensures err.RollbackFailed? ==> r == Some(err.cause)
    ensures r.Some? ==> r.value < err
  {
    match err
    case Failure(_) => None
    case RollbackFailed(cause, _) => Some(cause)
  }

  /** `errors.Is`: `target` is `err` or an error `err` wraps. */
  predicate Is(err: Error, target: Error): (b: bool)
    ensures err == target ==> b
    ensures b ==> target == err || target < err
    ensures err.Failure? ==> (b <==> target == err)
    ensures err.RollbackFailed? ==> (b <==> target == err || Is(err.cause, target))
    decreases err
  {
    err == target || (Unwrap(err).Some? && Is(Unwrap(err).value, target))
  }

  /** The wrapped error still matches its cause and everything the cause matches, and nothing else. */
  lemma WrappedErrorKeepsCause(cause: Error, rollback: Error, target: Error)
    ensures Is(RollbackFailed(cause, rollback), cause)
    ensures Is(RollbackFailed(cause, rollback), target)
        <==> target == RollbackFailed(cause, rollback) || Is(cause, target)
  {
  }

  /** How a call of `fn` (or of `InTx`) ends: a nil error, an error, or a panic with a value. */
  datatype Outcome = Ok | Err(err: Error) | Panic(v: int)

  /**
    The function handed to `InTx`. It calls `InTx` with the context it receives for
    each unit in `calls`, in order; the first of those calls that does not end with `Ok`
    ends `fn` the same way (an error is returned, a panic unwinds). When all of them
    succeed, `fn` ends with `result`. `id` names the unit.
  */
  datatype Fn = Fn(id: nat, calls: seq<Fn>, result: Outcome)

  /** What the database does when asked to begin, commit and roll back. */
  datatype Collaborator = Collaborator(beginErr: Option<Error>, commitErr: Option<Error>, rollbackErr: Option<Error>)

  /** One observable step: a transaction begun, `fn` entered seeing a handle, a commit, a rollback. */
  datatype Event = Begin(tx: TxPtr) | Ran(id: nat, seen: TxPtr) | Commit(tx: TxPtr) | Rollback(tx: TxPtr)

  /** The events of a call, its outcome, and the next fresh transaction number afterwards. */
  datatype Run = Run(events: seq<Event>, outcome: Outcome, next: nat)

  /** What `InTx(ctx, client, fn)` does when the client's next fresh handle is `Ptr(next)`. */
  function InTxSpec(ctx: Context, next: nat, fn: Fn, env: Collaborator): (r: Run)
    ensures r.next >= next
    decreases fn, 2, 0
  {
    var tx := TxFromContext(ctx);
    if tx != NilTx then Body(TxToContext(Some(ctx), tx), next, fn, env)
    else if env.beginErr.Some? then Run([], Err(env.beginErr.value), next)
    else
      var t := Ptr(next);
      var w := Body(TxToContext(Some(ctx), t), next + 1, fn, env);
      Run([Begin(t)] + w.events + [Settle(t, w.outcome)], Finish(w.outcome, env), w.next)
  }

  /**
    How an `InTx` call starts: without a handle in the context, nothing happens exactly
    when begin fails, and otherwise the begin of the fresh handle comes first; with a
    handle, `fn` is entered first, seeing it.
  */
  lemma InTxSpecStarts(ctx: Context, next: nat, fn: Fn, env: Collaborator)
    ensures var r := InTxSpec(ctx, next, fn, env);
      && (TxFromContext(ctx) == NilTx ==> (r.events == [] <==> env.beginErr.Some?))
      && (TxFromContext(ctx) == NilTx && env.beginErr.None? ==> r.events[0] == Begin(Ptr(next)) && r.next > next)
      && (TxFromContext(ctx) != NilTx ==> |r.events| > 0 && r.events[0] == Ran(fn.id, TxFromContext(ctx)))
  {
    var tx := TxFromContext(ctx);
    if tx != NilTx {
      assert TxFromContext(TxToContext(Some(ctx), tx)) == tx;
    }
  }

  /** The root frame's last step: commit after success, roll back after an error or a panic. */
  function Settle(t: TxPtr, fnOutcome: Outcome): Event
  {
    if fnOutcome == Ok then Commit(t) else Rollback(t)
  }

  /** The root frame's outcome once the transaction is settled. */
  function Finish(fnOutcome: Outcome, env: Collaborator): (o: Outcome)
    ensures fnOutcome == Ok ==> (o == Ok <==> env.commitErr.None?)
    ensures fnOutcome == Ok && env.commitErr.Some? ==> o == Err(env.commitErr.value)
    ensures fnOutcome.Err? ==> o.Err? && Is(o.err, fnOutcome.err)
    ensures fnOutcome.Err? && env.rollbackErr.None? ==> o == fnOutcome
    ensures fnOutcome.Panic? ==> o == fnOutcome
  {
    match fnOutcome
    case Ok => if env.commitErr.Some? then Err(env.commitErr.value) else Ok
    case Err(e) => if env.rollbackErr.Some? then Err(RollbackFailed(e, env.rollbackErr.value)) else Err(e)
    case Panic(v) => Panic(v)
  }

  /** What calling `fn(ctx)` does. */
  function Body(ctx: Context, next: nat, fn: Fn, env: Collaborator): (r: Run)
    ensures r.next >= next
    decreases fn, 1, 0
  {
    var c := CallsUpTo(ctx, next, fn, env, |fn.calls|);
    Run([Ran(fn.id, TxFromContext(ctx))] + c.events, if c.outcome == Ok then fn.result else c.outcome, c.next)
  }

  /** The nested `InTx` calls `fn` makes among its first `i`, stopping at the first that fails. */
  function CallsUpTo(ctx: Context, next: nat, fn: Fn, env: Collaborator, i: nat): (r: Run)
    requires i <= |fn.calls|
    ensures r.next >= next
    decreases fn, 0, i
  {
    if i == 0 then Run([], Ok, next)
    else
      var prev := CallsUpTo(ctx, next, fn, env, i - 1);
      if prev.outcome != Ok then prev
      else
        var c := InTxSpec(ctx, prev.next, fn.calls[i - 1], env);
        Run(prev.events + c.events, c.outcome, c.next)
  }

  /** After successful calls, the next nested call is one more `InTx`, on the counter they leave. */
  lemma CallsUpToNext(ctx: Context, next: nat, fn: Fn, env: Collaborator, i: nat)
    requires i < |fn.calls|
    requires CallsUpTo(ctx, next, fn, env, i).outcome == Ok
    ensures var prev := CallsUpTo(ctx, next, fn, env, i);
      var c := InTxSpec(ctx, prev.next, fn.calls[i], env);
      CallsUpTo(ctx, next, fn, env, i + 1) == Run(prev.events + c.events, c.outcome, c.next)
  {
  }

  /** Once a nested call has failed, the later ones are not made. */
  lemma {:induction false} CallsStuck(ctx: Context, next: nat, fn: Fn, env: Collaborator, i: nat, j: nat)
    requires i <= j <= |fn.calls|
    requires CallsUpTo(ctx, next, fn, env, i).outcome != Ok
    ensures CallsUpTo(ctx, next, fn, env, j) == CallsUpTo(ctx, next, fn, env, i)
    decreases j
  {
    if j > i {
      CallsStuck(ctx, next, fn, env, i, j - 1);
    }
  }

  /** The `*bun.DB` client: the steps it has been asked to perform and its next fresh handle. */
  class DB {
    var log: seq<Event>
    var nextTx: nat

    constructor ()
      ensures log == [] && nextTx == 0
    {
      log := [];
      nextTx := 0;
    }
  }

  /** `InTx`: run `fn` inside the context's transaction, or inside a new one it settles. */
  method InTx(ctx: Context, db: DB, fn: Fn, env: Collaborator) returns (o: Outcome)
    modifies db
    decreases fn, 2
    ensures db.log == old(db.log) + InTxSpec(ctx, old(db.nextTx), fn, env).events
    ensures o == InTxSpec(ctx, old(db.nextTx), fn, env).outcome
    ensures db.nextTx == InTxSpec(ctx, old(db.nextTx), fn, env).next
  {
    ghost var log0, n0 := db.log, db.nextTx;
    var rootTx := false;
    var tx := TxFromContext(ctx);
    if tx == NilTx {
      rootTx := true;
      if env.beginErr.Some? {
        assert db.log == log0 + [];
        return Err(env.beginErr.value);
      }
      tx := Ptr(db.nextTx);
      db.nextTx := db.nextTx + 1;
      db.log := db.log + [Begin(tx)];
    }

    var ctxWithTx := TxToContext(Some(ctx), tx);

    if !rootTx {
      o := RunFn(ctxWithTx, db, fn, env);
      return;
    }

    var fnOutcome := RunFn(ctxWithTx, db, fn, env);
    ghost var w := Body(ctxWithTx, n0 + 1, fn, env);
    assert InTxSpec(ctx, n0, fn, env) == Run([Begin(tx)] + w.events + [Settle(tx, w.outcome)], Finish(w.outcome, env), w.next);
    match fnOutcome
    case Ok =>
      db.log := db.log + [Commit(tx)];
      o := if env.commitErr.Some? then Err(env.commitErr.value) else Ok;
    case Err(e) =>
      db.log := db.log + [Rollback(tx)];
      o := if env.rollbackErr.Some? then Err(RollbackFailed(e, env.rollbackErr.value)) else Err(e);
    case Panic(v) =>
      // the deferred recover: roll back, discard the rollback error, re-raise the panic
      db.log := db.log + [Rollback(tx)];
      o := Panic(v);
    assert db.log == log0 + ([Begin(tx)] + w.events + [Settle(tx, w.outcome)]);
  }

  /** Calls `fn(ctx)`: `fn` runs its nested `InTx` calls in order and stops at the first failure. */
  method RunFn(ctx: Context, db: DB, fn: Fn, env: Collaborator) returns (o: Outcome)
    modifies db
    decreases fn, 1
    ensures db.log == old(db.log) + Body(ctx, old(db.nextTx), fn, env).events
    ensures o == Body(ctx, old(db.nextTx), fn, env).outcome
    ensures db.nextTx == Body(ctx, old(db.nextTx), fn, env).next
  {
    ghost var log0, n0 := db.log, db.nextTx;
    var entered := Ran(fn.id, TxFromContext(ctx));
    db.log := db.log + [entered];
    var c := RunCalls(ctx, db, fn, env);
    o := if c == Ok then fn.result else c;
    assert db.log == log0 + ([entered] + CallsUpTo(ctx, n0, fn, env, |fn.calls|).events);
  }

  /** The nested `InTx` calls of `fn`, in order, up to and including the first that fails. */
  method RunCalls(ctx: Context, db: DB, fn: Fn, env: Collaborator) returns (c: Outcome)
    modifies db
    decreases fn, 0
    ensures db.log == old(db.log) + CallsUpTo(ctx, old(db.nextTx), fn, env, |fn.calls|).events
    ensures c == CallsUpTo(ctx, old(db.nextTx), fn, env, |fn.calls|).outcome
    ensures db.nextTx == CallsUpTo(ctx, old(db.nextTx), fn, env, |fn.calls|).next
  {
    ghost var log0, n0 := db.log, db.nextTx;
    var i := 0;
    while i < |fn.calls|
      invariant 0 <= i <= |fn.calls|
      invariant db.log == log0 + CallsUpTo(ctx, n0, fn, env, i).events
      invariant db.nextTx == CallsUpTo(ctx, n0, fn, env, i).next
      invariant CallsUpTo(ctx, n0, fn, env, i).outcome == Ok
    {
      ghost var prev := CallsUpTo(ctx, n0, fn, env, i);
      ghost var spec := InTxSpec(ctx, prev.next, fn.calls[i], env);
      c := InTx(ctx, db, fn.calls[i], env);
      CallsUpToNext(ctx, n0, fn, env, i);
      assert db.log == log0 + (prev.events + spec.events);
      if c != Ok {
        CallsStuck(ctx, n0, fn, env, i + 1, |fn.calls|);
        return;
      }
      i := i + 1;
    }
    c := Ok;
  }

  /** The steps that are not `fn` being entered: begins, commits and rollbacks. */
  function Controls(events: seq<Event>): seq<Event>
  {
    if events == [] then []
    else Controls(events[..|events| - 1]) + (if events[|events| - 1].Ran? then [] else [events[|events| - 1]])
  }

  /** The units entered, in order. */
  function RanIds(events: seq<Event>): seq<nat>
  {
    if events == [] then []
    else RanIds(events[..|events| - 1]) + (if events[|events| - 1].Ran? then [events[|events| - 1].id] else [])
  }

  lemma {:induction false} ControlsConcat(a: seq<Event>, b: seq<Event>)
    ensures Controls(a + b) == Controls(a) + Controls(b)
    ensures RanIds(a + b) == RanIds(a) + RanIds(b)
    decreases |b|
  {
    if b == [] {
      assert a + b == a;
    } else {
      var b' := b[..|b| - 1];
      assert (a + b)[..|a + b| - 1] == a + b';
      ControlsConcat(a, b');
    }
  }

  /** Every step is a unit being entered and seeing `tx`. */
  predicate InsideTx(events: seq<Event>, tx: TxPtr)
  {
    forall i | 0 <= i < |events| :: events[i].Ran? && events[i].seen == tx
  }

  lemma {:induction false} InsideTxHasNoControls(events: seq<Event>, tx: TxPtr)
    requires InsideTx(events, tx)
    ensures Controls(events) == []
    decreases |events|
  {
    if events != [] {
      InsideTxHasNoControls(events[..|events| - 1], tx);
    }
  }

  /** An `InTx` call whose context already carries a transaction is `fn` itself. */
  lemma {:induction false} NestedStaysInside(ctx: Context, next: nat, fn: Fn, env: Collaborator)
    requires TxFromContext(ctx) != NilTx
    ensures InTxSpec(ctx, next, fn, env) == Body(TxToContext(Some(ctx), TxFromContext(ctx)), next, fn, env)
    ensures InsideTx(InTxSpec(ctx, next, fn, env).events, TxFromContext(ctx))
    ensures InTxSpec(ctx, next, fn, env).next == next
    decreases fn, 2, 0
  {
    BodyStaysInside(TxToContext(Some(ctx), TxFromContext(ctx)), next, fn, env);
  }

  lemma {:induction false} BodyStaysInside(ctx: Context, next: nat, fn: Fn, env: Collaborator)
    requires TxFromContext(ctx) != NilTx
    ensures InsideTx(Body(ctx, next, fn, env).events, TxFromContext(ctx))
    ensures Body(ctx, next, fn, env).next == next
    decreases fn, 1, 0
  {
    CallsStayInside(ctx, next, fn, env, |fn.calls|);
  }

  lemma {:induction false} CallsStayInside(ctx: Context, next: nat, fn: Fn, env: Collaborator, i: nat)
    requires i <= |fn.calls|
    requires TxFromContext(ctx) != NilTx
    ensures InsideTx(CallsUpTo(ctx, next, fn, env, i).events, TxFromContext(ctx))
    ensures CallsUpTo(ctx, next, fn, env, i).next == next
    decreases fn, 0, i
  {
    if i > 0 {
      CallsStayInside(ctx, next, fn, env, i - 1);
      var prev := CallsUpTo(ctx, next, fn, env, i - 1);
      if prev.outcome == Ok {
        NestedStaysInside(ctx, prev.next, fn.calls[i - 1], env);
      }
    }
  }

  /**
    Nested frame: `fn` is entered once, first, seeing the same handle; its outcome is
    returned unchanged; nothing is begun, committed or rolled back.
  */
  lemma NestedFrameIsTransparent(ctx: Context, next: nat, fn: Fn, env: Collaborator)
    requires TxFromContext(ctx) != NilTx
    ensures var r := InTxSpec(ctx, next, fn, env);
      && |r.events| > 0 && r.events[0] == Ran(fn.id, TxFromContext(ctx))
      && r.outcome == Body(TxToContext(Some(ctx), TxFromContext(ctx)), next, fn, env).outcome
      && Controls(r.events) == []
      && r.next == next
  {
    NestedStaysInside(ctx, next, fn, env);
    InsideTxHasNoControls(InTxSpec(ctx, next, fn, env).events, TxFromContext(ctx));
  }

  /** Root frame, begin fails: that error, and `fn` is never called. */
  lemma RootBeginFails(ctx: Context, next: nat, fn: Fn, env: Collaborator)
    requires TxFromContext(ctx) == NilTx && env.beginErr.Some?
    ensures InTxSpec(ctx, next, fn, env).outcome == Err(env.beginErr.value)
    ensures InTxSpec(ctx, next, fn, env).events == []
    ensures InTxSpec(ctx, next, fn, env).next == next
  {
  }

  /**
    Root frame, begin succeeds with a fresh handle `t`: the begin comes first, `fn` is
    entered right after it, seeing `t`, every unit entered after that sees `t` too, and
    the last step is the one commit (after success) or rollback (after an error or a
    panic); there is no other begin, commit or rollback.
  */
  lemma RootBrackets(ctx: Context, next: nat, fn: Fn, env: Collaborator)
    requires TxFromContext(ctx) == NilTx && env.beginErr.None?
    ensures var t := Ptr(next);
      var w := Body(TxToContext(Some(ctx), t), next + 1, fn, env);
      var r := InTxSpec(ctx, next, fn, env);
      && |r.events| >= 3
      && r.events[0] == Begin(t)
      && r.events[1] == Ran(fn.id, t)
      && InsideTx(r.events[1..|r.events| - 1], t)
      && r.events[|r.events| - 1] == Settle(t, w.outcome)
      && Controls(r.events) == [Begin(t), if w.outcome == Ok then Commit(t) else Rollback(t)]
      && r.next == next + 1
  {
    var t := Ptr(next);
    var c := TxToContext(Some(ctx), t);
    var w := Body(c, next + 1, fn, env);
    BodyStaysInside(c, next + 1, fn, env);
    InsideTxHasNoControls(w.events, t);
    var r := InTxSpec(ctx, next, fn, env);
    assert r.events == [Begin(t)] + w.events + [Settle(t, w.outcome)];
    assert r.events[1..|r.events| - 1] == w.events;
    ControlsConcat([Begin(t)], w.events);
    ControlsConcat([Begin(t)] + w.events, [Settle(t, w.outcome)]);
    assert Controls([Begin(t)]) == [Begin(t)] by {
      assert [Begin(t)][..0] == [];
    }
    assert Controls([Settle(t, w.outcome)]) == [Settle(t, w.outcome)] by {
      assert [Settle(t, w.outcome)][..0] == [];
    }
  }

  /**
    Root frame, outcome: after success, the commit error as-is or nil; after an error, that
    error, or, when the rollback fails, a wrapped error that still matches it; after a
    panic, the same panic, whatever the rollback did.
  */
  lemma RootOutcome(ctx: Context, next: nat, fn: Fn, env: Collaborator)
    requires TxFromContext(ctx) == NilTx && env.beginErr.None?
    ensures var w := Body(TxToContext(Some(ctx), Ptr(next)), next + 1, fn, env);
      var r := InTxSpec(ctx, next, fn, env);
      && (w.outcome == Ok ==> r.outcome == if env.commitErr.Some? then Err(env.commitErr.value) else Ok)
      && (w.outcome.Err? ==> r.outcome.Err? && Is(r.outcome.err, w.outcome.err))
      && (w.outcome.Err? && env.rollbackErr.None? ==> r.outcome == w.outcome)
      && (w.outcome.Panic? ==> r.outcome == w.outcome)
  {
    var w := Body(TxToContext(Some(ctx), Ptr(next)), next + 1, fn, env);
    if w.outcome.Err? && env.rollbackErr.Some? {
      WrappedErrorKeepsCause(w.outcome.err, env.rollbackErr.value, w.outcome.err);
    }
  }

  /** The units of `fn`'s call tree in the order a run that never fails enters them. */
  function Preorder(fn: Fn): seq<nat>
    decreases fn, 1, 0
  {
    [fn.id] + PreorderUpTo(fn, |fn.calls|)
  }

  function PreorderUpTo(fn: Fn, i: nat): seq<nat>
    requires i <= |fn.calls|
    decreases fn, 0, i
  {
    if i == 0 then [] else PreorderUpTo(fn, i - 1) + Preorder(fn.calls[i - 1])
  }

  lemma PrefixExtend(p: seq<nat>, a: seq<nat>, b: seq<nat>, c: seq<nat>)
    requires a <= b
    ensures p + a <= p + b
    ensures a <= b + c
  {
    assert (p + b)[..|p + a|] == p + b[..|a|];
    assert (b + c)[..|a|] == b[..|a|];
  }

  /**
    Inside a transaction, the units entered are a prefix of the call tree's pre-order,
    and all of it when the call succeeds: no unit is entered twice, and after success
    every unit has been entered.
  */
  lemma {:induction false} NestedRunsPreorder(ctx: Context, next: nat, fn: Fn, env: Collaborator)
    requires TxFromContext(ctx) != NilTx
    ensures RanIds(InTxSpec(ctx, next, fn, env).events) <= Preorder(fn)
    ensures InTxSpec(ctx, next, fn, env).outcome == Ok ==> RanIds(InTxSpec(ctx, next, fn, env).events) == Preorder(fn)
    decreases fn, 2, 0
  {
    NestedStaysInside(ctx, next, fn, env);
    BodyRunsPreorder(TxToContext(Some(ctx), TxFromContext(ctx)), next, fn, env);
  }

  lemma {:induction false} BodyRunsPreorder(ctx: Context, next: nat, fn: Fn, env: Collaborator)
    requires TxFromContext(ctx) != NilTx
    ensures RanIds(Body(ctx, next, fn, env).events) <= Preorder(fn)
    ensures Body(ctx, next, fn, env).outcome == Ok ==> RanIds(Body(ctx, next, fn, env).events) == Preorder(fn)
    decreases fn, 1, 0
  {
    var c := CallsUpTo(ctx, next, fn, env, |fn.calls|);
    var entered := Ran(fn.id, TxFromContext(ctx));
    CallsRunPreorder(ctx, next, fn, env, |fn.calls|);
    ControlsConcat([entered], c.events);
    assert RanIds([entered]) == [fn.id] by {
      assert [entered][..0] == [];
    }
    PrefixExtend([fn.id], RanIds(c.events), PreorderUpTo(fn, |fn.calls|), []);
  }

  lemma {:induction false} CallsRunPreorder(ctx: Context, next: nat, fn: Fn, env: Collaborator, i: nat)
    requires i <= |fn.calls|
    requires TxFromContext(ctx) != NilTx
    ensures RanIds(CallsUpTo(ctx, next, fn, env, i).events) <= PreorderUpTo(fn, i)
    ensures CallsUpTo(ctx, next, fn, env, i).outcome == Ok ==> RanIds(CallsUpTo(ctx, next, fn, env, i).events) == PreorderUpTo(fn, i)
    decreases fn, 0, i
  {
    if i > 0 {
      CallsRunPreorder(ctx, next, fn, env, i - 1);
      var prev := CallsUpTo(ctx, next, fn, env, i - 1);
      var child := fn.calls[i - 1];
      if prev.outcome != Ok {
        PrefixExtend([], RanIds(prev.events), PreorderUpTo(fn, i - 1), Preorder(child));
      } else {
        var c := InTxSpec(ctx, prev.next, child, env);
        NestedRunsPreorder(ctx, prev.next, child, env);
        ControlsConcat(prev.events, c.events);
        PrefixExtend(PreorderUpTo(fn, i - 1), RanIds(c.events), Preorder(child), []);
      }
    }
  }

  /**
    Root frame: every unit of the call tree, however deeply it nests `InTx`, is entered at
    most once and in pre-order; all of them when `fn` succeeds; none when begin fails.
  */
  lemma RootRunsEachUnitOnce(ctx: Context, next: nat, fn: Fn, env: Collaborator)
    requires TxFromContext(ctx) == NilTx
    ensures var r := InTxSpec(ctx, next, fn, env);
      && (env.beginErr.Some? ==> RanIds(r.events) == [])
      && RanIds(r.events) <= Preorder(fn)
      && (env.beginErr.None? && Body(TxToContext(Some(ctx), Ptr(next)), next + 1, fn, env).outcome == Ok
          ==> RanIds(r.events) == Preorder(fn))
  {
    var r := InTxSpec(ctx, next, fn, env);
    if env.beginErr.None? {
      var t := Ptr(next);
      var w := Body(TxToContext(Some(ctx), t), next + 1, fn, env);
      BodyRunsPreorder(TxToContext(Some(ctx), t), next + 1, fn, env);
      BracketRanIds(t, w.events, w.outcome);
    } else {
      assert r.events == [];
    }
  }

  /** The begin and the settling step around a log enter no unit. */
  lemma BracketRanIds(t: TxPtr, events: seq<Event>, fnOutcome: Outcome)
    ensures RanIds([Begin(t)] + events + [Settle(t, fnOutcome)]) == RanIds(events)
  {
    ControlsConcat([Begin(t)], events);
    ControlsConcat([Begin(t)] + events, [Settle(t, fnOutcome)]);
    assert RanIds([Begin(t)]) == [] by {
      assert [Begin(t)][..0] == [];
    }
    assert RanIds([Settle(t, fnOutcome)]) == [] by {
      assert [Settle(t, fnOutcome)][..0] == [];
    }
  }

  /** The nested case of bunutils' tests: both units run, seeing the one root handle, then one commit. */
  lemma NestedTestExample(next: nat)
    ensures InTxSpec(Background, next, Fn(0, [Fn(1, [], Ok)], Ok), Collaborator(None, None, None))
         == Run([Begin(Ptr(next)), Ran(0, Ptr(next)), Ran(1, Ptr(next)), Commit(Ptr(next))], Ok, next + 1)
  {
    var t := Ptr(next);
    var outer := Fn(0, [Fn(1, [], Ok)], Ok);
    var env := Collaborator(None, None, None);
    var c0 := TxToContext(Some(Background), t);
    var c1 := TxToContext(Some(c0), t);
    assert Body(c1, next + 1, Fn(1, [], Ok), env) == Run([Ran(1, t)], Ok, next + 1);
    assert CallsUpTo(c0, next + 1, outer, env, 1) == Run([Ran(1, t)], Ok, next + 1);
  }
}
