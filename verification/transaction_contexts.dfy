/**
 * Transaction contexts as capabilities: SQL of a mutation reaches the database only through a
 * context that was issued after the fence had been verified and that is not yet released.
 */
module TransactionContexts {
  import opened Options
  import F = HostFence

  datatype Mode = READ | MUTATION

  // A context is an object: id is its identity, mode its frozen field. Forged ones have other identities.
  datatype Context = Context(id: nat, mode: Mode)

  function Resolve(transactions: map<Context, F.TxId>, context: Context): Option<F.TxId> {
    if context.mode == MUTATION && context in transactions then Some(transactions[context]) else None
  }

  // The fenced database with the registry of live contexts; issued holds every context object ever created.
  datatype World = World(db: F.Db, transactions: map<Context, F.TxId>, issued: set<Context>)

  datatype Event =
    | Fence(e: F.Event)
    | IssueFor(t: F.TxId, context: Context)
    | IssueRead(t: F.TxId, context: Context)
    | Release(context: Context)

  // `execute` issues after verification, and its `finally` releases before the callback settles.
  predicate Enabled(w: World, e: Event) {
    match e
    case Fence(f) =>
      && F.Enabled(w.db, f)
      && (f.Finish? || f.Settle? || f.Begin? ==> f.t !in w.transactions.Values)
    case IssueFor(t, context) =>
      && F.Working(w.db, t, F.Locked) && w.db.txs[t].kind == F.Mutate
      && context !in w.issued && context.mode == MUTATION
    case IssueRead(t, context) => t !in w.db.txs && context !in w.issued && context.mode == READ
    case Release(context) => context in w.issued
  }

  function Apply(w: World, e: Event): World
    requires Enabled(w, e)
  {
    match e
    case Fence(f) => w.(db := F.Apply(w.db, f))
    case IssueFor(t, context) => w.(transactions := w.transactions[context := t], issued := w.issued + {context})
    case IssueRead(t, context) => w.(transactions := w.transactions[context := t], issued := w.issued + {context})
    case Release(context) => w.(transactions := w.transactions - {context})
  }

  function Init(row: F.FenceRow): World {
    World(F.Init(row), map[], {})
  }

  ghost predicate Legal(w: World, es: seq<Event>)
    decreases |es|
  {
    |es| == 0 || (Enabled(w, es[0]) && Legal(Apply(w, es[0]), es[1..]))
  }

  ghost function Run(w: World, es: seq<Event>): World
    requires Legal(w, es)
    decreases |es|
  {
    if |es| == 0 then w else Run(Apply(w, es[0]), es[1..])
  }

  // A live mutation context belongs to a verified mutation that has not finished; at worst the server ended it.
  ghost predicate ContextOk(w: World, context: Context) {
    context in w.transactions && context.mode == MUTATION ==>
      var t := w.transactions[context];
      && t in w.db.txs && w.db.txs[t].kind == F.Mutate && w.db.txs[t].report == None
      && w.db.txs[t].phase in {F.Locked, F.Aborted}
  }

  ghost predicate Inv(row0: F.FenceRow, w: World) {
    F.Inv(row0, w.db) && forall context :: ContextOk(w, context)
  }

  lemma FenceKeepsContext(w: World, f: F.Event, context: Context)
    requires ContextOk(w, context) && Enabled(w, Fence(f))
    ensures ContextOk(Apply(w, Fence(f)), context)
  {
    if context in w.transactions && context.mode == MUTATION {
      assert w.transactions[context] in w.transactions.Values;
    }
  }

  lemma StepInv(row0: F.FenceRow, w: World, e: Event)
    requires Inv(row0, w) && Enabled(w, e)
    ensures Inv(row0, Apply(w, e))
  {
    if e.Fence? {
      F.StepInv(row0, w.db, e.e);
    }
    forall context
      ensures ContextOk(Apply(w, e), context)
    {
      assert ContextOk(w, context);
      if e.Fence? {
        FenceKeepsContext(w, e.e, context);
      }
    }
  }

  lemma {:induction false} RunInv(row0: F.FenceRow, w: World, es: seq<Event>)
    requires Inv(row0, w) && Legal(w, es)
    ensures Inv(row0, Run(w, es))
    decreases |es|
  {
    if |es| > 0 {
      StepInv(row0, w, es[0]);
      RunInv(row0, Apply(w, es[0]), es[1..]);
    }
  }

  /**
   * Whenever a context resolves for a mutation, its transaction has passed the fence, has not
   * been sent to commit, and while the server keeps it open the fence row is its own Host's.
   */
  lemma MutationsPassTheFence(row0: F.FenceRow, es: seq<Event>, context: Context)
    requires Legal(Init(row0), es)
    requires Resolve(Run(Init(row0), es).transactions, context).Some?
    ensures var w := Run(Init(row0), es);
            var t := Resolve(w.transactions, context).value;
            && t in w.db.txs && w.db.txs[t].kind == F.Mutate && !F.InLog(w.db.log, t)
            && (F.Open(w.db.txs[t].phase) ==> t in w.db.sharers && F.Owns(w.db.row, w.db.txs[t].authority))
  {
    F.InitInv(row0);
    RunInv(row0, Init(row0), es);
    var w := Run(Init(row0), es);
    var t := w.transactions[context];
    assert ContextOk(w, context);
    assert F.LockHeld(w.db, t, w.db.txs[t]) && F.Pinned(w.db, w.db.txs[t]);
    forall i | 0 <= i < |w.db.log|
      ensures w.db.log[i].tx != t
    {
      assert F.EntryOk(w.db, w.db.log[i]);
    }
  }

  // Only created objects are live.
  lemma {:induction false} LiveContextsWereIssued(w: World, es: seq<Event>)
    requires w.transactions.Keys <= w.issued && Legal(w, es)
    ensures Run(w, es).transactions.Keys <= Run(w, es).issued
    decreases |es|
  {
    if |es| > 0 {
      LiveContextsWereIssued(Apply(w, es[0]), es[1..]);
    }
  }

  // A created object is never created again, so it resolves as before until it is released.
  lemma {:induction false} IssuedContextsResolveUntilReleased(w: World, es: seq<Event>, context: Context, t: F.TxId)
    requires Legal(w, es) && w.transactions.Keys <= w.issued && context in w.issued
    ensures IssueFor(t, context) !in es
    ensures Resolve(Run(w, es).transactions, context) == Some(t) <==>
        Resolve(w.transactions, context) == Some(t) && Release(context) !in es
    decreases |es|
  {
    if |es| > 0 {
      assert es == [es[0]] + es[1..];
      IssuedContextsResolveUntilReleased(Apply(w, es[0]), es[1..], context, t);
    }
  }

  /**
   * Over every run a context resolves for a mutation to a transaction exactly if that transaction
   * issued it and it was not released: read contexts, unknown objects and released ones never do.
   */
  lemma {:induction false} ResolvesIffIssuedAndNotReleased(w: World, es: seq<Event>, context: Context, t: F.TxId)
    requires Legal(w, es) && w.transactions.Keys <= w.issued && context !in w.issued
    ensures Resolve(Run(w, es).transactions, context) == Some(t) <==>
        IssueFor(t, context) in es && Release(context) !in es
    decreases |es|
  {
    if |es| > 0 {
      assert es == [es[0]] + es[1..];
      var w1 := Apply(w, es[0]);
      if context in w1.issued {
        IssuedContextsResolveUntilReleased(w1, es[1..], context, t);
      } else {
        ResolvesIffIssuedAndNotReleased(w1, es[1..], context, t);
      }
    }
  }

  // The WeakMap of the module; the database is whatever it is while a piece of its code runs.
  class Registry {
    var transactions: map<Context, F.TxId>
    ghost var issued: set<Context>

    ghost function View(db: F.Db): World
      reads this
    {
      World(db, transactions, issued)
    }

    constructor ()
      ensures forall row :: View(F.Init(row)) == Init(row)
    {
      transactions, issued := map[], {};
    }

    method Issue(context: Context, t: F.TxId, ghost db: F.Db)
      requires Enabled(View(db), if context.mode == MUTATION then IssueFor(t, context) else IssueRead(t, context))
      modifies this
      ensures View(db) == Apply(old(View(db)), if context.mode == MUTATION then IssueFor(t, context)
          else IssueRead(t, context))
    {
      transactions := transactions[context := t];
      issued := issued + {context};
    }

    method ReleaseContext(context: Context, ghost db: F.Db)
      requires Enabled(View(db), Release(context))
      modifies this
      ensures View(db) == Apply(old(View(db)), Release(context))
    {
      transactions := transactions - {context};
    }

    method ResolveForMutation(context: Context) returns (t: Option<F.TxId>)
      ensures t == Resolve(transactions, context)
    {
      if context.mode != MUTATION {
        return None;
      }
      return if context in transactions then Some(transactions[context]) else None;
    }
  }
}
