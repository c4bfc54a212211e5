/** What EffectProtocol guarantees over every run: one external write, truthful stable outcomes, an exact ledger. */
module EffectSafety {
  import opened Options
  import opened EffectOperations
  import opened EffectProtocol
  import opened EffectInvariant
  import opened EffectCommit
  import F = HostFence

  // The world after a run from an empty operation table.
  ghost function After(row0: F.FenceRow, es: seq<Event>): World
    requires Legal(Init(row0), es)
  {
    Run(Init(row0), es)
  }

  lemma ReachableInv(row0: F.FenceRow, es: seq<Event>)
    requires Legal(Init(row0), es)
    ensures Inv(row0, After(row0, es))
  {
    InitInv(row0);
    RunInv(row0, Init(row0), es);
  }

  /** For each operation the external port is called at most once in the whole history, by the one admitted call. */
  lemma AtMostOneExternalWrite(row0: F.FenceRow, es: seq<Event>, i: nat, j: nat)
    requires Legal(Init(row0), es)
    requires i < |After(row0, es).ports| && j < |After(row0, es).ports|
    requires var ports := After(row0, es).ports; ports[i].Called? && ports[j].Called? && ports[i].op == ports[j].op
    ensures i == j
    ensures var w := After(row0, es);
            w.ports[i].op in w.admitted && w.admitted[w.ports[i].op] == w.ports[i].call
  {
    ReachableInv(row0, es);
    assert PortOk(After(row0, es), After(row0, es).ports[i]);
  }

  /**
   * A definite outcome was reported for that operation: by the dispatch port after the one call,
   * by a reconciliation, or, for the abort outcome, by a call that skipped the port for good.
   */
  lemma OutcomesAreTruthful(row0: F.FenceRow, es: seq<Event>, op: OpId)
    requires Legal(Init(row0), es) && op in After(row0, es).rows
    requires After(row0, es).rows[op].state in {SUCCEEDED, FAILED}
    ensures var w := After(row0, es);
            && w.rows[op].outcome.Some?
            && Status(w.rows[op].outcome.value) == w.rows[op].state
            && exists c :: (Answered(c, op, w.rows[op].outcome.value) in w.ports && Called(c, op) in w.ports)
                           || Observed(c, op, w.rows[op].outcome.value) in w.ports
                           || (w.rows[op].outcome.value == ABORTED_BEFORE_CALL && Skipped(c, op) in w.ports
                               && NeverCalled(w, op))
  {
    ReachableInv(row0, es);
    var w := After(row0, es);
    assert RowOk(w, op);
    var o := w.rows[op].outcome.value;
    var c :| Answered(c, op, o) in w.ports || Observed(c, op, o) in w.ports
        || (o == ABORTED_BEFORE_CALL && Skipped(c, op) in w.ports);
    if Answered(c, op, o) in w.ports {
      assert PortOk(w, Answered(c, op, o));
    } else if Skipped(c, op) in w.ports {
      SkippedExcludesCalls(row0, w, c, op);
    }
  }

  ghost predicate NeverCalled(w: World, op: OpId) {
    forall d :: Called(d, op) !in w.ports
  }

  lemma SkippedExcludesCalls(row0: F.FenceRow, w: World, c: CallId, op: OpId)
    requires Inv(row0, w) && Skipped(c, op) in w.ports
    ensures NeverCalled(w, op)
  {
    assert PortOk(w, Skipped(c, op));
    forall d
      ensures Called(d, op) !in w.ports
    {
      assert Called(d, op) in w.ports ==> PortOk(w, Called(d, op));
    }
  }

  lemma {:induction false} PortsOnlyGrow(w: World, es: seq<Event>)
    requires Legal(w, es)
    ensures w.ports <= Run(w, es).ports
    decreases |es|
  {
    if |es| > 0 {
      PortsOnlyGrow(Apply(w, es[0]), es[1..]);
    }
  }

  /** Once a call skipped the port, no later step of anybody calls it for that operation. */
  lemma SkippedForGood(row0: F.FenceRow, w: World, es: seq<Event>, c: CallId, op: OpId)
    requires Inv(row0, w) && Legal(w, es) && Skipped(c, op) in w.ports
    ensures NeverCalled(Run(w, es), op)
  {
    RunInv(row0, w, es);
    PortsOnlyGrow(w, es);
    assert Skipped(c, op) in Run(w, es).ports;
    SkippedExcludesCalls(row0, Run(w, es), c, op);
  }

  // later is a lawful later version of the row: it climbed along legal edges or stood still.
  predicate Succeeds(later: Operation, earlier: Operation) {
    && Rank(earlier.state) <= Rank(later.state)
    && SameImmutableRequest(later, Draft(earlier.kind, earlier.version, earlier.request))
    && (earlier.token.Some? ==> later.token == earlier.token)
    && (Rank(earlier.state) == Rank(later.state) ==> later == earlier)
  }

  lemma OnlyWritesChangeRows(w: World, e: Event)
    requires Enabled(w, e) && !(e.Commit? && Writes(w, e.c))
    ensures Apply(w, e).rows == w.rows && Apply(w, e).admitted == w.admitted
  {
    if Quiet(e) && !e.Transfer? {
      QuietSameTables(w, e);
    }
  }

  lemma WriteSucceeds(w: World, c: CallId, op: OpId)
    requires Committing(w, c) && Writes(w, c) && op in w.rows
    ensures op in Apply(w, Commit(c)).rows && Succeeds(Apply(w, Commit(c)).rows[op], w.rows[op])
  {
    StatementsAreLegal(w.rows, w.calls[c].op, CasAt(w, c));
  }

  lemma RowStep(row0: F.FenceRow, w: World, e: Event, op: OpId)
    requires Inv(row0, w) && Enabled(w, e) && op in w.rows
    ensures op in Apply(w, e).rows && Succeeds(Apply(w, e).rows[op], w.rows[op])
  {
    if e.Commit? && Writes(w, e.c) {
      CommittingOf(w, e.c);
      WriteSucceeds(w, e.c, op);
    } else {
      OnlyWritesChangeRows(w, e);
    }
  }

  /** Rows only climb: the request and the token never change, and a definite outcome is never touched again. */
  lemma {:induction false} RowsOnlyClimb(row0: F.FenceRow, w: World, es: seq<Event>, op: OpId)
    requires Inv(row0, w) && Legal(w, es) && op in w.rows
    ensures op in Run(w, es).rows && Succeeds(Run(w, es).rows[op], w.rows[op])
    decreases |es|
  {
    if |es| > 0 {
      RowStep(row0, w, es[0], op);
      StepInv(row0, w, es[0]);
      RowsOnlyClimb(row0, Apply(w, es[0]), es[1..], op);
    }
  }

  /** The evidence ledger matches the row exactly, and every record's Activity is retained. */
  lemma LedgerMatchesRows(row0: F.FenceRow, es: seq<Event>, op: OpId)
    requires Legal(Init(row0), es)
    ensures var w := After(row0, es);
            && Count(w.evidence, StartedKind, op) == (if op in w.rows && w.rows[op].state != PREPARED then 1 else 0)
            && Count(w.evidence, OutcomeKind, op) == (if op in w.rows && Decided(w.rows[op].state) then 1 else 0)
            && (forall i :: 0 <= i < |w.evidence| ==> w.evidence[i].call in w.activities)
  {
    ReachableInv(row0, es);
    var w := After(row0, es);
    assert LedgerOk(w, op);
    assert op in w.rows ==> RowOk(w, op);
    assert op in w.admitted ==> AdmittedOk(w, op);
  }

  /** Retaining an Activity never meets one already retained, and evidence never misses its Activity. */
  lemma RetentionNeverFails(row0: F.FenceRow, es: seq<Event>, c: CallId)
    requires Legal(Init(row0), es) && Enabled(After(row0, es), Commit(c))
    ensures var w := After(row0, es);
            w.calls[c].staging.Staged? ==>
              && (w.calls[c].staging.retain ==> c !in w.activities)
              && (w.calls[c].staging.evidence.Some? ==> w.calls[c].staging.retain || c in w.activities)
  {
    ReachableInv(row0, es);
    CommittingOf(After(row0, es), c);
    CommitSets(After(row0, es), c);
  }

  /**
   * A stale Host writes nothing: whenever a call's transaction commits, the fence row holds the
   * call's own authority, and a completion finds its dispatch token in the fence row itself.
   */
  lemma StaleHostsCannotWrite(row0: F.FenceRow, es: seq<Event>, c: CallId)
    requires Legal(Init(row0), es) && Enabled(After(row0, es), Commit(c))
    ensures var w := After(row0, es);
            && F.Owns(w.db.row, w.calls[c].authority)
            && (Writes(w, c) && CasAt(w, c).CompleteDispatch? ==>
                  w.calls[c].op in w.rows && w.rows[w.calls[c].op].state == DISPATCHING
                      && w.rows[w.calls[c].op].token == w.db.row.token)
  {
    ReachableInv(row0, es);
    var w := After(row0, es);
    assert TxOk(w, Tx(w, c)) by {
      assert LegsOk(w, c);
      OwnTransaction(row0, w, c);
    }
    assert F.Pinned(w.db, w.db.txs[Tx(w, c)]);
    if Writes(w, c) {
      CommittingOf(w, c);
      assert StagingOk(w, c);
    }
  }

  lemma OwnTransaction(row0: F.FenceRow, w: World, c: CallId)
    requires Inv(row0, w) && c in w.calls && Tx(w, c) in w.db.txs
    ensures w.db.txs[Tx(w, c)].kind == F.Mutate && w.db.txs[Tx(w, c)].authority == w.calls[c].authority
  {
    assert TxOk(w, Tx(w, c));
  }

  // The external call of c lies ahead, is in progress, or was left by a caller that ended without an outcome.
  predicate CallOutstanding(w: World, c: CallId) {
    c in w.calls && (w.calls[c].pc == Admitted || w.calls[c].pc == Calling || AdmissionCommitted(w, c))
  }

  /**
   * While the external call is outstanding its row may have left DISPATCHING: exactly when
   * somebody committed an explicit recovery of the operation after its admission.
   */
  lemma LateCallIffRecovered(row0: F.FenceRow, es: seq<Event>, c: CallId)
    requires Legal(Init(row0), es) && CallOutstanding(After(row0, es), c)
    ensures var w := After(row0, es); var op := w.calls[c].op;
            op in w.rows && (w.rows[op].state != DISPATCHING <==> op in w.recovered)
  {
    ReachableInv(row0, es);
    assert PcOk(After(row0, es), c);
  }

  /** Every run of the service is a run of the fenced database, so all of the fence's guarantees hold for it. */
  lemma {:induction false} RunsRefineTheFence(w: World, es: seq<Event>) returns (fs: seq<F.Event>)
    requires Legal(w, es)
    ensures F.Legal(w.db, fs) && F.Run(w.db, fs) == Run(w, es).db
    decreases |es|
  {
    fs := [];
    if |es| > 0 {
      StepsRefineTheFence(w, es[0]);
      var rest := RunsRefineTheFence(Apply(w, es[0]), es[1..]);
      match FenceStep(w, es[0]) {
        case None => fs := rest;
        case Some(f) =>
          fs := [f] + rest;
          assert fs[1..] == rest;
      }
    }
  }
}
