/** The commit step of EffectProtocol, the only one that changes durable truth, keeps the invariant. */
module EffectCommit {
  import opened Options
  import opened EffectOperations
  import opened EffectProtocol
  import opened EffectInvariant
  import F = HostFence

  predicate Writes(w: World, c: CallId) {
    c in w.calls && w.calls[c].staging.Staged? && w.calls[c].staging.write.Some?
  }

  function CasAt(w: World, c: CallId): Cas
    requires Writes(w, c)
  {
    w.calls[c].staging.write.value.cas
  }

  // The committing write still matches the committed row, and it is the row's lawful successor.
  ghost predicate WriteReady(w: World, c: CallId)
    requires Writes(w, c)
  {
    var k := w.calls[c];
    && Matches(w.rows, k.op, CasAt(w, c))
    && k.staging.write.value.row == Written(w.rows, k.op, CasAt(w, c))
    && k.op in w.locks && w.locks[k.op] == c
  }

  // What the tables say about one operation.
  ghost predicate OpFacts(w: World, op: OpId) {
    && (op in w.rows ==> RowOk(w, op))
    && (op in w.admitted ==> AdmittedOk(w, op))
    && (op in w.recovered ==> op in w.admitted)
    && LedgerOk(w, op)
  }

  ghost predicate CallFacts(w: World, c: CallId) {
    c in w.calls && LegsOk(w, c) && StagingOk(w, c) && PcOk(w, c)
  }

  // All that a committing call relies on.
  ghost predicate Committing(w: World, c: CallId) {
    && Enabled(w, Commit(c))
    && CallFacts(w, c)
    && OpFacts(w, w.calls[c].op)
    && (Writes(w, c) ==> WriteReady(w, c))
  }

  lemma CommitPhases(w: World, c: CallId)
    requires Enabled(w, Commit(c))
    ensures var w' := Apply(w, Commit(c));
            && w'.db.txs.Keys == w.db.txs.Keys
            && (forall t :: t in w.db.txs && t != Tx(w, c) ==> w'.db.txs[t] == w.db.txs[t])
            && w'.db.txs[Tx(w, c)] == w.db.txs[Tx(w, c)].(phase := F.Committed)
            && w'.calls == w.calls && w'.ports == w.ports
  {
  }

  // A committed write is legal, and an admission is committed once.
  lemma CommitWrite(w: World, c: CallId)
    requires Committing(w, c) && Writes(w, c)
    ensures var op, cas, r := w.calls[c].op, CasAt(w, c), w.calls[c].staging.write.value.row;
            && WellShaped(r)
            && (op in w.rows ==>
                LegalEdge(w.rows[op].state, r.state) && (w.rows[op].token.Some? ==> r.token == w.rows[op].token))
            && (op in w.admitted <==> !cas.InsertPrepared? && !cas.BeginDispatch?)
            && (cas.CompleteDispatch? ==> w.admitted[op] == c)
  {
    StatementsAreLegal(w.rows, w.calls[c].op, CasAt(w, c));
  }

  lemma AdmissionsStay(w: World, c: CallId, op: OpId)
    requires Committing(w, c) && op in w.admitted
    ensures op in Apply(w, Commit(c)).admitted && Apply(w, Commit(c)).admitted[op] == w.admitted[op]
  {
    if Writes(w, c) {
      CommitWrite(w, c);
    }
  }

  lemma CommitRow(w: World, c: CallId, op: OpId)
    requires Committing(w, c) && OpFacts(w, op) && op in Apply(w, Commit(c)).rows
    ensures RowOk(Apply(w, Commit(c)), op)
  {
    if Writes(w, c) {
      CommitWrite(w, c);
    }
  }

  lemma CommitAdmitted(w: World, c: CallId, op: OpId)
    requires Committing(w, c) && OpFacts(w, op) && op in Apply(w, Commit(c)).admitted
    ensures AdmittedOk(Apply(w, Commit(c)), op)
  {
    CommitPhases(w, c);
    if Writes(w, c) {
      CommitWrite(w, c);
    }
  }

  lemma CountAppend(evidence: seq<Evidence>, e: Evidence, kind: EvidenceKind, op: OpId)
    ensures Count(evidence + [e], kind, op) == Count(evidence, kind, op) + (if e.kind == kind && e.op == op then 1
        else 0)
  {
    assert (evidence + [e])[..|evidence|] == evidence;
  }

  // The record a committing call adds, if it is of this kind and about this operation.
  function Added(w: World, c: CallId, kind: EvidenceKind, op: OpId): nat
    requires c in w.calls
  {
    var staging := w.calls[c].staging;
    if staging.Staged? && staging.evidence.Some? && staging.evidence.value.kind == kind
        && staging.evidence.value.op == op then 1 else 0
  }

  lemma CommitCount(w: World, c: CallId, kind: EvidenceKind, op: OpId)
    requires Enabled(w, Commit(c))
    ensures Count(Apply(w, Commit(c)).evidence, kind, op) == Count(w.evidence, kind, op) + Added(w, c, kind, op)
  {
    var staging := w.calls[c].staging;
    if staging.Staged? && staging.evidence.Some? {
      CountAppend(w.evidence, staging.evidence.value, kind, op);
    }
  }

  lemma CommitMembership(w: World, c: CallId, op: OpId)
    requires Committing(w, c) && OpFacts(w, op)
    ensures var w' := Apply(w, Commit(c));
            && (op in w'.admitted <==> op in w.admitted || Added(w, c, StartedKind, op) == 1)
            && (Added(w, c, StartedKind, op) == 1 ==> op !in w.admitted)
            && (op in w'.rows && Decided(w'.rows[op].state) <==>
                (op in w.rows && Decided(w.rows[op].state)) || Added(w, c, OutcomeKind, op) == 1)
            && (Added(w, c, OutcomeKind, op) == 1 ==> !(op in w.rows && Decided(w.rows[op].state)))
  {
    if Writes(w, c) {
      CommitWrite(w, c);
    }
  }

  lemma CommitLedger(w: World, c: CallId, op: OpId)
    requires Committing(w, c) && OpFacts(w, op)
    ensures LedgerOk(Apply(w, Commit(c)), op)
  {
    CommitCount(w, c, StartedKind, op);
    CommitCount(w, c, OutcomeKind, op);
    CommitMembership(w, c, op);
  }

  lemma CommitLock(w: World, c: CallId, op: OpId)
    requires Committing(w, c) && op in Apply(w, Commit(c)).locks && LockOk(w, op)
    ensures LockOk(Apply(w, Commit(c)), op)
  {
    CommitPhases(w, c);
    LocksOfOthers(w, Apply(w, Commit(c)), c, op);
  }

  lemma CommitPcOwn(w: World, c: CallId)
    requires Committing(w, c)
    ensures PcOk(Apply(w, Commit(c)), c)
  {
    CommitPhases(w, c);
    if w.calls[c].op in w.admitted {
      AdmissionsStay(w, c, w.calls[c].op);
    }
    if Writes(w, c) {
      CommitWrite(w, c);
    }
  }

  // The row of another call's admission leaves DISPATCHING only by a recovery.
  lemma CommitKeepsAdmission(w: World, c: CallId, d: CallId)
    requires Committing(w, c) && CallFacts(w, d) && OpFacts(w, w.calls[d].op) && d != c && AdmissionCommitted(w, d)
    ensures var w' := Apply(w, Commit(c));
            var op := w.calls[d].op;
            && op in w'.admitted && w'.admitted[op] == d
            && op in w'.rows && (w'.rows[op].state == DISPATCHING <==> op !in w'.recovered)
  {
    AdmissionsStay(w, c, w.calls[d].op);
    if Writes(w, c) {
      CommitWrite(w, c);
    }
  }

  lemma CommitPcOther(w: World, c: CallId, d: CallId)
    requires Committing(w, c) && CallFacts(w, d) && OpFacts(w, w.calls[d].op) && d != c
    ensures PcOk(Apply(w, Commit(c)), d)
  {
    CommitPhases(w, c);
    if AdmissionCommitted(w, d) {
      CommitKeepsAdmission(w, c, d);
    } else if w.calls[d].op in w.admitted {
      AdmissionsStay(w, c, w.calls[d].op);
    }
  }

  lemma CommitLegs(w: World, c: CallId, d: CallId)
    requires Committing(w, c) && CallFacts(w, d)
    ensures LegsOk(Apply(w, Commit(c)), d)
  {
    CommitPhases(w, c);
  }

  lemma CommitStagingOwn(w: World, c: CallId)
    requires Committing(w, c)
    ensures StagingOk(Apply(w, Commit(c)), c)
  {
    CommitPhases(w, c);
  }

  lemma CommitStagingOther(w: World, c: CallId, d: CallId)
    requires Committing(w, c) && CallFacts(w, d) && d != c
    requires w.calls[d].op in w.locks && w.locks[w.calls[d].op] == c ==> w.calls[d].op == w.calls[c].op
    ensures StagingOk(Apply(w, Commit(c)), d)
  {
    CommitPhases(w, c);
  }

  // ----- from the single facts to the whole invariant -----

  lemma FactsOf(w: World, op: OpId)
    requires TablesOk(w)
    ensures OpFacts(w, op)
  {
    assert LedgerOk(w, op);
  }

  lemma CommittingOf(w: World, c: CallId)
    requires CallsOk(w) && TablesOk(w) && Enabled(w, Commit(c))
    ensures Committing(w, c)
  {
    assert LegsOk(w, c) && StagingOk(w, c) && PcOk(w, c);
    FactsOf(w, w.calls[c].op);
    if Writes(w, c) {
      assert Holding(w, c);
      assert LockOk(w, w.calls[c].op);
    }
  }

  lemma CommitSets(w: World, c: CallId)
    requires Committing(w, c)
    ensures var w' := Apply(w, Commit(c));
            && (w.calls[c].staging.Staged? && w.calls[c].staging.evidence.Some? ==>
                w.calls[c].staging.evidence.value.call in w'.activities)
            && w'.activities <= w.activities + {c}
            && (forall op :: op in w'.recovered && op !in w.recovered ==> op in w.admitted)
  {
    if Writes(w, c) {
      CommitWrite(w, c);
    }
  }

  lemma CommitLocks(w: World, c: CallId)
    requires Committing(w, c) && forall op :: op in w.locks ==> LockOk(w, op)
    ensures forall op :: op in Apply(w, Commit(c)).locks ==> LockOk(Apply(w, Commit(c)), op)
  {
    forall op | op in Apply(w, Commit(c)).locks
      ensures LockOk(Apply(w, Commit(c)), op)
    {
      CommitLock(w, c, op);
    }
  }

  ghost predicate OpStands(w: World, w': World, op: OpId) {
    && (op in w'.rows ==> RowOk(w', op))
    && (op in w'.admitted ==> AdmittedOk(w', op))
    && LedgerOk(w', op)
    && (op in w.admitted ==> op in w'.admitted)
  }

  lemma CommitOperation(w: World, c: CallId, op: OpId)
    requires Committing(w, c) && OpFacts(w, op)
    ensures OpStands(w, Apply(w, Commit(c)), op)
  {
    var w' := Apply(w, Commit(c));
    if op in w'.rows {
      CommitRow(w, c, op);
    }
    if op in w'.admitted {
      CommitAdmitted(w, c, op);
    }
    CommitLedger(w, c, op);
    if op in w.admitted {
      AdmissionsStay(w, c, op);
    }
  }

  lemma CommitOperations(w: World, c: CallId)
    requires TablesOk(w) && Committing(w, c)
    ensures forall op: OpId :: OpStands(w, Apply(w, Commit(c)), op)
  {
    forall op: OpId
      ensures OpStands(w, Apply(w, Commit(c)), op)
    {
      FactsOf(w, op);
      CommitOperation(w, c, op);
    }
  }

  lemma CommitTables(w: World, c: CallId)
    requires CallsOk(w) && TablesOk(w) && Enabled(w, Commit(c))
    ensures TablesOk(Apply(w, Commit(c)))
  {
    CommittingOf(w, c);
    CommitLocks(w, c);
    CommitOperations(w, c);
    CommitRecords(w, c);
    TablesFromParts(w, Apply(w, Commit(c)));
  }

  ghost predicate RecordsStand(w: World, w': World) {
    && (forall i :: 0 <= i < |w'.evidence| ==> w'.evidence[i].call in w'.activities)
    && w'.activities <= w'.calls.Keys
    && (forall op :: op in w'.recovered ==> op in w.admitted)
  }

  lemma CommitRecords(w: World, c: CallId)
    requires TablesOk(w) && Committing(w, c)
    ensures RecordsStand(w, Apply(w, Commit(c)))
  {
    CommitSets(w, c);
    if Writes(w, c) {
      CommitWrite(w, c);
    }
  }

  lemma TablesFromParts(w: World, w': World)
    requires forall op :: op in w'.locks ==> LockOk(w', op)
    requires (forall op: OpId :: OpStands(w, w', op)) && RecordsStand(w, w')
    ensures TablesOk(w')
  {
    forall op: OpId
      ensures (op in w'.rows ==> RowOk(w', op)) && (op in w'.admitted ==> AdmittedOk(w', op)) && LedgerOk(w', op)
      ensures op in w.admitted ==> op in w'.admitted
    {
      assert OpStands(w, w', op);
    }
  }

  lemma CommitCall(w: World, c: CallId, d: CallId)
    requires Committing(w, c) && CallFacts(w, d) && OpFacts(w, w.calls[d].op)
    requires w.calls[d].op in w.locks ==> LockOk(w, w.calls[d].op)
    ensures var w' := Apply(w, Commit(c)); d in w'.calls && LegsOk(w', d) && StagingOk(w', d) && PcOk(w', d)
  {
    CommitLegs(w, c, d);
    if d == c {
      CommitPcOwn(w, c);
      CommitStagingOwn(w, c);
    } else {
      CommitPcOther(w, c, d);
      CommitStagingOther(w, c, d);
    }
  }

  lemma CommitCalls(w: World, c: CallId)
    requires CallsOk(w) && TablesOk(w) && Enabled(w, Commit(c))
    ensures CallsOk(Apply(w, Commit(c)))
  {
    var w' := Apply(w, Commit(c));
    CommittingOf(w, c);
    CommitPhases(w, c);
    forall d | d in w'.calls
      ensures LegsOk(w', d) && StagingOk(w', d) && PcOk(w', d)
    {
      FactsOf(w, w.calls[d].op);
      CommitCall(w, c, d);
    }
  }

  lemma CommitPorts(w: World, c: CallId)
    requires Committing(w, c) && PortsOk(w)
    ensures PortsOk(Apply(w, Commit(c)))
  {
    CommitPhases(w, c);
    forall op | op in w.admitted
      ensures op in Apply(w, Commit(c)).admitted && Apply(w, Commit(c)).admitted[op] == w.admitted[op]
    {
      AdmissionsStay(w, c, op);
    }
    PortsStand(w, Apply(w, Commit(c)));
  }

  lemma CommitOwners(w: World, c: CallId)
    requires Enabled(w, Commit(c)) && forall t :: t in w.db.txs ==> TxOk(w, t)
    ensures forall t :: t in Apply(w, Commit(c)).db.txs ==> TxOk(Apply(w, Commit(c)), t)
  {
    CommitPhases(w, c);
    OwnersStand(w, Apply(w, Commit(c)));
  }

  lemma CommitInv(row0: F.FenceRow, w: World, c: CallId)
    requires Inv(row0, w) && Enabled(w, Commit(c))
    ensures Inv(row0, Apply(w, Commit(c)))
  {
    F.StepInv(row0, w.db, F.Commit(Tx(w, c)));
    CommittingOf(w, c);
    CommitTables(w, c);
    CommitCalls(w, c);
    CommitPorts(w, c);
    CommitOwners(w, c);
    StepsRefineTheFence(w, Commit(c));
  }

  lemma StepInv(row0: F.FenceRow, w: World, e: Event)
    requires Inv(row0, w) && Enabled(w, e)
    ensures Inv(row0, Apply(w, e))
  {
    if e.Transfer? {
      TransferInv(row0, w, e.e);
    } else if e.Update? {
      UpdateInv(row0, w, e.c);
    } else if e.Abort? {
      AbortInv(row0, w, e.c);
    } else if e.Commit? {
      CommitInv(row0, w, e.c);
    } else {
      QuietStepInv(row0, w, e);
    }
  }

  lemma {:induction false} RunInv(row0: F.FenceRow, w: World, es: seq<Event>)
    requires Inv(row0, w) && Legal(w, es)
    ensures Inv(row0, Run(w, es))
    decreases |es|
  {
    if |es| > 0 {
      StepInv(row0, w, es[0]);
      RunInv(row0, Apply(w, es[0]), es[1..]);
    }
  }
}
