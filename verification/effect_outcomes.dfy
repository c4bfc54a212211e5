/**
 * What the rows of EffectOperation say: exactly what the ports reported to the calls that wrote
 * them, over every run.
 */
module EffectOutcomes {
  import opened Options
  import opened EffectOperations
  import opened EffectProtocol
  import opened EffectInvariant
  import opened EffectCommit
  import opened EffectSafety
  import H = EffectHistories
  import L = EffectLateCall
  import F = HostFence

  // ----- what a port told a call is what the call goes on to write -----

  // A statement the call has executed in its current transaction is this one.
  predicate Sends(k: Call, cas: Cas) {
    k.staging.Staged? && k.staging.write.Some? ==> k.staging.write.value.cas == cas
  }

  predicate Completes(k: Call, o: Outcome) {
    k.leg == 1 && (k.pc == Completing(o) || k.pc == Ended) && Sends(k, CompleteDispatch(k.authority.token, o))
  }

  predicate Refines(k: Call, o: Outcome) {
    k.leg == 0 && (k.pc == Refining(Some(o)) || k.pc == Ended) && Sends(k, RefineUncertain(o))
  }

  predicate ToldOk(w: World, p: PortFact) {
    p.call in w.calls && p.op == w.calls[p.call].op &&
    match p
    case Called(_, _) => true
    case Answered(c, _, o) => Completes(w.calls[c], o)
    case Skipped(c, _) => Completes(w.calls[c], ABORTED_BEFORE_CALL)
    case Observed(c, _, o) => Refines(w.calls[c], o)
  }

  // A call that asks a reconciliation port has executed nothing yet.
  predicate ObservesFirst(w: World, c: CallId)
    requires c in w.calls
  {
    w.calls[c].pc == Observing ==> w.calls[c].staging == Nothing
  }

  ghost predicate Told(w: World) {
    (forall p <- w.ports :: ToldOk(w, p)) && (forall c <- w.calls :: ObservesFirst(w, c))
  }

  lemma StepObservesFirst(w: World, e: Event, c: CallId)
    requires Enabled(w, e) && c in Apply(w, e).calls && (c in w.calls ==> ObservesFirst(w, c))
    ensures ObservesFirst(Apply(w, e), c)
  {
    if FenceStep(w, e) == None && c in w.calls && e.c != c {
      H.LocalStepsKeepOthers(w, e, c);
    }
  }

  predicate Keeps(k: Call, k': Call, o: Outcome) {
    (Completes(k, o) ==> Completes(k', o)) && (Refines(k, o) ==> Refines(k', o))
  }

  lemma TransactionKeeps(w: World, e: Event, c: CallId, o: Outcome)
    requires Enabled(w, e) && FenceStep(w, e).Some? && c in w.calls
    ensures c in Apply(w, e).calls && Apply(w, e).calls[c].op == w.calls[c].op
    ensures Keeps(w.calls[c], Apply(w, e).calls[c], o)
  {
  }

  lemma StatementKeeps(w: World, e: Event, o: Outcome)
    requires Enabled(w, e) && (e.Update? || e.Miss? || e.Read? || e.Skip? || e.Crash?)
    ensures Apply(w, e).calls[e.c].op == w.calls[e.c].op && Keeps(w.calls[e.c], Apply(w, e).calls[e.c], o)
  {
  }

  lemma PortKeeps(w: World, e: Event, o: Outcome)
    requires Enabled(w, e) && PortStep(e)
    ensures Apply(w, e).calls[e.c].op == w.calls[e.c].op && Keeps(w.calls[e.c], Apply(w, e).calls[e.c], o)
  {
  }

  lemma StepKeeps(w: World, e: Event, c: CallId, o: Outcome)
    requires Enabled(w, e) && c in w.calls
    ensures c in Apply(w, e).calls && Apply(w, e).calls[c].op == w.calls[c].op
    ensures Keeps(w.calls[c], Apply(w, e).calls[c], o)
  {
    if FenceStep(w, e).Some? {
      TransactionKeeps(w, e, c, o);
    } else if e.c != c {
      H.LocalStepsKeepOthers(w, e, c);
    } else if PortStep(e) {
      PortKeeps(w, e, o);
    } else {
      StatementKeeps(w, e, o);
    }
  }

  lemma NewFactIsTold(w: World, e: Event)
    requires Enabled(w, e) && (PortStep(e) ==> CallFacts(w, e.c) && ObservesFirst(w, e.c))
    ensures var ports := Apply(w, e).ports;
            ports == w.ports
            || (|ports| == |w.ports| + 1 && ports[..|w.ports|] == w.ports && ToldOk(Apply(w, e), ports[|w.ports|]))
  {
    if PortStep(e) {
      NewPortFact(w, e);
    }
  }

  lemma NewPortFact(w: World, e: Event)
    requires Enabled(w, e) && PortStep(e) && CallFacts(w, e.c) && ObservesFirst(w, e.c)
    ensures var ports := Apply(w, e).ports;
            ports == w.ports
            || (|ports| == |w.ports| + 1 && ports[..|w.ports|] == w.ports && ToldOk(Apply(w, e), ports[|w.ports|]))
  {
  }

  lemma FactsOfCall(row0: F.FenceRow, w: World, c: CallId)
    requires Inv(row0, w) && c in w.calls
    ensures CallFacts(w, c)
  {
    assert LegsOk(w, c) && StagingOk(w, c) && PcOk(w, c);
  }

  lemma OldFactsStay(w: World, e: Event, p: PortFact)
    requires Enabled(w, e) && ToldOk(w, p)
    ensures ToldOk(Apply(w, e), p)
  {
    StepKeeps(w, e, p.call, match p case Answered(_, _, o) => o case Observed(_, _, o) => o
                                    case _ => ABORTED_BEFORE_CALL);
  }

  lemma StepTells(w: World, e: Event, p: PortFact)
    requires Enabled(w, e) && (PortStep(e) ==> CallFacts(w, e.c) && ObservesFirst(w, e.c))
    requires p in Apply(w, e).ports && (p in w.ports ==> ToldOk(w, p))
    ensures ToldOk(Apply(w, e), p)
  {
    NewFactIsTold(w, e);
    if p in w.ports {
      OldFactsStay(w, e, p);
    }
  }

  lemma StepTold(row0: F.FenceRow, w: World, e: Event)
    requires Inv(row0, w) && Told(w) && Enabled(w, e)
    ensures Told(Apply(w, e))
  {
    if PortStep(e) {
      FactsOfCall(row0, w, e.c);
    }
    forall p | p in Apply(w, e).ports
      ensures ToldOk(Apply(w, e), p)
    {
      StepTells(w, e, p);
    }
    forall c | c in Apply(w, e).calls
      ensures ObservesFirst(Apply(w, e), c)
    {
      StepObservesFirst(w, e, c);
    }
  }

  // ----- what a committed statement leaves in the row -----

  // The current transaction of c is committed, and its statement affected the row.
  predicate CommittedWrite(w: World, c: CallId) {
    PhaseIs(w, c, F.Committed) && Writes(w, c)
  }

  ghost predicate RefinedBySome(w: World, op: OpId) {
    exists d: CallId :: CommittedWrite(w, d) && w.calls[d].op == op && CasAt(w, d).RefineUncertain?
  }

  // The row is as the statement said, unless a reconciliation has been committed on top of an unknown outcome.
  ghost predicate SaidOk(w: World, op: OpId, cas: Cas) {
    op in w.rows &&
    match cas
    case InsertPrepared(d) => SameImmutableRequest(w.rows[op], d)
    case BeginDispatch(token) => w.rows[op].token == Some(token)
    case RefineUncertain(o) => !o.Unknown? && Ends(w.rows[op], o)
    case _ => Ends(w.rows[op], cas.outcome) || (cas.outcome.Unknown? && RefinedBySome(w, op))
  }

  ghost predicate Said(w: World) {
    forall c <- w.calls :: CommittedWrite(w, c) ==> SaidOk(w, w.calls[c].op, CasAt(w, c))
  }

  // Outside a commit no statement becomes committed, and a committed reconciliation stays.
  lemma TransactionCommitsNothing(w: World, e: Event, c: CallId)
    requires Enabled(w, e) && FenceStep(w, e).Some? && !e.Commit? && c in w.calls
    ensures CommittedWrite(Apply(w, e), c) ==> CommittedWrite(w, c) && CasAt(Apply(w, e), c) == CasAt(w, c)
    ensures CommittedWrite(w, c) && CasAt(w, c).RefineUncertain? ==>
        CommittedWrite(Apply(w, e), c) && CasAt(Apply(w, e), c) == CasAt(w, c)
  {
    StepsRefineTheFence(w, e);
    FencePhases(w.db, FenceStep(w, e).value, Tx(w, c));
  }

  lemma FencePhases(db: F.Db, f: F.Event, t: F.TxId)
    requires F.Enabled(db, f) && (f.Commit? ==> f.t != t)
    ensures t in F.Apply(db, f).txs && F.Apply(db, f).txs[t].phase == F.Committed ==>
              t in db.txs && db.txs[t].phase == F.Committed
    ensures t in db.txs && db.txs[t].phase == F.Committed ==>
              t in F.Apply(db, f).txs && F.Apply(db, f).txs[t].phase == F.Committed
              && !(f.Abort? && f.t == t)
  {
  }

  lemma StatementCommitsNothing(w: World, e: Event)
    requires Enabled(w, e) && (e.Update? || e.Miss? || e.Read? || e.Skip? || e.Crash?)
    ensures CommittedWrite(Apply(w, e), e.c) ==> CommittedWrite(w, e.c) && CasAt(Apply(w, e), e.c) == CasAt(w, e.c)
    ensures CommittedWrite(w, e.c) && CasAt(w, e.c).RefineUncertain? ==>
        CommittedWrite(Apply(w, e), e.c) && CasAt(Apply(w, e), e.c) == CasAt(w, e.c)
  {
  }

  // Only a committed admission is followed by a port call, and its answer starts the second transaction.
  lemma AnswerCommitsNothing(w: World, e: Event)
    requires Enabled(w, e) && (e.AnswerPort? || e.AbortCall?) && CallFacts(w, e.c)
    ensures CommittedWrite(Apply(w, e), e.c) ==> CommittedWrite(w, e.c) && CasAt(Apply(w, e), e.c) == CasAt(w, e.c)
    ensures CommittedWrite(w, e.c) ==> !CasAt(w, e.c).RefineUncertain?
  {
    assert AdmissionCommitted(w, e.c);
  }

  lemma PortCommitsNothing(w: World, e: Event)
    requires Enabled(w, e) && PortStep(e) && CallFacts(w, e.c)
    ensures CommittedWrite(Apply(w, e), e.c) ==> CommittedWrite(w, e.c) && CasAt(Apply(w, e), e.c) == CasAt(w, e.c)
    ensures CommittedWrite(w, e.c) && CasAt(w, e.c).RefineUncertain? ==>
        CommittedWrite(Apply(w, e), e.c) && CasAt(Apply(w, e), e.c) == CasAt(w, e.c)
  {
    if e.AnswerPort? || e.AbortCall? {
      AnswerCommitsNothing(w, e);
    }
  }

  lemma OnlyCommitsCommit(w: World, e: Event, c: CallId)
    requires Enabled(w, e) && !e.Commit? && CallFacts(w, c)
    ensures c in Apply(w, e).calls && Apply(w, e).calls[c].op == w.calls[c].op
    ensures CommittedWrite(Apply(w, e), c) ==> CommittedWrite(w, c) && CasAt(Apply(w, e), c) == CasAt(w, c)
    ensures CommittedWrite(w, c) && CasAt(w, c).RefineUncertain? ==>
        CommittedWrite(Apply(w, e), c) && CasAt(Apply(w, e), c) == CasAt(w, c)
  {
    StepKeeps(w, e, c, UNDETERMINED);
    if FenceStep(w, e).Some? {
      TransactionCommitsNothing(w, e, c);
    } else if e.c != c {
      H.LocalStepsKeepOthers(w, e, c);
      StepsRefineTheFence(w, e);
    } else if PortStep(e) {
      PortCommitsNothing(w, e);
    } else {
      StatementCommitsNothing(w, e);
    }
  }

  lemma NewCallsHaveNothing(w: World, e: Event, c: CallId)
    requires Enabled(w, e) && c in Apply(w, e).calls && c !in w.calls
    ensures !CommittedWrite(Apply(w, e), c)
  {
  }

  lemma QuietSaid(row0: F.FenceRow, w: World, e: Event)
    requires Inv(row0, w) && Said(w) && Enabled(w, e) && !e.Commit?
    ensures Said(Apply(w, e))
  {
    var w' := Apply(w, e);
    OnlyWritesChangeRows(w, e);
    forall c | c in w'.calls && CommittedWrite(w', c)
      ensures SaidOk(w', w'.calls[c].op, CasAt(w', c))
    {
      if c !in w.calls {
        NewCallsHaveNothing(w, e, c);
      }
      FactsOfCall(row0, w, c);
      OnlyCommitsCommit(w, e, c);
      assert SaidOk(w, w.calls[c].op, CasAt(w, c));
      if RefinedBySome(w, w.calls[c].op) {
        RefinementsStay(row0, w, e, w.calls[c].op);
      }
    }
  }

  lemma RefinementsStay(row0: F.FenceRow, w: World, e: Event, op: OpId)
    requires Inv(row0, w) && Enabled(w, e) && !e.Commit? && RefinedBySome(w, op)
    ensures RefinedBySome(Apply(w, e), op)
  {
    var d: CallId :| CommittedWrite(w, d) && w.calls[d].op == op && CasAt(w, d).RefineUncertain?;
    FactsOfCall(row0, w, d);
    OnlyCommitsCommit(w, e, d);
    assert CommittedWrite(Apply(w, e), d);
  }

  // ----- a commit -----

  lemma CommitKeepsWrites(w: World, d: CallId, c: CallId)
    requires Committing(w, d) && c in w.calls
    ensures Apply(w, Commit(d)).calls == w.calls
    ensures CommittedWrite(Apply(w, Commit(d)), c) <==> CommittedWrite(w, c) || (c == d && Writes(w, d))
  {
    CommitPhases(w, d);
  }

  // A row that has an outcome takes another only from a reconciliation of an unknown one.
  lemma DecidedRowsAreOnlyRefined(w: World, d: CallId)
    requires Committing(w, d) && Writes(w, d) && w.calls[d].op in w.rows && w.rows[w.calls[d].op].outcome.Some?
    ensures CasAt(w, d).RefineUncertain? && w.rows[w.calls[d].op].outcome.value.Unknown?
  {
  }

  lemma CommittedStatementIsSaid(w: World, d: CallId)
    requires Committing(w, d) && Writes(w, d)
    ensures SaidOk(Apply(w, Commit(d)), w.calls[d].op, CasAt(w, d))
  {
    assert StagingOk(w, d);
  }

  lemma OverwrittenStatementIsSaid(w: World, d: CallId, c: CallId)
    requires Committing(w, d) && Writes(w, d) && CommittedWrite(w, c) && c != d && w.calls[c].op == w.calls[d].op
    requires SaidOk(w, w.calls[c].op, CasAt(w, c))
    requires RefinedBySome(w, w.calls[c].op) ==>
        w.rows[w.calls[c].op].outcome.Some? && !w.rows[w.calls[c].op].outcome.value.Unknown?
    ensures SaidOk(Apply(w, Commit(d)), w.calls[c].op, CasAt(w, c))
  {
    CommitWrite(w, d);
    CommitKeepsWrites(w, d, d);
    WriteSucceeds(w, d, w.calls[d].op);
    if w.rows[w.calls[d].op].outcome.Some? {
      DecidedRowsAreOnlyRefined(w, d);
      assert RefinedBySome(Apply(w, Commit(d)), w.calls[d].op);
    }
  }

  lemma OthersAreSaid(w: World, d: CallId, c: CallId)
    requires Committing(w, d) && c in w.calls && CommittedWrite(w, c) && c != d
    requires !(Writes(w, d) && w.calls[c].op == w.calls[d].op) && SaidOk(w, w.calls[c].op, CasAt(w, c))
    ensures SaidOk(Apply(w, Commit(d)), w.calls[c].op, CasAt(w, c))
  {
    CommitPhases(w, d);
    if RefinedBySome(w, w.calls[c].op) {
      var b: CallId :| CommittedWrite(w, b) && w.calls[b].op == w.calls[c].op && CasAt(w, b).RefineUncertain?;
      CommitKeepsWrites(w, d, b);
      assert CommittedWrite(Apply(w, Commit(d)), b);
    }
  }

  // A committed reconciliation has made the row definite.
  lemma RefinedRowsAreDefinite(w: World, op: OpId)
    requires Said(w) && RefinedBySome(w, op)
    ensures op in w.rows && w.rows[op].outcome.Some? && !w.rows[op].outcome.value.Unknown?
  {
    var d: CallId :| CommittedWrite(w, d) && w.calls[d].op == op && CasAt(w, d).RefineUncertain?;
    assert SaidOk(w, op, CasAt(w, d));
  }

  lemma CommitSaid(row0: F.FenceRow, w: World, d: CallId)
    requires Inv(row0, w) && Said(w) && Enabled(w, Commit(d))
    ensures Said(Apply(w, Commit(d)))
  {
    var w' := Apply(w, Commit(d));
    CommittingOf(w, d);
    forall c | c in w'.calls && CommittedWrite(w', c)
      ensures SaidOk(w', w'.calls[c].op, CasAt(w', c))
    {
      CommitPhases(w, d);
      CommitKeepsWrites(w, d, c);
      var op := w.calls[c].op;
      if c == d {
        CommittedStatementIsSaid(w, d);
      } else if Writes(w, d) && op == w.calls[d].op {
        if RefinedBySome(w, op) {
          RefinedRowsAreDefinite(w, op);
        }
        OverwrittenStatementIsSaid(w, d, c);
      } else {
        OthersAreSaid(w, d, c);
      }
    }
  }

  lemma {:induction false} RunOutcomes(row0: F.FenceRow, w: World, es: seq<Event>)
    requires Inv(row0, w) && Told(w) && Said(w) && Legal(w, es)
    ensures Told(Run(w, es)) && Said(Run(w, es))
    decreases |es|
  {
    if |es| > 0 {
      StepInv(row0, w, es[0]);
      StepTold(row0, w, es[0]);
      if es[0].Commit? {
        CommitSaid(row0, w, es[0].c);
      } else {
        QuietSaid(row0, w, es[0]);
      }
      RunOutcomes(row0, Apply(w, es[0]), es[1..]);
    }
  }

  lemma ReachableOutcomes(row0: F.FenceRow, es: seq<Event>)
    requires Legal(Init(row0), es)
    ensures Inv(row0, After(row0, es)) && Told(After(row0, es)) && Said(After(row0, es))
  {
    InitInv(row0);
    ReachableInv(row0, es);
    RunOutcomes(row0, Init(row0), es);
  }

  // ----- the theorems -----

  // The row records exactly this outcome, in the state that goes with it.
  ghost predicate RowRecords(w: World, op: OpId, o: Outcome) {
    op in w.rows && Ends(w.rows[op], o)
  }

  /**
   * What the dispatch port answered is what the row says: once the caller's second transaction is
   * committed with its statement, the row records exactly that outcome, and an unknown one until a
   * reconciliation is committed.
   */
  lemma AnswersAreRecorded(row0: F.FenceRow, es: seq<Event>, c: CallId, op: OpId, o: Outcome)
    requires Legal(Init(row0), es) && Answered(c, op, o) in After(row0, es).ports
    requires CommittedWrite(After(row0, es), c)
    ensures var w := After(row0, es);
            RowRecords(w, op, o) || (o.Unknown? && RefinedBySome(w, op))
  {
    ReachableOutcomes(row0, es);
    assert ToldOk(After(row0, es), Answered(c, op, o));
  }

  /** A dispatch that skipped the port records FAILED, aborted before the call. */
  lemma SkipsAreRecorded(row0: F.FenceRow, es: seq<Event>, c: CallId, op: OpId)
    requires Legal(Init(row0), es) && Skipped(c, op) in After(row0, es).ports
    requires CommittedWrite(After(row0, es), c)
    ensures RowRecords(After(row0, es), op, ABORTED_BEFORE_CALL) && After(row0, es).rows[op].state == FAILED
  {
    ReachableOutcomes(row0, es);
    assert ToldOk(After(row0, es), Skipped(c, op));
  }

  /** What a reconciliation observed is what the row says, once it is committed with its statement. */
  lemma ObservationsAreRecorded(row0: F.FenceRow, es: seq<Event>, d: CallId, op: OpId, o: Outcome)
    requires Legal(Init(row0), es) && Observed(d, op, o) in After(row0, es).ports
    requires CommittedWrite(After(row0, es), d)
    ensures RowRecords(After(row0, es), op, o) && !o.Unknown?
  {
    ReachableOutcomes(row0, es);
    assert ToldOk(After(row0, es), Observed(d, op, o));
  }

  lemma AnswerBecomesFact(w: World, c: CallId, raw: RawAnswer, o: Outcome)
    requires Enabled(w, AnswerPort(c, Some(raw))) && !o.Unknown? && IsEvidence(raw, o)
    ensures Answered(c, w.calls[c].op, o) in Apply(w, AnswerPort(c, Some(raw))).ports
  {
    DefiniteNeedsEvidence(raw, o);
    assert Apply(w, AnswerPort(c, Some(raw))).ports[|w.ports|] == Answered(c, w.calls[c].op, o);
  }

  lemma {:induction false} AnswersBecomeFacts(w: World, es: seq<Event>, c: CallId, raw: RawAnswer, o: Outcome)
      returns (op: OpId)
    requires Legal(w, es) && AnswerPort(c, Some(raw)) in es && !o.Unknown? && IsEvidence(raw, o)
    ensures Answered(c, op, o) in Run(w, es).ports
    decreases |es|
  {
    if es[0] == AnswerPort(c, Some(raw)) {
      AnswerBecomesFact(w, c, raw, o);
      op := w.calls[c].op;
      PortsOnlyGrow(Apply(w, es[0]), es[1..]);
    } else {
      op := AnswersBecomeFacts(Apply(w, es[0]), es[1..], c, raw, o);
    }
  }

  /**
   * From the adapter to the row: if the port of a dispatch gave positive evidence of an outcome
   * anywhere in the run, and the caller's completion is committed, the row ends in that outcome.
   */
  lemma ReportedOutcomesAreRecorded(row0: F.FenceRow, es: seq<Event>, c: CallId, raw: RawAnswer, o: Outcome)
    requires Legal(Init(row0), es) && AnswerPort(c, Some(raw)) in es && !o.Unknown? && IsEvidence(raw, o)
    requires CommittedWrite(After(row0, es), c)
    ensures RowRecords(After(row0, es), After(row0, es).calls[c].op, o)
  {
    var op := AnswersBecomeFacts(Init(row0), es, c, raw, o);
    ReachableOutcomes(row0, es);
    assert ToldOk(After(row0, es), Answered(c, op, o));
    AnswersAreRecorded(row0, es, c, op, o);
  }

  // A call whose port has answered, in a calm world.
  ghost predicate ReadyToAnswer(w: World, a: F.Authority) {
    && L.Calm(w, a, 2) && 1 in w.calls && w.calls[1].pc == Calling && w.calls[1].op == 0 && w.calls[1].authority == a
    && 0 in w.rows && w.rows[0].state == DISPATCHING
  }

  function AnsweredWith(w: World, o: Outcome): World
    requires 1 in w.calls
  {
    w.(calls := w.calls[1 := w.calls[1].(pc := Completing(o), leg := 1, staging := Nothing)],
       ports := w.ports + [Answered(1, 0, o)])
  }

  lemma AnswerState(w: World, raw: RawAnswer, o: Outcome)
    requires 1 in w.calls && w.calls[1].pc == Calling && w.calls[1].op == 0 && !o.Unknown? && IsEvidence(raw, o)
    ensures Enabled(w, AnswerPort(1, Some(raw))) && Apply(w, AnswerPort(1, Some(raw))) == AnsweredWith(w, o)
  {
    DefiniteNeedsEvidence(raw, o);
  }

  lemma CallingHoldsTheRow(row0: F.FenceRow, w: World, a: F.Authority)
    requires Inv(row0, w) && ReadyToAnswer(w, a)
    ensures w.rows[0].token == Some(a.token) && F.TxId(1, 1) !in w.db.txs
  {
    FactsOfCall(row0, w, 1);
    assert AdmissionCommitted(w, 1);
    assert AdmittedOk(w, 0);
  }

  lemma AnsweredIsUnimpeded(w: World, a: F.Authority, o: Outcome)
    requires 1 in w.calls && w.calls[1].op == 0 && w.calls[1].authority == a
    requires F.Owns(w.db.row, a) && w.db.owner == None && w.locks == map[] && F.TxId(1, 1) !in w.db.txs
    requires 0 in w.rows && w.rows[0].state == DISPATCHING && w.rows[0].token == Some(a.token)
    ensures var w1 := AnsweredWith(w, o);
      && L.Unimpeded(w1, 1) && CasOf(w1.calls[1]) == Some(CompleteDispatch(a.token, o))
      && w1.rows == w.rows && w1.calls[1].op == 0
  {
  }

  lemma CompletedRow(rows: map<OpId, Operation>, token: Token, o: Outcome)
    requires Matches(rows, 0, CompleteDispatch(token, o))
    ensures var r := Written(rows, 0, CompleteDispatch(token, o));
      Ends(r, o) && SameImmutableRequest(r, Draft(rows[0].kind, rows[0].version, rows[0].request))
  {
  }

  // The second transaction of an answered call, in peace.
  lemma CompletionRuns(row0: F.FenceRow, w: World, a: F.Authority, o: Outcome) returns (es: seq<Event>, w': World)
    requires Inv(row0, w) && ReadyToAnswer(w, a)
    ensures L.Reaches(AnsweredWith(w, o), es, w') && RowRecords(w', 0, o)
    ensures w'.ports == w.ports + [Answered(1, 0, o)]
    ensures SameImmutableRequest(w'.rows[0], Draft(w.rows[0].kind, w.rows[0].version, w.rows[0].request))
  {
    CallingHoldsTheRow(row0, w, a);
    AnsweredIsUnimpeded(w, a, o);
    es, w' := L.Transact(AnsweredWith(w, o), 1);
    CompletedRow(w.rows, a.token, o);
  }

  lemma AnswerIsCompleted(row0: F.FenceRow, w: World, a: F.Authority, raw: RawAnswer, o: Outcome)
      returns (es: seq<Event>, w': World)
    requires Inv(row0, w) && ReadyToAnswer(w, a) && !o.Unknown? && IsEvidence(raw, o)
    ensures L.Reaches(w, es, w') && RowRecords(w', 0, o) && w'.ports == w.ports + [Answered(1, 0, o)]
    ensures SameImmutableRequest(w'.rows[0], Draft(w.rows[0].kind, w.rows[0].version, w.rows[0].request))
  {
    var fs;
    fs, w' := CompletionRuns(row0, w, a, o);
    AnswerState(w, raw, o);
    L.Step(w, AnswerPort(1, Some(raw)));
    L.Then(w, [AnswerPort(1, Some(raw))], AnsweredWith(w, o), fs, w');
    es := [AnswerPort(1, Some(raw))] + fs;
  }

  /**
   * A run for every request and every evidence: an undisturbed dispatch ends with its row saying
   * what the port said.
   */
  lemma DispatchRecordsItsAnswer(row0: F.FenceRow, a: F.Authority, d: Draft, raw: RawAnswer, o: Outcome)
      returns (es: seq<Event>, w: World)
    requires F.Owns(row0, a) && !o.Unknown? && IsEvidence(raw, o)
    ensures L.Reaches(Init(row0), es, w)
    ensures RowRecords(w, 0, o) && SameImmutableRequest(w.rows[0], d)
    ensures w.ports == [Called(1, 0), Answered(1, 0, o)]
  {
    var es1, w1 := H.PortCalled(row0, a, d);
    ReachableInv(row0, es1);
    var es2;
    es2, w := AnswerIsCompleted(row0, w1, a, raw, o);
    L.Then(Init(row0), es1, w1, es2, w);
    es := es1 + es2;
  }
}
