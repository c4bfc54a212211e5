/**
 * What particular histories leave in an EffectOperation row: a lost adapter answer, and a definite
 * row while the external call is outstanding.
 */
module EffectHistories {
  import opened Options
  import opened EffectOperations
  import opened EffectProtocol
  import opened EffectInvariant
  import opened EffectCommit
  import opened EffectSafety
  import L = EffectLateCall
  import F = HostFence

  // ----- a lost answer -----

  // Call c was admitted for op and ended without anything to record.
  ghost predicate Abandoned(w: World, c: CallId, op: OpId) {
    c in w.calls && w.calls[c].op == op && w.calls[c].pc == Ended && AdmissionCommitted(w, c)
  }

  lemma LostAnswerAbandons(w: World, c: CallId, raw: RawAnswer)
    requires CallsOk(w) && Enabled(w, AnswerPort(c, Some(raw))) && NormalizeDispatch(raw) == None
    ensures Abandoned(Apply(w, AnswerPort(c, Some(raw))), c, w.calls[c].op)
  {
    assert PcOk(w, c);
  }

  lemma CommitKeepsAbandoned(w: World, d: CallId, c: CallId, op: OpId)
    requires Committing(w, d) && Abandoned(w, c, op)
    ensures Abandoned(Apply(w, Commit(d)), c, op)
  {
    CommitPhases(w, d);
    if Writes(w, d) {
      CommitWrite(w, d);
    }
  }

  // Steps of other calls and of transfers do not touch the admitted transaction, and c itself has ended.
  lemma FenceKeepsAbandoned(w: World, f: F.Event, c: CallId)
    requires F.Enabled(w.db, f) && c in w.calls && AdmissionCommitted(w, c) && !f.Begin?
    ensures Tx(w, c) in F.Apply(w.db, f).txs && F.Apply(w.db, f).txs[Tx(w, c)].phase == F.Committed
  {
  }

  lemma FencedKeepsAbandoned(w: World, e: Event, c: CallId, op: OpId)
    requires Enabled(w, e) && Abandoned(w, c, op)
        && (e.Enter? || e.Turned? || e.Finish? || e.Issue? || e.Ack? || e.Throw? || e.Abort?)
    ensures Abandoned(Apply(w, e), c, op)
  {
    StepsRefineTheFence(w, e);
    FenceKeepsAbandoned(w, FenceStep(w, e).value, c);
  }

  lemma OpenKeepsAbandoned(w: World, e: Event, c: CallId, op: OpId)
    requires Enabled(w, e) && Abandoned(w, c, op) && (e.Open? || e.Transfer?)
    ensures Abandoned(Apply(w, e), c, op)
  {
  }

  // Of an ended call only a crash is left.
  lemma CrashKeepsAbandoned(w: World, e: Event, op: OpId)
    requires Enabled(w, e) && FenceStep(w, e) == None && Abandoned(w, e.c, op)
    ensures Abandoned(Apply(w, e), e.c, op)
  {
  }

  lemma LocalStepsKeepOthers(w: World, e: Event, c: CallId)
    requires Enabled(w, e) && FenceStep(w, e) == None && c in w.calls && e.c != c
    ensures c in Apply(w, e).calls && Apply(w, e).calls[c] == w.calls[c]
  {
  }

  lemma OthersKeepAbandoned(w: World, e: Event, c: CallId, op: OpId)
    requires Enabled(w, e) && FenceStep(w, e) == None && e.c != c && Abandoned(w, c, op)
    ensures Abandoned(Apply(w, e), c, op)
  {
    StepsRefineTheFence(w, e);
    LocalStepsKeepOthers(w, e, c);
  }

  lemma QuietKeepsAbandoned(w: World, e: Event, c: CallId, op: OpId)
    requires Enabled(w, e) && !e.Commit? && Abandoned(w, c, op)
    ensures Abandoned(Apply(w, e), c, op)
  {
    if e.Open? || e.Transfer? {
      OpenKeepsAbandoned(w, e, c, op);
    } else if e.Enter? || e.Turned? || e.Finish? || e.Issue? || e.Ack? || e.Throw? || e.Abort? {
      FencedKeepsAbandoned(w, e, c, op);
    } else if e.c == c {
      CrashKeepsAbandoned(w, e, op);
    } else {
      OthersKeepAbandoned(w, e, c, op);
    }
  }

  lemma {:induction false} AbandonedForGood(row0: F.FenceRow, w: World, es: seq<Event>, c: CallId, op: OpId)
    requires Inv(row0, w) && Legal(w, es) && Abandoned(w, c, op)
    ensures Abandoned(Run(w, es), c, op)
    decreases |es|
  {
    if |es| > 0 {
      StepInv(row0, w, es[0]);
      if es[0].Commit? {
        CommittingOf(w, es[0].c);
        CommitKeepsAbandoned(w, es[0].c, c, op);
      } else {
        QuietKeepsAbandoned(w, es[0], c, op);
      }
      AbandonedForGood(row0, Apply(w, es[0]), es[1..], c, op);
    }
  }

  /**
   * Once the answer of the one external call could not be normalized, the row stays DISPATCHING
   * in every continuation if and only if nobody commits an explicit recovery.
   */
  lemma {:induction false} LostAnswersStayDispatching(row0: F.FenceRow, es: seq<Event>, c: CallId, raw: RawAnswer,
      fs: seq<Event>)
    requires Legal(Init(row0), es) && Enabled(After(row0, es), AnswerPort(c, Some(raw)))
        && NormalizeDispatch(raw) == None
    requires Legal(Apply(After(row0, es), AnswerPort(c, Some(raw))), fs)
    ensures var op := After(row0, es).calls[c].op;
            var w := Run(Apply(After(row0, es), AnswerPort(c, Some(raw))), fs);
            op in w.rows && (w.rows[op].state == DISPATCHING <==> op !in w.recovered)
  {
    ReachableInv(row0, es);
    var w := After(row0, es);
    LostAnswerAbandons(w, c, raw);
    StepInv(row0, w, AnswerPort(c, Some(raw)));
    AbandonedForGood(row0, Apply(w, AnswerPort(c, Some(raw))), fs, c, w.calls[c].op);
    RunInv(row0, Apply(w, AnswerPort(c, Some(raw))), fs);
  }

  // Operation 0 is prepared by call 0 and admitted by call 1.
  lemma OperationAdmitted(row0: F.FenceRow, a: F.Authority, d: Draft) returns (es: seq<Event>, w: World)
    requires F.Owns(row0, a)
    ensures L.Reaches(Init(row0), es, w)
    ensures 0 in w.rows && w.rows[0].state == DISPATCHING && w.ports == []
    ensures 1 in w.calls && w.calls[1].pc == Admitted && w.calls[1].op == 0
    ensures L.Calm(w, a, 2) && w.calls[1].authority == a
    ensures SameImmutableRequest(w.rows[0], d)
  {
    var es1, w1 := L.StartAndCommit(Init(row0), a, 0, Prepare(d));
    var es2, w2 := L.StartAndCommit(w1, a, 1, Dispatch(d.kind));
    L.Then(Init(row0), es1, w1, es2, w2);
    es, w := es1 + es2, w2;
  }

  // Call 1 goes on to call the port.
  lemma PortCalled(row0: F.FenceRow, a: F.Authority, d: Draft) returns (es: seq<Event>, w: World)
    requires F.Owns(row0, a)
    ensures L.Reaches(Init(row0), es, w)
    ensures 0 in w.rows && w.rows[0].state == DISPATCHING && w.ports == [Called(1, 0)]
    ensures 1 in w.calls && w.calls[1].pc == Calling && w.calls[1].op == 0
    ensures L.Calm(w, a, 2) && w.calls[1].authority == a
    ensures SameImmutableRequest(w.rows[0], d)
  {
    var es1, w1 := OperationAdmitted(row0, a, d);
    L.Step(w1, CallPort(1));
    es, w := es1 + [CallPort(1)], Apply(w1, CallPort(1));
    L.Then(Init(row0), es1, w1, [CallPort(1)], w);
  }

  /** A concrete run: the adapter reports a failure with a problem that is no JSON, and the row is left DISPATCHING. */
  lemma FailureReportIsLost(row0: F.FenceRow, a: F.Authority, d: Draft) returns (es: seq<Event>, w: World)
    requires F.Owns(row0, a)
    ensures L.Reaches(Init(row0), es, w)
    ensures 0 in w.rows && w.rows[0].state == DISPATCHING && w.ports == [Called(1, 0)] && 1 in w.calls
        && w.calls[1].pc == Ended
  {
    var raw := Answer(Some("FAILED"), NoReceipt, NotJson);
    AnswerIsLostIff(raw);
    var es1, w1 := PortCalled(row0, a, d);
    L.Step(w1, AnswerPort(1, Some(raw)));
    es, w := es1 + [AnswerPort(1, Some(raw))], Apply(w1, AnswerPort(1, Some(raw)));
    L.Then(Init(row0), es1, w1, [AnswerPort(1, Some(raw))], w);
  }

  // ----- a definite row while the call is outstanding -----

  predicate Definite(w: World, op: OpId) {
    op in w.rows && (w.rows[op].state == SUCCEEDED || w.rows[op].state == FAILED)
  }

  predicate CommitsRefinement(w: World, e: Event, op: OpId) {
    e.Commit? && Writes(w, e.c) && CasAt(w, e.c).RefineUncertain? && w.calls[e.c].op == op
  }

  // Somebody commits a reconciliation of op in the run.
  ghost predicate RefinedIn(w: World, es: seq<Event>, op: OpId)
    requires Legal(w, es)
    decreases |es|
  {
    |es| > 0 && (CommitsRefinement(w, es[0], op) || RefinedIn(Apply(w, es[0]), es[1..], op))
  }

  // The admitted call of op is in its second transaction.
  predicate CompletedBySomebody(w: World, op: OpId) {
    op in w.admitted && w.admitted[op] in w.calls && w.calls[w.admitted[op]].leg == 1
  }

  lemma CommitDecides(w: World, d: CallId, op: OpId)
    requires Committing(w, d)
    ensures CommitsRefinement(w, Commit(d), op) ==> Definite(Apply(w, Commit(d)), op)
    ensures Definite(Apply(w, Commit(d)), op) && !Definite(w, op) && !CommitsRefinement(w, Commit(d), op) ==>
        CompletedBySomebody(Apply(w, Commit(d)), op)
    ensures CompletedBySomebody(w, op) ==> CompletedBySomebody(Apply(w, Commit(d)), op)
  {
    CommitPhases(w, d);
    if Writes(w, d) {
      CommitWrite(w, d);
    }
  }

  lemma QuietLegs(w: World, e: Event, c: CallId)
    requires Enabled(w, e) && !e.Commit? && c in w.calls && w.calls[c].leg == 1
    ensures c in Apply(w, e).calls && Apply(w, e).calls[c].leg == 1
  {
    if FenceStep(w, e) == None && e.c != c {
      LocalStepsKeepOthers(w, e, c);
    }
  }

  lemma QuietDecides(w: World, e: Event, op: OpId)
    requires Enabled(w, e) && !e.Commit?
    ensures Definite(Apply(w, e), op) ==> Definite(w, op)
    ensures CompletedBySomebody(w, op) ==> CompletedBySomebody(Apply(w, e), op)
  {
    OnlyWritesChangeRows(w, e);
    if CompletedBySomebody(w, op) {
      QuietLegs(w, e, w.admitted[op]);
    }
  }

  lemma StepDecides(row0: F.FenceRow, w: World, e: Event, op: OpId)
    requires Inv(row0, w) && Enabled(w, e)
    ensures CommitsRefinement(w, e, op) ==> Definite(Apply(w, e), op)
    ensures Definite(Apply(w, e), op) && !Definite(w, op) && !CommitsRefinement(w, e, op) ==>
        CompletedBySomebody(Apply(w, e), op)
    ensures CompletedBySomebody(w, op) ==> CompletedBySomebody(Apply(w, e), op)
  {
    if e.Commit? {
      CommittingOf(w, e.c);
      CommitDecides(w, e.c, op);
    } else {
      QuietDecides(w, e, op);
    }
  }

  lemma {:induction false} CompletedStays(row0: F.FenceRow, w: World, es: seq<Event>, op: OpId)
    requires Inv(row0, w) && Legal(w, es) && CompletedBySomebody(w, op)
    ensures CompletedBySomebody(Run(w, es), op)
    decreases |es|
  {
    if |es| > 0 {
      StepDecides(row0, w, es[0], op);
      StepInv(row0, w, es[0]);
      CompletedStays(row0, Apply(w, es[0]), es[1..], op);
    }
  }

  lemma DefiniteRowStays(w: World, w': World, op: OpId)
    requires Definite(w, op) && op in w'.rows && Succeeds(w'.rows[op], w.rows[op])
    ensures Definite(w', op)
  {
  }

  lemma {:induction false} DefiniteStays(row0: F.FenceRow, w: World, es: seq<Event>, op: OpId)
    requires Inv(row0, w) && Legal(w, es) && Definite(w, op)
    ensures Definite(Run(w, es), op)
  {
    RowsOnlyClimb(row0, w, es, op);
    DefiniteRowStays(w, Run(w, es), op);
  }

  lemma {:induction false} RunDecides(row0: F.FenceRow, w: World, es: seq<Event>, op: OpId)
    requires Inv(row0, w) && Legal(w, es) && !Definite(w, op)
    ensures RefinedIn(w, es, op) ==> Definite(Run(w, es), op)
    ensures Definite(Run(w, es), op) && !RefinedIn(w, es, op) ==> CompletedBySomebody(Run(w, es), op)
    decreases |es|
  {
    if |es| > 0 {
      StepDecides(row0, w, es[0], op);
      StepInv(row0, w, es[0]);
      if !Definite(Apply(w, es[0]), op) {
        RunDecides(row0, Apply(w, es[0]), es[1..], op);
      } else {
        DefiniteStays(row0, Apply(w, es[0]), es[1..], op);
        if !CommitsRefinement(w, es[0], op) {
          CompletedStays(row0, Apply(w, es[0]), es[1..], op);
        }
      }
    }
  }

  /**
   * The row is definite while the external call is outstanding exactly if a reconciliation of the
   * operation was committed before.
   */
  lemma {:induction false} LateCallIsDefiniteIffRefined(row0: F.FenceRow, es: seq<Event>, c: CallId)
    requires Legal(Init(row0), es) && CallOutstanding(After(row0, es), c)
    ensures Definite(After(row0, es), After(row0, es).calls[c].op) <==>
        RefinedIn(Init(row0), es, After(row0, es).calls[c].op)
  {
    var w := After(row0, es);
    var op := w.calls[c].op;
    InitInv(row0);
    ReachableInv(row0, es);
    RunDecides(row0, Init(row0), es, op);
    assert LegsOk(w, c) && PcOk(w, c);
  }
}
