/**
 * The port call may come after the row says FAILED: a run in which a recovery and a
 * reconciliation overtake an admitted dispatch that has not called its port yet.
 */
module EffectLateCall {
  import opened Options
  import opened EffectOperations
  import opened EffectProtocol
  import F = HostFence

  // Nobody else is in the way of call c: its Host owns the fence, no transaction holds it exclusively.
  ghost predicate Unimpeded(w: World, c: CallId) {
    && c in w.calls
    && InTransaction(w.calls[c].pc)
    && w.calls[c].staging == Nothing
    && CasOf(w.calls[c]).Some?
    && Tx(w, c) !in w.db.txs
    && F.Owns(w.db.row, w.calls[c].authority)
    && w.db.owner == None
    && w.calls[c].op !in w.locks
    && Matches(w.rows, w.calls[c].op, CasOf(w.calls[c]).value)
  }

  function TransactionSteps(c: CallId): seq<Event> {
    [Open(c), Enter(c), Update(c), Finish(c), Issue(c), Commit(c), Ack(c)]
  }

  // What one whole transaction of call c leaves behind.
  ghost predicate Carried(w: World, w': World, c: CallId)
    requires Unimpeded(w, c)
  {
    var k, cas := w.calls[c], CasOf(w.calls[c]).value;
    && w'.rows == w.rows[k.op := Written(w.rows, k.op, cas)]
    && w'.calls.Keys == w.calls.Keys
    && (forall d :: d in w.calls && d != c ==> w'.calls[d] == w.calls[d])
    && w'.calls[c].pc == (if k.pc == Admitting then Admitted else Ended)
    && w'.calls[c].op == k.op && w'.calls[c].authority == k.authority && w'.calls[c].leg == k.leg
    && w'.ports == w.ports
    && w'.locks == w.locks
    && w'.db.row == w.db.row && w'.db.owner == None
    && w'.db.txs.Keys == w.db.txs.Keys + {Tx(w, c)}
  }

  // The transaction of c holds the shared lock and the row it read under it.
  function Entered(w: World, c: CallId): World
    requires Unimpeded(w, c)
  {
    var t := Tx(w, c);
    w.(db := w.db.(txs := w.db.txs[t := F.Tx(F.Mutate, w.calls[c].authority, F.Locked, w.db.row, false, None)],
                   sharers := w.db.sharers + {t}))
  }

  // The same transaction with the statement executed and nothing committed yet.
  function Executed(w: World, c: CallId): World
    requires Unimpeded(w, c)
  {
    var k, cas := w.calls[c], CasOf(w.calls[c]).value;
    var staged :=
        Staged(Some(Write(cas, Written(w.rows, k.op, cas))), Some(EvidenceOf(c, k.op, cas)), !cas.CompleteDispatch?);
    Entered(w, c).(calls := w.calls[c := k.(staging := staged)], locks := w.locks[k.op := c])
  }

  lemma EntryState(w: World, c: CallId)
    requires Unimpeded(w, c)
    ensures Enabled(w, Open(c)) && Enabled(Apply(w, Open(c)), Enter(c))
    ensures Apply(Apply(w, Open(c)), Enter(c)) == Entered(w, c)
  {
    assert Apply(Apply(w, Open(c)), Enter(c)).db.txs == Entered(w, c).db.txs;
  }

  lemma UpdateState(w: World, c: CallId)
    requires Unimpeded(w, c)
    ensures Enabled(Entered(w, c), Update(c)) && Apply(Entered(w, c), Update(c)) == Executed(w, c)
  {
  }

  lemma Execution(w: World, c: CallId)
    requires Unimpeded(w, c)
    ensures Legal(w, [Open(c), Enter(c), Update(c)]) && Run(w, [Open(c), Enter(c), Update(c)]) == Executed(w, c)
  {
    EntryState(w, c);
    UpdateState(w, c);
    Cons(Entered(w, c), Update(c), []);
    Cons(Apply(w, Open(c)), Enter(c), [Update(c)]);
    Cons(w, Open(c), [Enter(c), Update(c)]);
    assert [Open(c), Enter(c), Update(c)] == [Open(c)] + [Enter(c), Update(c)];
  }

  // The same transaction once COMMIT has been sent.
  function Sent(w: World, c: CallId): World
    requires Unimpeded(w, c)
  {
    var w3, t := Executed(w, c), Tx(w, c);
    w3.(db := w3.db.(txs := w3.db.txs[t := w3.db.txs[t].(phase := F.Issued, inDoubt := true)]))
  }

  lemma FinishingState(w: World, c: CallId)
    requires Unimpeded(w, c)
    ensures var w3 := Executed(w, c);
            && Enabled(w3, Finish(c))
            && Apply(w3, Finish(c)) ==
               w3.(db := w3.db.(txs := w3.db.txs[Tx(w, c) := w3.db.txs[Tx(w, c)].(phase := F.Ready, inDoubt := true)]))
  {
  }

  lemma SendingState(w: World, c: CallId)
    requires Unimpeded(w, c)
    ensures var w3 := Executed(w, c);
            && Enabled(w3, Finish(c)) && Enabled(Apply(w3, Finish(c)), Issue(c))
            && Apply(Apply(w3, Finish(c)), Issue(c)) == Sent(w, c)
  {
    FinishingState(w, c);
    var w5 := Apply(Apply(Executed(w, c), Finish(c)), Issue(c));
    assert w5.db.txs == Sent(w, c).db.txs;
  }

  lemma Sending(w: World, c: CallId)
    requires Unimpeded(w, c)
    ensures Legal(Executed(w, c), [Finish(c), Issue(c)]) && Run(Executed(w, c), [Finish(c), Issue(c)]) == Sent(w, c)
  {
    SendingState(w, c);
    Cons(Apply(Executed(w, c), Finish(c)), Issue(c), []);
    Cons(Executed(w, c), Finish(c), [Issue(c)]);
    assert [Finish(c), Issue(c)] == [Finish(c)] + [Issue(c)];
  }

  lemma Committing(w: World, c: CallId)
    requires Unimpeded(w, c)
    ensures Enabled(Sent(w, c), Commit(c))
    ensures var w6, k := Apply(Sent(w, c), Commit(c)), w.calls[c];
            && w6.rows == w.rows[k.op := Written(w.rows, k.op, CasOf(k).value)]
            && w6.locks == w.locks && w6.ports == w.ports && w6.calls == Sent(w, c).calls
            && w6.db.row == w.db.row && w6.db.owner == None && w6.db.txs.Keys == w.db.txs.Keys + {Tx(w, c)}
            && w6.db.txs[Tx(w, c)] == F.Tx(F.Mutate, k.authority, F.Committed, w.db.row, true, None)
  {
    assert Released(Sent(w, c), c) == w.locks;
  }

  lemma Settling(w: World, c: CallId)
    requires Unimpeded(w, c)
    ensures Legal(Sent(w, c), [Commit(c), Ack(c)]) && Carried(w, Run(Sent(w, c), [Commit(c), Ack(c)]), c)
  {
    Committing(w, c);
    var w6 := Apply(Sent(w, c), Commit(c));
    Acknowledging(w, w6, c);
    Cons(w6, Ack(c), []);
    Cons(Sent(w, c), Commit(c), [Ack(c)]);
    assert [Commit(c), Ack(c)] == [Commit(c)] + [Ack(c)];
  }

  lemma Acknowledging(w: World, w6: World, c: CallId)
    requires Unimpeded(w, c) && w6.calls == Sent(w, c).calls && Tx(w, c) in w6.db.txs
    requires w6.db.txs[Tx(w, c)] == F.Tx(F.Mutate, w.calls[c].authority, F.Committed, w.db.row, true, None)
    ensures Enabled(w6, Ack(c))
    ensures var w7 := Apply(w6, Ack(c));
            && w7.rows == w6.rows && w7.locks == w6.locks && w7.ports == w6.ports
            && w7.db.row == w6.db.row && w7.db.owner == w6.db.owner && w7.db.txs.Keys == w6.db.txs.Keys
            && w7.calls == w6.calls[c := w6.calls[c].(pc := if w.calls[c].pc == Admitting then Admitted else Ended)]
  {
  }

  /** An unimpeded mutation commits exactly its own statement. */
  lemma UnimpededMutationCommits(w: World, c: CallId)
    requires Unimpeded(w, c)
    ensures Legal(w, TransactionSteps(c)) && Carried(w, Run(w, TransactionSteps(c)), c)
  {
    Execution(w, c);
    Sending(w, c);
    Settling(w, c);
    Append(w, [Open(c), Enter(c), Update(c)], [Finish(c), Issue(c)]);
    Append(w, [Open(c), Enter(c), Update(c)] + [Finish(c), Issue(c)], [Commit(c), Ack(c)]);
    assert TransactionSteps(c) == [Open(c), Enter(c), Update(c)] + [Finish(c), Issue(c)] + [Commit(c), Ack(c)];
  }

  lemma Cons(w: World, e: Event, es: seq<Event>)
    requires Enabled(w, e) && Legal(Apply(w, e), es)
    ensures Legal(w, [e] + es) && Run(w, [e] + es) == Run(Apply(w, e), es)
  {
    assert ([e] + es)[1..] == es;
  }

  lemma {:induction false} Append(w: World, es: seq<Event>, fs: seq<Event>)
    requires Legal(w, es) && Legal(Run(w, es), fs)
    ensures Legal(w, es + fs) && Run(w, es + fs) == Run(Run(w, es), fs)
    decreases |es|
  {
    if |es| == 0 {
      assert es + fs == fs;
    } else {
      Append(Apply(w, es[0]), es[1..], fs);
      Cons(w, es[0], es[1..] + fs);
      assert es + fs == [es[0]] + (es[1..] + fs);
    }
  }

  ghost predicate Reaches(w: World, es: seq<Event>, w': World) {
    Legal(w, es) && Run(w, es) == w'
  }

  lemma Then(w: World, es: seq<Event>, w1: World, fs: seq<Event>, w2: World)
    requires Reaches(w, es, w1) && Reaches(w1, fs, w2)
    ensures Reaches(w, es + fs, w2)
  {
    Append(w, es, fs);
  }

  lemma Step(w: World, e: Event)
    requires Enabled(w, e)
    ensures Reaches(w, [e], Apply(w, e))
  {
    Cons(w, e, []);
  }

  lemma Transact(w: World, c: CallId) returns (es: seq<Event>, w': World)
    requires Unimpeded(w, c)
    ensures Reaches(w, es, w') && Carried(w, w', c)
  {
    UnimpededMutationCommits(w, c);
    es, w' := TransactionSteps(c), Run(w, TransactionSteps(c));
  }

  // Calls 0 to n-1 have run, nothing is locked, and a owns the fence.
  ghost predicate Calm(w: World, a: F.Authority, n: nat) {
    && F.Owns(w.db.row, a) && w.db.owner == None && w.locks == map[]
    && (forall c: nat :: c in w.calls <==> c < n)
    && (forall t :: t in w.db.txs ==> t.call < n)
  }

  // Call n starts on operation 0 and runs its transaction in peace.
  lemma StartAndCommit(w: World, a: F.Authority, n: nat, goal: Goal) returns (es: seq<Event>, w': World)
    requires Calm(w, a, n) && InTransaction(FirstPc(w.rows, 0, goal))
    requires var k := Call(0, a, 0, FirstPc(w.rows, 0, goal), Nothing);
             CasOf(k).Some? && Matches(w.rows, 0, CasOf(k).value)
    ensures Reaches(w, es, w') && Calm(w', a, n + 1)
    ensures var k := Call(0, a, 0, FirstPc(w.rows, 0, goal), Nothing);
            && w'.rows == w.rows[0 := Written(w.rows, 0, CasOf(k).value)]
            && w'.ports == w.ports
            && (forall c :: c in w.calls ==> w'.calls[c] == w.calls[c])
            && w'.calls[n].pc == (if k.pc == Admitting then Admitted else Ended) && w'.calls[n].op == 0
            && w'.calls[n].authority == a
  {
    var e := Start(n, 0, a, goal);
    Step(w, e);
    var fs;
    fs, w' := Transact(Apply(w, e), n);
    es := [e] + fs;
    Then(w, [e], Apply(w, e), fs, w');
  }

  // Operation 0 is prepared by call 0, admitted by call 1 and recovered by call 2.
  lemma RecoveredBehindAdmission(row0: F.FenceRow, a: F.Authority, d: Draft) returns (es: seq<Event>, w: World)
    requires F.Owns(row0, a)
    ensures Reaches(Init(row0), es, w) && Calm(w, a, 3) && w.ports == []
    ensures 0 in w.rows && w.rows[0].state == UNCERTAIN && w.calls[1].pc == Admitted && w.calls[1].op == 0
  {
    var w0 := Init(row0);
    var es1, w1 := StartAndCommit(w0, a, 0, Prepare(d));
    var es2, w2 := StartAndCommit(w1, a, 1, Dispatch(d.kind));
    Then(w0, es1, w1, es2, w2);
    var es3, w3 := StartAndCommit(w2, a, 2, Recover);
    Then(w0, es1 + es2, w2, es3, w3);
    es, w := es1 + es2 + es3, w3;
  }

  // Call n reconciles operation 0 and its port answers with a failure.
  lemma FailureObserved(w: World, a: F.Authority, n: nat, raw: RawAnswer, p: Problem)
      returns (es: seq<Event>, w': World)
    requires Calm(w, a, n) && 0 in w.rows && w.rows[0].state == UNCERTAIN
        && NormalizeReconciliation(raw) == Some(Failure(p))
    ensures Reaches(w, es, w')
    ensures w' == w.(calls := w.calls[n := Call(0, a, 0, Refining(Some(Failure(p))), Nothing)], ports :=
        w.ports + [Observed(n, 0, Failure(p))])
  {
    var e, o := Start(n, 0, a, Reconcile(w.rows[0].kind, true)), ObservePort(n, Some(raw));
    var w1 := Apply(w, e);
    Step(w, e);
    w' := Apply(w1, o);
    Step(w1, o);
    Then(w, [e], w1, [o], w');
    es := [e] + [o];
  }

  lemma FailureRecorded(w: World, a: F.Authority, n: nat, raw: RawAnswer, p: Problem)
      returns (es: seq<Event>, w': World)
    requires Calm(w, a, n) && 0 in w.rows && w.rows[0].state == UNCERTAIN
        && NormalizeReconciliation(raw) == Some(Failure(p))
    ensures Reaches(w, es, w') && 0 in w'.rows && w'.rows[0].state == FAILED
    ensures w'.ports == w.ports + [Observed(n, 0, Failure(p))]
    ensures forall c :: c in w.calls ==> c in w'.calls && w'.calls[c] == w.calls[c]
  {
    var es1, w1 := FailureObserved(w, a, n, raw, p);
    var es2;
    es2, w' := Transact(w1, n);
    Then(w, es1, w1, es2, w');
    es := es1 + es2;
  }

  /**
   * FAILED does not mean that the external call is over: behind an admitted dispatch that has
   * not called yet, a recovery and a truthful reconciliation record FAILED; then it calls.
   */
  lemma CallAfterFailed(row0: F.FenceRow, a: F.Authority, d: Draft, p: Problem) returns (es: seq<Event>, w: World)
    requires F.Owns(row0, a)
    ensures Reaches(Init(row0), es, w)
    ensures 0 in w.rows && w.rows[0].state == FAILED && w.ports == [Observed(3, 0, Failure(p)), Called(1, 0)]
  {
    var es1, w1 := RecoveredBehindAdmission(row0, a, d);
    var raw := Answer(Some("FAILED"), NoReceipt, Parsed(p));
    DefiniteNeedsEvidence(raw, Failure(p));
    var es2, w2 := FailureRecorded(w1, a, 3, raw, p);
    Then(Init(row0), es1, w1, es2, w2);
    Step(w2, CallPort(1));
    es, w := es1 + es2 + [CallPort(1)], Apply(w2, CallPort(1));
    Then(Init(row0), es1 + es2, w2, [CallPort(1)], w);
  }
}
