/** Every step of EffectProtocol keeps its invariant. */
module EffectInvariant {
  import opened Options
  import opened EffectOperations
  import opened EffectProtocol
  import F = HostFence

  // A step of one transaction leaves every other transaction alone.
  lemma FenceFrame(s: F.Db, e: F.Event, t: F.TxId)
    requires F.Enabled(s, e) && t != e.t
    ensures t in F.Apply(s, e).txs <==> t in s.txs
    ensures t in s.txs ==> F.Apply(s, e).txs[t] == s.txs[t]
  {
  }

  // w' differs from w only in call c and in c's transactions, and may know more port facts.
  ghost predicate OnlyCall(w: World, w': World, c: CallId) {
    && (forall d :: d in w.calls && d != c ==> d in w'.calls && w'.calls[d] == w.calls[d])
    && (forall d :: d in w'.calls && d != c ==> d in w.calls)
    && (forall t :: t in w.db.txs && t.call != c ==> t in w'.db.txs && w'.db.txs[t] == w.db.txs[t])
    && (forall t :: t in w'.db.txs && t.call != c ==> t in w.db.txs)
    && w.ports <= w'.ports
  }

  ghost predicate SameTables(w: World, w': World) {
    && w'.rows == w.rows && w'.locks == w.locks && w'.activities == w.activities && w'.evidence == w.evidence
    && w'.admitted == w.admitted && w'.recovered == w.recovered
  }

  predicate FirstLegCommitted(w: World, c: CallId) {
    F.TxId(c, 0) in w.db.txs && w.db.txs[F.TxId(c, 0)].phase == F.Committed
  }

  // What a step that touches no table has to show about its own call.
  ghost predicate OwnCallOk(w: World, w': World, c: CallId) {
    && (c in w.calls ==>
        c in w'.calls && w'.calls[c].op == w.calls[c].op && w'.calls[c].authority == w.calls[c].authority)
    && (c in w'.calls ==> LegsOk(w', c) && StagingOk(w', c) && PcOk(w', c))
    && (forall t :: t in w'.db.txs && t.call == c ==> TxOk(w', t))
    && (c in w.calls && Holding(w, c) && w.calls[c].staging.Staged? ==>
        Holding(w', c) && w'.calls[c].staging == w.calls[c].staging)
    && (FirstLegCommitted(w, c) ==> FirstLegCommitted(w', c))
  }

  lemma OthersUnmoved(w: World, w': World, c: CallId)
    requires CallsOk(w) && OnlyCall(w, w', c) && SameTables(w, w')
    ensures forall d :: d in w'.calls && d != c ==> LegsOk(w', d) && StagingOk(w', d) && PcOk(w', d)
  {
    forall d | d in w'.calls && d != c
      ensures LegsOk(w', d) && StagingOk(w', d) && PcOk(w', d)
    {
      assert LegsOk(w, d) && StagingOk(w, d) && PcOk(w, d);
      assert Holding(w', d) == Holding(w, d);
      assert forall p :: PhaseIs(w', d, p) == PhaseIs(w, d, p);
    }
  }

  lemma QuietTables(w: World, w': World, c: CallId)
    requires CallsOk(w) && TablesOk(w) && OnlyCall(w, w', c) && SameTables(w, w') && OwnCallOk(w, w', c)
    ensures TablesOk(w')
  {
    forall op | op in w'.locks
      ensures LockOk(w', op)
    {
      assert LockOk(w, op);
    }
    forall op | op in w'.rows
      ensures RowOk(w', op)
    {
      assert RowOk(w, op);
      if w.rows[op].state == SUCCEEDED || w.rows[op].state == FAILED {
        JustifiedGrows(w.ports, w'.ports, op, w.rows[op].outcome.value);
      }
    }
    forall op | op in w'.admitted
      ensures AdmittedOk(w', op)
    {
      assert AdmittedOk(w, op);
    }
    forall op
      ensures LedgerOk(w', op)
    {
      assert LedgerOk(w, op);
    }
  }

  lemma JustifiedGrows(ports: seq<PortFact>, ports': seq<PortFact>, op: OpId, o: Outcome)
    requires Justified(ports, op, o) && ports <= ports'
    ensures Justified(ports', op, o)
  {
    var c :| Answered(c, op, o) in ports || Observed(c, op, o) in ports
        || (o == ABORTED_BEFORE_CALL && Skipped(c, op) in ports);
    assert forall p :: p in ports ==> p in ports';
  }

  lemma QuietInv(row0: F.FenceRow, w: World, w': World, c: CallId)
    requires Inv(row0, w) && F.Inv(row0, w'.db)
    requires OnlyCall(w, w', c) && SameTables(w, w') && OwnCallOk(w, w', c) && PortsOk(w')
    ensures Inv(row0, w')
  {
    OthersUnmoved(w, w', c);
    QuietTables(w, w', c);
    forall t | t in w'.db.txs
      ensures TxOk(w', t)
    {
      if t.call != c {
        assert TxOk(w, t);
      }
    }
  }

  lemma MovesOnly(w: World, w': World, c: CallId, e: F.Event)
    requires F.Enabled(w.db, e) && e.t.call == c && w'.db == F.Apply(w.db, e)
    requires w'.calls.Keys == w.calls.Keys && (forall d :: d in w.calls && d != c ==> w'.calls[d] == w.calls[d])
    requires w.ports <= w'.ports
    ensures OnlyCall(w, w', c)
  {
    forall t: F.TxId | t.call != c
      ensures t in w'.db.txs <==> t in w.db.txs
      ensures t in w.db.txs ==> w'.db.txs[t] == w.db.txs[t]
    {
      FenceFrame(w.db, e, t);
    }
  }

  predicate PastAdmission(pc: Pc) {
    pc != Admitted && pc != Admitting
  }

  // Port facts stay true while the tables stand still and only call c moves on.
  lemma PortsKept(w: World, w': World, c: CallId)
    requires PortsOk(w) && OnlyCall(w, w', c) && SameTables(w, w') && w'.ports == w.ports
    requires c in w.calls ==>
        c in w'.calls
        && (w'.calls[c].pc == w.calls[c].pc || PastAdmission(w'.calls[c].pc) || w.calls[c].pc == Admitting)
    ensures PortsOk(w')
  {
    forall i | 0 <= i < |w'.ports|
      ensures PortOk(w', w'.ports[i])
    {
      assert PortOk(w, w.ports[i]);
    }
  }

  lemma TransferOwners(w: World, f: F.Event)
    requires (forall t :: t in w.db.txs ==> TxOk(w, t)) && Enabled(w, Transfer(f))
    ensures var w' := Apply(w, Transfer(f));
            forall t :: t in w'.db.txs && t.call == f.t.call ==> TxOk(w', t)
  {
    var w' := Apply(w, Transfer(f));
    forall t | t in w'.db.txs && t.call == f.t.call
      ensures TxOk(w', t)
    {
      if t != f.t {
        FenceFrame(w.db, f, t);
        assert TxOk(w, t);
      } else if t in w.db.txs {
        assert TxOk(w, t);
      }
    }
  }

  lemma TransferFirstLeg(w: World, f: F.Event)
    requires (forall t :: t in w.db.txs ==> TxOk(w, t)) && Enabled(w, Transfer(f))
    ensures FirstLegCommitted(w, f.t.call) ==> FirstLegCommitted(Apply(w, Transfer(f)), f.t.call)
  {
    if f.t != F.TxId(f.t.call, 0) {
      FenceFrame(w.db, f, F.TxId(f.t.call, 0));
    }
  }

  lemma TransferInv(row0: F.FenceRow, w: World, f: F.Event)
    requires Inv(row0, w) && Enabled(w, Transfer(f))
    ensures Inv(row0, Apply(w, Transfer(f)))
  {
    var w' := Apply(w, Transfer(f));
    F.StepInv(row0, w.db, f);
    MovesOnly(w, w', f.t.call, f);
    PortsKept(w, w', f.t.call);
    TransferOwners(w, f);
    TransferFirstLeg(w, f);
    QuietInv(row0, w, w', f.t.call);
  }

  // ----- steps that touch no table, seen from their own call -----

  ghost predicate CallOk(w: World, c: CallId) {
    && c in w.calls
    && LegsOk(w, c) && StagingOk(w, c) && PcOk(w, c)
    && (forall t :: t in w.db.txs && t.call == c ==> TxOk(w, t))
  }

  lemma OpenOwn(w: World, c: CallId)
    requires CallOk(w, c) && Enabled(w, Open(c))
    ensures OwnCallOk(w, Apply(w, Open(c)), c)
  {
  }

  lemma EnterOwn(w: World, c: CallId)
    requires CallOk(w, c) && Enabled(w, Enter(c))
    ensures OwnCallOk(w, Apply(w, Enter(c)), c)
  {
  }

  lemma TurnedOwn(w: World, c: CallId)
    requires CallOk(w, c) && Enabled(w, Turned(c))
    ensures OwnCallOk(w, Apply(w, Turned(c)), c)
  {
  }

  lemma FinishOwn(w: World, c: CallId)
    requires CallOk(w, c) && Enabled(w, Finish(c))
    ensures OwnCallOk(w, Apply(w, Finish(c)), c)
  {
  }

  lemma IssueOwn(w: World, c: CallId)
    requires CallOk(w, c) && Enabled(w, Issue(c))
    ensures OwnCallOk(w, Apply(w, Issue(c)), c)
  {
  }

  lemma AckOwn(w: World, c: CallId)
    requires CallOk(w, c) && Enabled(w, Ack(c))
    ensures OwnCallOk(w, Apply(w, Ack(c)), c)
  {
  }

  lemma ThrowOwn(w: World, c: CallId, r: F.Report)
    requires CallOk(w, c) && Enabled(w, Throw(c, r))
    ensures OwnCallOk(w, Apply(w, Throw(c, r)), c)
  {
  }

  lemma CrashOwn(w: World, c: CallId)
    requires Enabled(w, Crash(c)) && CallOk(w, c)
    ensures OwnCallOk(w, Apply(w, Crash(c)), c)
  {
  }

  lemma StageOwn(w: World, e: Event)
    requires Enabled(w, e) && (e.Miss? || e.Skip?) && CallOk(w, e.c)
    ensures OwnCallOk(w, Apply(w, e), e.c)
  {
  }

  lemma ReadOwn(w: World, c: CallId)
    requires Enabled(w, Read(c)) && CallOk(w, c)
    ensures OwnCallOk(w, Apply(w, Read(c)), c)
  {
  }

  lemma LocalOwn(w: World, e: Event)
    requires Enabled(w, e) && (e.Miss? || e.Read? || e.Skip? || e.Crash?) && CallOk(w, e.c)
    ensures OwnCallOk(w, Apply(w, e), e.c)
  {
    if e.Crash? {
      CrashOwn(w, e.c);
    } else if e.Read? {
      ReadOwn(w, e.c);
    } else {
      StageOwn(w, e);
    }
  }

  lemma StartOwn(w: World, c: CallId, op: OpId, a: F.Authority, goal: Goal)
    requires Enabled(w, Start(c, op, a, goal)) && c !in w.activities
    ensures OwnCallOk(w, Apply(w, Start(c, op, a, goal)), c)
  {
    assert F.TxId(c, 0).call == c && F.TxId(c, 1).call == c;
  }

  // ----- the ports -----

  lemma CallPortOwn(w: World, c: CallId)
    requires CallOk(w, c) && Enabled(w, CallPort(c))
    ensures OwnCallOk(w, Apply(w, CallPort(c)), c)
  {
  }

  lemma AbortCallOwn(w: World, c: CallId)
    requires CallOk(w, c) && Enabled(w, AbortCall(c))
    ensures OwnCallOk(w, Apply(w, AbortCall(c)), c)
  {
    assert Apply(w, AbortCall(c)).ports[|w.ports|] == Skipped(c, w.calls[c].op);
  }

  lemma AnswerOwn(w: World, c: CallId, raw: Option<RawAnswer>)
    requires CallOk(w, c) && Enabled(w, AnswerPort(c, raw))
    ensures OwnCallOk(w, Apply(w, AnswerPort(c, raw)), c)
  {
    var o := if raw == None then Some(UNDETERMINED) else NormalizeDispatch(raw.value);
    if o.Some? {
      assert Apply(w, AnswerPort(c, raw)).ports[|w.ports|] == Answered(c, w.calls[c].op, o.value);
    }
  }

  lemma SilentOwn(w: World, c: CallId, raw: Option<RawAnswer>)
    requires CallOk(w, c) && Enabled(w, ObservePort(c, raw))
    requires raw == None || NormalizeReconciliation(raw.value) == None
    ensures OwnCallOk(w, Apply(w, ObservePort(c, raw)), c)
  {
  }

  lemma ObserveOwn(w: World, c: CallId, raw: Option<RawAnswer>)
    requires CallOk(w, c) && Enabled(w, ObservePort(c, raw))
    ensures OwnCallOk(w, Apply(w, ObservePort(c, raw)), c)
  {
    if raw == None || NormalizeReconciliation(raw.value) == None {
      SilentOwn(w, c, raw);
    } else {
      var o := NormalizeReconciliation(raw.value).value;
      assert Apply(w, ObservePort(c, raw)).ports[|w.ports|] == Observed(c, w.calls[c].op, o);
    }
  }

  // A new port fact about an admitted call keeps the history in order.
  lemma PortsGrow(w: World, w': World, c: CallId, p: PortFact)
    requires PortsOk(w) && OnlyCall(w, w', c) && SameTables(w, w') && w'.ports == w.ports + [p]
    requires c in w.calls && c in w'.calls && PastAdmission(w'.calls[c].pc)
    requires PortOk(w', p) && p.call == c
    requires p.Skipped? ==> Called(c, p.op) !in w.ports
    requires p.Called? ==> forall i :: 0 <= i < |w.ports| && w.ports[i].Called? ==> w.ports[i].op != p.op
    ensures PortsOk(w')
  {
    forall i | 0 <= i < |w'.ports|
      ensures PortOk(w', w'.ports[i])
    {
      if i < |w.ports| {
        assert PortOk(w, w.ports[i]);
        assert w.ports[i] in w'.ports;
      }
    }
  }

  // Before its own port step, an admitted call has neither called nor skipped, and nobody else has.
  lemma NoEarlierCall(w: World, c: CallId)
    requires PortsOk(w) && CallOk(w, c) && w.calls[c].pc == Admitted
    ensures forall i :: 0 <= i < |w.ports| && (w.ports[i].Called? || w.ports[i].Skipped?) ==>
        w.ports[i].op != w.calls[c].op
  {
    forall i | 0 <= i < |w.ports| && (w.ports[i].Called? || w.ports[i].Skipped?)
      ensures w.ports[i].op != w.calls[c].op
    {
      assert PortOk(w, w.ports[i]);
    }
  }

  lemma CallPortPorts(w: World, c: CallId)
    requires PortsOk(w) && CallOk(w, c) && Enabled(w, CallPort(c))
    ensures PortsOk(Apply(w, CallPort(c)))
  {
    var w' := Apply(w, CallPort(c));
    NoEarlierCall(w, c);
    assert Skipped(c, w.calls[c].op) !in w'.ports;
    PortsGrow(w, w', c, Called(c, w.calls[c].op));
  }

  lemma AbortCallPorts(w: World, c: CallId)
    requires PortsOk(w) && CallOk(w, c) && Enabled(w, AbortCall(c))
    ensures PortsOk(Apply(w, AbortCall(c)))
  {
    NoEarlierCall(w, c);
    PortsGrow(w, Apply(w, AbortCall(c)), c, Skipped(c, w.calls[c].op));
  }

  lemma AnswerPorts(w: World, c: CallId, raw: Option<RawAnswer>)
    requires PortsOk(w) && CallOk(w, c) && Enabled(w, AnswerPort(c, raw))
    ensures PortsOk(Apply(w, AnswerPort(c, raw)))
  {
    var w' := Apply(w, AnswerPort(c, raw));
    var o := if raw == None then Some(UNDETERMINED) else NormalizeDispatch(raw.value);
    if o == None {
      PortsKept(w, w', c);
    } else {
      assert Called(c, w.calls[c].op) in w'.ports;
      PortsGrow(w, w', c, Answered(c, w.calls[c].op, o.value));
    }
  }

  lemma ObservePorts(w: World, c: CallId, raw: Option<RawAnswer>)
    requires PortsOk(w) && CallOk(w, c) && Enabled(w, ObservePort(c, raw))
    ensures PortsOk(Apply(w, ObservePort(c, raw)))
  {
    var w' := Apply(w, ObservePort(c, raw));
    var o := if raw == None then None else NormalizeReconciliation(raw.value);
    if o == None {
      PortsKept(w, w', c);
    } else {
      PortsGrow(w, w', c, Observed(c, w.calls[c].op, o.value));
    }
  }

  // ----- every step that touches no table -----

  predicate Quiet(e: Event) {
    !e.Update? && !e.Commit? && !e.Abort?
  }

  lemma FencedOwn(w: World, e: Event)
    requires Enabled(w, e) && (e.Open? || e.Enter? || e.Turned? || e.Finish? || e.Issue? || e.Ack? || e.Throw?)
        && CallOk(w, e.c)
    ensures OwnCallOk(w, Apply(w, e), e.c)
  {
    if e.Open? {
      OpenOwn(w, e.c);
    } else if e.Enter? {
      EnterOwn(w, e.c);
    } else if e.Turned? {
      TurnedOwn(w, e.c);
    } else if e.Finish? {
      FinishOwn(w, e.c);
    } else if e.Issue? {
      IssueOwn(w, e.c);
    } else if e.Ack? {
      AckOwn(w, e.c);
    } else {
      ThrowOwn(w, e.c, e.report);
    }
  }

  lemma PortOwn(w: World, e: Event)
    requires Enabled(w, e) && (e.CallPort? || e.AbortCall? || e.AnswerPort? || e.ObservePort?) && CallOk(w, e.c)
    ensures OwnCallOk(w, Apply(w, e), e.c)
  {
    if e.CallPort? {
      CallPortOwn(w, e.c);
    } else if e.AbortCall? {
      AbortCallOwn(w, e.c);
    } else if e.AnswerPort? {
      AnswerOwn(w, e.c, e.raw);
    } else {
      ObserveOwn(w, e.c, e.raw);
    }
  }

  lemma QuietOwn(row0: F.FenceRow, w: World, e: Event)
    requires Inv(row0, w) && Enabled(w, e) && Quiet(e) && !e.Transfer?
    ensures OwnCallOk(w, Apply(w, e), e.c)
  {
    if e.Start? {
      StartOwn(w, e.c, e.op, e.authority, e.goal);
    } else {
      CallIsOk(row0, w, e.c);
      if e.Open? || e.Enter? || e.Turned? || e.Finish? || e.Issue? || e.Ack? || e.Throw? {
        FencedOwn(w, e);
      } else if e.CallPort? || e.AbortCall? || e.AnswerPort? || e.ObservePort? {
        PortOwn(w, e);
      } else {
        LocalOwn(w, e);
      }
    }
  }

  // The step of the fenced database that a call's step contains.
  function FenceStep(w: World, e: Event): Option<F.Event> {
    match e
    case Transfer(f) => Some(f)
    case Open(c) => if c in w.calls then Some(F.Begin(Tx(w, c), F.Mutate, w.calls[c].authority)) else None
    case Enter(c) => if c in w.calls then Some(F.Lock(Tx(w, c))) else None
    case Turned(c) => if c in w.calls then Some(F.Reject(Tx(w, c))) else None
    case Finish(c) => if c in w.calls then Some(F.Finish(Tx(w, c))) else None
    case Issue(c) => if c in w.calls then Some(F.Issue(Tx(w, c))) else None
    case Commit(c) => if c in w.calls then Some(F.Commit(Tx(w, c))) else None
    case Abort(c) => if c in w.calls then Some(F.Abort(Tx(w, c))) else None
    case Ack(c) => if c in w.calls then Some(F.Settle(Tx(w, c), F.Returned)) else None
    case Throw(c, r) => if c in w.calls then Some(F.Settle(Tx(w, c), r)) else None
    case _ => None
  }

  /** Every step of the service is at most one step of the fenced database: the fence's safety carries over. */
  lemma StepsRefineTheFence(w: World, e: Event)
    requires Enabled(w, e)
    ensures match FenceStep(w, e)
            case None => Apply(w, e).db == w.db
            case Some(f) => F.Enabled(w.db, f) && Apply(w, e).db == F.Apply(w.db, f)
  {
  }

  lemma QuietSameTables(w: World, e: Event)
    requires Enabled(w, e) && Quiet(e) && !e.Transfer?
    ensures SameTables(w, Apply(w, e))
  {
  }

  lemma SilentOnly(w: World, e: Event)
    requires Enabled(w, e) && Quiet(e) && !e.Transfer? && FenceStep(w, e) == None
    ensures OnlyCall(w, Apply(w, e), e.c)
  {
  }

  lemma QuietOnly(w: World, e: Event)
    requires Enabled(w, e) && Quiet(e) && !e.Transfer?
    ensures OnlyCall(w, Apply(w, e), e.c) && SameTables(w, Apply(w, e))
  {
    QuietSameTables(w, e);
    if FenceStep(w, e).Some? {
      MovesOnly(w, Apply(w, e), e.c, FenceStep(w, e).value);
    } else {
      SilentOnly(w, e);
    }
  }

  lemma CallIsOk(row0: F.FenceRow, w: World, c: CallId)
    requires Inv(row0, w) && c in w.calls
    ensures CallOk(w, c)
  {
    assert LegsOk(w, c) && StagingOk(w, c) && PcOk(w, c);
  }

  predicate PortStep(e: Event) {
    e.CallPort? || e.AbortCall? || e.AnswerPort? || e.ObservePort?
  }

  lemma SilentPcs(w: World, e: Event)
    requires Enabled(w, e) && Quiet(e) && !e.Transfer? && !PortStep(e)
    ensures var w' := Apply(w, e);
            && w'.ports == w.ports && e.c in w'.calls
            && (e.c in w.calls ==>
                w'.calls[e.c].pc == w.calls[e.c].pc || PastAdmission(w'.calls[e.c].pc) || w.calls[e.c].pc == Admitting)
  {
  }

  lemma SilentPorts(w: World, e: Event)
    requires PortsOk(w) && Enabled(w, e) && Quiet(e) && !e.Transfer? && !PortStep(e)
    ensures PortsOk(Apply(w, e))
  {
    SilentPcs(w, e);
    QuietOnly(w, e);
    PortsKept(w, Apply(w, e), e.c);
  }

  lemma QuietPorts(w: World, e: Event)
    requires PortsOk(w) && Enabled(w, e) && Quiet(e) && !e.Transfer? && (e.Start? || CallOk(w, e.c))
    ensures PortsOk(Apply(w, e))
  {
    if e.CallPort? {
      CallPortPorts(w, e.c);
    } else if e.AbortCall? {
      AbortCallPorts(w, e.c);
    } else if e.AnswerPort? {
      AnswerPorts(w, e.c, e.raw);
    } else if e.ObservePort? {
      ObservePorts(w, e.c, e.raw);
    } else {
      SilentPorts(w, e);
    }
  }

  lemma QuietStepInv(row0: F.FenceRow, w: World, e: Event)
    requires Inv(row0, w) && Enabled(w, e) && Quiet(e) && !e.Transfer?
    ensures Inv(row0, Apply(w, e))
  {
    StepsRefineTheFence(w, e);
    if FenceStep(w, e).Some? {
      F.StepInv(row0, w.db, FenceStep(w, e).value);
    }
    QuietOnly(w, e);
    QuietOwn(row0, w, e);
    if !e.Start? {
      CallIsOk(row0, w, e.c);
    }
    QuietPorts(w, e);
    QuietInv(row0, w, Apply(w, e), e.c);
  }

  // ----- the steps that touch the tables -----

  // Table steps add no port fact and move no call past or before its admission.
  lemma PortsStand(w: World, w': World)
    requires PortsOk(w) && w'.ports == w.ports && w'.calls.Keys == w.calls.Keys
    requires forall op :: op in w.admitted ==> op in w'.admitted && w'.admitted[op] == w.admitted[op]
    requires forall c :: c in w.calls ==> w'.calls[c].pc == w.calls[c].pc
    ensures PortsOk(w')
  {
    forall i | 0 <= i < |w'.ports|
      ensures PortOk(w', w'.ports[i])
    {
      assert PortOk(w, w.ports[i]);
    }
  }

  // The owners of transactions do not change.
  lemma OwnersStand(w: World, w': World)
    requires forall t :: t in w.db.txs ==> TxOk(w, t)
    requires w'.calls.Keys == w.calls.Keys && w'.db.txs.Keys == w.db.txs.Keys
    requires forall c :: c in w.calls ==>
        w'.calls[c].leg == w.calls[c].leg && w'.calls[c].authority == w.calls[c].authority
    requires forall t :: t in w.db.txs ==>
        w'.db.txs[t].kind == w.db.txs[t].kind && w'.db.txs[t].authority == w.db.txs[t].authority
    ensures forall t :: t in w'.db.txs ==> TxOk(w', t)
  {
    forall t | t in w'.db.txs
      ensures TxOk(w', t)
    {
      assert TxOk(w, t);
    }
  }

  lemma TableStepPorts(w: World, e: Event)
    requires PortsOk(w) && Enabled(w, e) && (e.Update? || e.Abort?)
    ensures PortsOk(Apply(w, e))
  {
    PortsStand(w, Apply(w, e));
  }

  lemma TableStepOwners(w: World, e: Event)
    requires (forall t :: t in w.db.txs ==> TxOk(w, t)) && Enabled(w, e) && (e.Update? || e.Abort?)
    ensures forall t :: t in Apply(w, e).db.txs ==> TxOk(Apply(w, e), t)
  {
    OwnersStand(w, Apply(w, e));
  }

  // A step that leaves the rows, the records and the port facts alone, and keeps what they say of calls.
  ghost predicate RecordsUntouched(w: World, w': World) {
    && w'.rows == w.rows && w'.admitted == w.admitted && w'.recovered == w.recovered
    && w'.evidence == w.evidence && w'.activities == w.activities && w'.ports == w.ports
    && w'.calls.Keys == w.calls.Keys
    && (forall c :: c in w.calls ==>
        w'.calls[c].op == w.calls[c].op && w'.calls[c].authority == w.calls[c].authority)
    && (forall t :: t in w.db.txs && w.db.txs[t].phase == F.Committed ==>
        t in w'.db.txs && w'.db.txs[t].phase == F.Committed)
  }

  lemma RowStands(w: World, w': World, op: OpId)
    requires RecordsUntouched(w, w') && op in w.rows && RowOk(w, op)
    ensures RowOk(w', op)
  {
  }

  lemma AdmittedStands(w: World, w': World, op: OpId)
    requires RecordsUntouched(w, w') && op in w.admitted && AdmittedOk(w, op)
    ensures AdmittedOk(w', op)
  {
  }

  lemma LedgerStands(w: World, w': World, op: OpId)
    requires RecordsUntouched(w, w') && LedgerOk(w, op)
    ensures LedgerOk(w', op)
  {
  }

  lemma TablesStand(w: World, w': World)
    requires TablesOk(w) && RecordsUntouched(w, w') && forall op :: op in w'.locks ==> LockOk(w', op)
    ensures TablesOk(w')
  {
    forall op | op in w'.rows
      ensures RowOk(w', op)
    {
      RowStands(w, w', op);
    }
    forall op | op in w'.admitted
      ensures AdmittedOk(w', op)
    {
      AdmittedStands(w, w', op);
    }
    forall op
      ensures LedgerOk(w', op)
    {
      LedgerStands(w, w', op);
    }
  }

  lemma UpdateInv(row0: F.FenceRow, w: World, c: CallId)
    requires Inv(row0, w) && Enabled(w, Update(c))
    ensures Inv(row0, Apply(w, Update(c)))
  {
    UpdateCalls(w, c);
    UpdateTables(w, c);
    TableStepPorts(w, Update(c));
    TableStepOwners(w, Update(c));
  }

  lemma UpdateCall(w: World, c: CallId, d: CallId)
    requires Enabled(w, Update(c)) && d in w.calls && LegsOk(w, d) && StagingOk(w, d) && PcOk(w, d)
    ensures var w' := Apply(w, Update(c)); LegsOk(w', d) && StagingOk(w', d) && PcOk(w', d)
  {
    assert Holding(Apply(w, Update(c)), d) == Holding(w, d);
  }

  lemma UpdateCalls(w: World, c: CallId)
    requires CallsOk(w) && Enabled(w, Update(c))
    ensures CallsOk(Apply(w, Update(c)))
  {
    var w' := Apply(w, Update(c));
    forall d | d in w'.calls
      ensures LegsOk(w', d) && StagingOk(w', d) && PcOk(w', d)
    {
      UpdateCall(w, c, d);
    }
  }

  lemma UpdateRecords(w: World, c: CallId)
    requires Enabled(w, Update(c))
    ensures RecordsUntouched(w, Apply(w, Update(c)))
  {
  }

  lemma UpdateOwnLock(w: World, c: CallId)
    requires Enabled(w, Update(c))
    ensures LockOk(Apply(w, Update(c)), w.calls[c].op)
  {
  }

  // The holder of another lock is another call: c has staged nothing yet.
  lemma UpdateOtherLock(w: World, c: CallId, op: OpId)
    requires Enabled(w, Update(c)) && op in w.locks && LockOk(w, op)
    ensures LockOk(Apply(w, Update(c)), op)
  {
    assert w.locks[op] != c && op != w.calls[c].op;
    assert Holding(Apply(w, Update(c)), w.locks[op]) == Holding(w, w.locks[op]);
  }

  lemma UpdateTables(w: World, c: CallId)
    requires TablesOk(w) && Enabled(w, Update(c))
    ensures TablesOk(Apply(w, Update(c)))
  {
    var w' := Apply(w, Update(c));
    forall op | op in w'.locks
      ensures LockOk(w', op)
    {
      if op == w.calls[c].op {
        UpdateOwnLock(w, c);
      } else {
        UpdateOtherLock(w, c, op);
      }
    }
    UpdateRecords(w, c);
    TablesStand(w, w');
  }

  lemma AbortInv(row0: F.FenceRow, w: World, c: CallId)
    requires Inv(row0, w) && Enabled(w, Abort(c))
    ensures Inv(row0, Apply(w, Abort(c)))
  {
    F.StepInv(row0, w.db, F.Abort(Tx(w, c)));
    AbortCalls(w, c);
    AbortTables(w, c);
    TableStepPorts(w, Abort(c));
    TableStepOwners(w, Abort(c));
  }

  lemma AbortedOwnCall(w: World, c: CallId)
    requires Enabled(w, Abort(c)) && LegsOk(w, c) && StagingOk(w, c) && PcOk(w, c)
    ensures var w' := Apply(w, Abort(c)); LegsOk(w', c) && StagingOk(w', c) && PcOk(w', c)
  {
  }

  lemma AbortedOtherCall(w: World, c: CallId, d: CallId)
    requires Enabled(w, Abort(c)) && d in w.calls && d != c && LegsOk(w, d) && StagingOk(w, d) && PcOk(w, d)
    ensures var w' := Apply(w, Abort(c)); LegsOk(w', d) && StagingOk(w', d) && PcOk(w', d)
  {
    assert Holding(Apply(w, Abort(c)), d) == Holding(w, d);
  }

  lemma AbortCalls(w: World, c: CallId)
    requires CallsOk(w) && Enabled(w, Abort(c))
    ensures CallsOk(Apply(w, Abort(c)))
  {
    var w' := Apply(w, Abort(c));
    forall d | d in w'.calls
      ensures LegsOk(w', d) && StagingOk(w', d) && PcOk(w', d)
    {
      if d == c {
        AbortedOwnCall(w, c);
      } else {
        AbortedOtherCall(w, c, d);
      }
    }
  }

  // A lock that survives the end of c's transaction belongs to another call.
  lemma LocksOfOthers(w: World, w': World, c: CallId, op: OpId)
    requires c in w.calls && op in Released(w, c) && LockOk(w, op)
    requires w'.locks == Released(w, c) && OthersSame(w, w', c)
    requires w.locks[op] != c ==> (op in w'.rows <==> op in w.rows) && (op in w.rows ==> w'.rows[op] == w.rows[op])
    ensures LockOk(w', op)
  {
    assert w.locks[op] != c;
  }

  ghost predicate OthersSame(w: World, w': World, c: CallId) {
    && (forall d :: d in w.calls && d != c ==> d in w'.calls && w'.calls[d] == w.calls[d])
    && (forall t :: t in w.db.txs && t.call != c ==> t in w'.db.txs && w'.db.txs[t] == w.db.txs[t])
  }

  lemma AbortTables(w: World, c: CallId)
    requires CallsOk(w) && TablesOk(w) && Enabled(w, Abort(c))
    ensures TablesOk(Apply(w, Abort(c)))
  {
    var w' := Apply(w, Abort(c));
    forall op | op in w'.locks
      ensures LockOk(w', op)
    {
      AbortLock(w, c, op);
    }
    AbortRecords(w, c);
    TablesStand(w, w');
  }

  lemma AbortLock(w: World, c: CallId, op: OpId)
    requires Enabled(w, Abort(c)) && op in Apply(w, Abort(c)).locks && LockOk(w, op)
    ensures LockOk(Apply(w, Abort(c)), op)
  {
    var w' := Apply(w, Abort(c));
    forall t: F.TxId | t != Tx(w, c)
      ensures t in w'.db.txs <==> t in w.db.txs
      ensures t in w.db.txs ==> w'.db.txs[t] == w.db.txs[t]
    {
      FenceFrame(w.db, F.Abort(Tx(w, c)), t);
    }
    LocksOfOthers(w, w', c, op);
  }

  lemma AbortRecords(w: World, c: CallId)
    requires Enabled(w, Abort(c))
    ensures RecordsUntouched(w, Apply(w, Abort(c)))
  {
  }
}
