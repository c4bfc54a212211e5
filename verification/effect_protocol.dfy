/**
 * All concurrent callers of the EffectOperation service, of any number of Hosts, over the
 * Host-fenced database. Every mutation transaction of a call is a Mutate transaction of
 * HostFence; a statement holds its row lock to the end of the transaction, as in PostgreSQL.
 * A step is one piece between two awaits of one call or one server step. Calls may crash at
 * any step, and the server may still commit what a dead call had issued.
 */
module EffectProtocol {
  import opened Options
  import opened EffectOperations
  import F = HostFence

  type CallId = nat

  datatype EvidenceKind = PreparedKind | StartedKind | OutcomeKind | ReconciledKind

  datatype Evidence = Evidence(kind: EvidenceKind, op: OpId, call: CallId)

  // What happened at the external ports, in order.
  datatype PortFact =
    | Called(call: CallId, op: OpId)
    | Answered(call: CallId, op: OpId, outcome: Outcome)
    | Observed(call: CallId, op: OpId, outcome: Outcome)
    | Skipped(call: CallId, op: OpId)

  datatype Goal = Prepare(draft: Draft) | Dispatch(kind: EffectKind) | Recover | Reconcile(kind: EffectKind,
      supported: bool)

  // Where a call stands; the transaction phases are kept by the fence.
  datatype Pc =
    | Preparing(draft: Draft)
    | Admitting
    | Admitted
    | Calling
    | Completing(outcome: Outcome)
    | Recovering
    | Observing
    | Refining(refinement: Option<Outcome>)
    | Ended

  datatype Write = Write(cas: Cas, row: Operation)

  // The uncommitted work of the current transaction.
  datatype Staging = Nothing | Missed | Staged(write: Option<Write>, evidence: Option<Evidence>, retain: bool)

  datatype Call = Call(op: OpId, authority: F.Authority, leg: nat, pc: Pc, staging: Staging)

  // admitted and recovered record committed admissions and recoveries; activities are the retained Activity rows.
  datatype World = World(
    db: F.Db, rows: map<OpId, Operation>, locks: map<OpId, CallId>, calls: map<CallId, Call>,
    activities: set<CallId>, evidence: seq<Evidence>, ports: seq<PortFact>,
    admitted: map<OpId, CallId>, recovered: set<OpId>)

  datatype Event =
    | Transfer(e: F.Event)
    | Start(c: CallId, op: OpId, authority: F.Authority, goal: Goal)
    | Open(c: CallId)
    | Enter(c: CallId)
    | Turned(c: CallId)
    | Update(c: CallId)
    | Miss(c: CallId)
    | Read(c: CallId)
    | Skip(c: CallId)
    | Finish(c: CallId)
    | Issue(c: CallId)
    | Commit(c: CallId)
    | Abort(c: CallId)
    | Ack(c: CallId)
    | Throw(c: CallId, report: F.Report)
    | Crash(c: CallId)
    | CallPort(c: CallId)
    | AbortCall(c: CallId)
    | AnswerPort(c: CallId, raw: Option<RawAnswer>)
    | ObservePort(c: CallId, raw: Option<RawAnswer>)

  function Init(row: F.FenceRow): World {
    World(F.Init(row), map[], map[], map[], {}, [], [], map[], {})
  }

  function CasOf(k: Call): Option<Cas> {
    match k.pc
    case Preparing(d) => Some(InsertPrepared(d))
    case Admitting => Some(BeginDispatch(k.authority.token))
    case Completing(o) => Some(CompleteDispatch(k.authority.token, o))
    case Recovering => Some(RecoverDispatch(UNDETERMINED))
    case Refining(Some(o)) => if o.Unknown? then None else Some(RefineUncertain(o))
    case _ => None
  }

  function EvidenceOf(c: CallId, op: OpId, cas: Cas): Evidence {
    match cas
    case InsertPrepared(_) => Evidence(PreparedKind, op, c)
    case BeginDispatch(_) => Evidence(StartedKind, op, c)
    case CompleteDispatch(_, _) => Evidence(OutcomeKind, op, c)
    case RecoverDispatch(_) => Evidence(OutcomeKind, op, c)
    case RefineUncertain(_) => Evidence(ReconciledKind, op, c)
  }

  // The call's decision on the row it reads first.
  function FirstPc(rows: map<OpId, Operation>, op: OpId, goal: Goal): Pc {
    match goal
    case Prepare(d) => Preparing(d)
    case Dispatch(kind) => if op in rows && rows[op].kind == kind && rows[op].state == PREPARED then Admitting
        else Ended
    case Recover => if op in rows && rows[op].state == DISPATCHING then Recovering else Ended
    case Reconcile(kind, supported) =>
      if op in rows && rows[op].kind == kind && rows[op].state == UNCERTAIN && supported then Observing else Ended
  }

  // What a call stages after a statement that affected no row and a read that did not throw.
  function Unchanged(c: CallId, op: OpId, cas: Cas): Staging {
    match cas
    case InsertPrepared(_) => Staged(None, Some(Evidence(PreparedKind, op, c)), true)
    case BeginDispatch(_) => Staged(None, None, false)
    case CompleteDispatch(_, _) => Staged(None, None, false)
    case RecoverDispatch(_) => Staged(None, None, true)
    case RefineUncertain(_) => Staged(None, Some(Evidence(ReconciledKind, op, c)), true)
  }

  function Tx(w: World, c: CallId): F.TxId
    requires c in w.calls
  {
    F.TxId(c, w.calls[c].leg)
  }

  predicate In(w: World, c: CallId, p: F.Phase) {
    c in w.calls && F.Working(w.db, Tx(w, c), p)
  }

  predicate At(w: World, c: CallId, e: F.Event) {
    c in w.calls && w.calls[c].pc != Ended && F.Enabled(w.db, e)
  }

  predicate InTransaction(pc: Pc) {
    pc.Preparing? || pc.Admitting? || pc.Completing? || pc.Recovering? || pc.Refining?
  }

  predicate TransferStep(w: World, e: F.Event) {
    && F.Enabled(w.db, e)
    && e.t.call !in w.calls
    && (e.Begin? ==> e.kind != F.Mutate)
  }

  predicate Enabled(w: World, e: Event) {
    match e
    case Transfer(f) => TransferStep(w, f)
    case Start(c, _, _, _) => c !in w.calls && forall t :: t in w.db.txs ==> t.call != c
    case Open(c) => c in w.calls && At(w, c, F.Begin(Tx(w, c), F.Mutate, w.calls[c].authority))
        && InTransaction(w.calls[c].pc)
    case Enter(c) => c in w.calls && At(w, c, F.Lock(Tx(w, c)))
    case Turned(c) => c in w.calls && At(w, c, F.Reject(Tx(w, c)))
    case Update(c) =>
      && In(w, c, F.Locked) && w.calls[c].pc != Ended && w.calls[c].staging == Nothing && CasOf(w.calls[c]).Some?
      && w.calls[c].op !in w.locks && Matches(w.rows, w.calls[c].op, CasOf(w.calls[c]).value)
    case Miss(c) =>
      && In(w, c, F.Locked) && w.calls[c].pc != Ended && w.calls[c].staging == Nothing && CasOf(w.calls[c]).Some?
      && !Matches(w.rows, w.calls[c].op, CasOf(w.calls[c]).value)
    case Read(c) => In(w, c, F.Locked) && w.calls[c].pc != Ended && w.calls[c].staging == Missed
        && CasOf(w.calls[c]).Some?
    case Skip(c) =>
      && In(w, c, F.Locked) && w.calls[c].pc.Refining? && w.calls[c].staging == Nothing && w.calls[c].op in w.rows
      && (w.calls[c].pc.refinement == None || w.rows[w.calls[c].op].state != UNCERTAIN)
    case Finish(c) => c in w.calls && At(w, c, F.Finish(Tx(w, c))) && w.calls[c].staging.Staged?
    case Issue(c) => c in w.calls && At(w, c, F.Issue(Tx(w, c)))
    case Commit(c) => c in w.calls && F.Enabled(w.db, F.Commit(Tx(w, c)))
    case Abort(c) => c in w.calls && F.Enabled(w.db, F.Abort(Tx(w, c)))
    case Ack(c) => c in w.calls && At(w, c, F.Settle(Tx(w, c), F.Returned))
    case Throw(c, r) => c in w.calls && At(w, c, F.Settle(Tx(w, c), r))
        && (r == F.NotCommitted || r == F.CommitUncertain)
    case Crash(c) => c in w.calls
    case CallPort(c) => c in w.calls && w.calls[c].pc == Admitted
    case AbortCall(c) => c in w.calls && w.calls[c].pc == Admitted
    case AnswerPort(c, _) => c in w.calls && w.calls[c].pc == Calling
    case ObservePort(c, _) => c in w.calls && w.calls[c].pc == Observing
  }

  function WithCall(w: World, c: CallId, k: Call): World {
    w.(calls := w.calls[c := k])
  }

  function Released(w: World, c: CallId): map<OpId, CallId>
    requires c in w.calls
  {
    if w.calls[c].op in w.locks && w.locks[w.calls[c].op] == c then w.locks - {w.calls[c].op} else w.locks
  }

  function Acked(k: Call): Call {
    if k.pc == Admitting && k.staging.Staged? && k.staging.write.Some? then k.(pc := Admitted) else k.(pc := Ended)
  }

  // What the server makes durable and visible when the transaction commits.
  function Durable(w: World, c: CallId): World
    requires c in w.calls
  {
    var k := w.calls[c];
    var w1 := w.(locks := Released(w, c));
    if !k.staging.Staged? then w1 else
    var w2 := w1.(activities := if k.staging.retain then w.activities + {c} else w.activities,
                  evidence := if k.staging.evidence.Some? then w.evidence + [k.staging.evidence.value] else w.evidence);
    if k.staging.write == None then w2 else
    var write := k.staging.write.value;
    w2.(rows := w.rows[k.op := write.row],
        admitted := if write.cas.BeginDispatch? then w.admitted[k.op := c] else w.admitted,
        recovered := if write.cas.RecoverDispatch? then w.recovered + {k.op} else w.recovered)
  }

  function Apply(w: World, e: Event): World
    requires Enabled(w, e)
  {
    match e
    case Transfer(f) => w.(db := F.Apply(w.db, f))
    case Start(c, op, a, goal) => WithCall(w, c, Call(op, a, 0, FirstPc(w.rows, op, goal), Nothing))
    case Open(c) => w.(db := F.Apply(w.db, F.Begin(Tx(w, c), F.Mutate, w.calls[c].authority)))
    case Enter(c) => w.(db := F.Apply(w.db, F.Lock(Tx(w, c))))
    case Turned(c) => WithCall(w, c, w.calls[c].(pc := Ended)).(db := F.Apply(w.db, F.Reject(Tx(w, c))))
    case Update(c) =>
      var k := w.calls[c];
      var cas := CasOf(k).value;
      var staged :=
          Staged(Some(Write(cas, Written(w.rows, k.op, cas))), Some(EvidenceOf(c, k.op, cas)), !cas.CompleteDispatch?);
      WithCall(w, c, k.(staging := staged)).(locks := w.locks[k.op := c])
    case Miss(c) => WithCall(w, c, w.calls[c].(staging := Missed))
    case Read(c) =>
      var k := w.calls[c];
      var found := if k.op in w.rows then Some(w.rows[k.op]) else None;
      if OnMiss(found, CasOf(k).value).Existing? then WithCall(w, c, k.(staging := Unchanged(c, k.op, CasOf(k).value)))
      else WithCall(w, c, k.(pc := Ended, staging := Nothing))
    case Skip(c) =>
        WithCall(w, c, w.calls[c].(staging := Staged(None, Some(Evidence(ReconciledKind, w.calls[c].op, c)), true)))
    case Finish(c) => w.(db := F.Apply(w.db, F.Finish(Tx(w, c))))
    case Issue(c) => w.(db := F.Apply(w.db, F.Issue(Tx(w, c))))
    case Commit(c) => Durable(w, c).(db := F.Apply(w.db, F.Commit(Tx(w, c))))
    case Abort(c) =>
      WithCall(w, c, w.calls[c].(staging := Nothing)).(db := F.Apply(w.db, F.Abort(Tx(w, c))), locks := Released(w, c))
    case Ack(c) => WithCall(w, c, Acked(w.calls[c])).(db := F.Apply(w.db, F.Settle(Tx(w, c), F.Returned)))
    case Throw(c, r) => WithCall(w, c, w.calls[c].(pc := Ended)).(db := F.Apply(w.db, F.Settle(Tx(w, c), r)))
    case Crash(c) => WithCall(w, c, w.calls[c].(pc := Ended))
    case CallPort(c) => WithCall(w, c, w.calls[c].(pc := Calling)).(ports := w.ports + [Called(c, w.calls[c].op)])
    case AbortCall(c) =>
      WithCall(w, c, w.calls[c].(pc := Completing(ABORTED_BEFORE_CALL), leg := 1, staging := Nothing))
      .(ports := w.ports + [Skipped(c, w.calls[c].op)])
    case AnswerPort(c, raw) =>
      var o := if raw == None then Some(UNDETERMINED) else NormalizeDispatch(raw.value);
      if o == None then WithCall(w, c, w.calls[c].(pc := Ended))
      else WithCall(w, c, w.calls[c].(pc := Completing(o.value), leg := 1, staging := Nothing))
           .(ports := w.ports + [Answered(c, w.calls[c].op, o.value)])
    case ObservePort(c, raw) =>
      var o := if raw == None then None else NormalizeReconciliation(raw.value);
      WithCall(w, c, w.calls[c].(pc := Refining(o)))
      .(ports := if o.Some? then w.ports + [Observed(c, w.calls[c].op, o.value)] else w.ports)
  }

  ghost predicate Legal(w: World, es: seq<Event>)
    decreases |es|
  {
    |es| == 0 || (Enabled(w, es[0]) && Legal(Apply(w, es[0]), es[1..]))
  }

  ghost function Run(w: World, es: seq<Event>): World
    requires Legal(w, es)
    decreases |es|
  {
    if |es| == 0 then w else Run(Apply(w, es[0]), es[1..])
  }

  // The records of one kind about one operation.
  function Count(evidence: seq<Evidence>, kind: EvidenceKind, op: OpId): nat {
    if |evidence| == 0 then 0
    else Count(evidence[..|evidence| - 1], kind, op)
         + (if evidence[|evidence| - 1].kind == kind && evidence[|evidence| - 1].op == op then 1 else 0)
  }

  // ----- the invariant, one clause for each kind of thing in the world -----

  // A port fact that justifies the outcome a statement writes.
  predicate Backed(ports: seq<PortFact>, c: CallId, op: OpId, cas: Cas) {
    match cas
    case CompleteDispatch(_, o) => Answered(c, op, o) in ports || (o == ABORTED_BEFORE_CALL && Skipped(c, op) in ports)
    case RefineUncertain(o) => Observed(c, op, o) in ports
    case _ => true
  }

  predicate PhaseIs(w: World, c: CallId, p: F.Phase) {
    c in w.calls && Tx(w, c) in w.db.txs && w.db.txs[Tx(w, c)].phase == p
  }

  predicate Holding(w: World, c: CallId) {
    c in w.calls && Tx(w, c) in w.db.txs && F.Holding(w.db.txs[Tx(w, c)].phase)
  }

  // The transactions a call owns: its current leg, and before a second leg a committed first one.
  ghost predicate LegsOk(w: World, c: CallId)
    requires c in w.calls
  {
    var k := w.calls[c];
    && k.leg <= 1
    && (k.pc.Completing? ==> k.leg == 1)
    && (k.pc != Ended && !k.pc.Completing? ==> k.leg == 0)
    && (k.leg == 1 ==> F.TxId(c, 0) in w.db.txs && w.db.txs[F.TxId(c, 0)].phase == F.Committed)
    && (k.leg == 0 ==> F.TxId(c, 1) !in w.db.txs)
    && (k.staging != Nothing ==> Tx(w, c) in w.db.txs && w.db.txs[Tx(w, c)].phase != F.Began)
    && (Holding(w, c) && !PhaseIs(w, c, F.Locked) ==> k.staging.Staged?)
  }

  ghost predicate StagingOk(w: World, c: CallId)
    requires c in w.calls
  {
    var k := w.calls[c];
    k.staging.Staged? ==>
      && (k.staging.retain ==> k.leg == 0)
      && (k.staging.evidence.Some? ==> k.staging.evidence.value.call == c && (k.staging.retain || k.leg == 1))
      && (k.staging.write == None && k.staging.evidence.Some? ==>
          k.staging.evidence.value.kind in {PreparedKind, ReconciledKind})
      && (k.staging.write.Some? ==>
            var cas := k.staging.write.value.cas;
            && WellTyped(cas)
            && Backed(w.ports, c, k.op, cas)
            && (k.leg == 1 <==> cas.CompleteDispatch?)
            && (cas.BeginDispatch? || cas.CompleteDispatch? ==> cas.token == k.authority.token)
            && k.staging.evidence == Some(EvidenceOf(c, k.op, cas))
            && k.staging.retain == !cas.CompleteDispatch?
            && (k.pc == Admitting ==> cas.BeginDispatch?)
            && (Holding(w, c) ==> k.op in w.locks && w.locks[k.op] == c))
  }

  predicate AdmissionCommitted(w: World, c: CallId) {
    && PhaseIs(w, c, F.Committed)
    && w.calls[c].leg == 0
    && w.calls[c].staging.Staged?
    && w.calls[c].staging.write.Some?
    && w.calls[c].staging.write.value.cas.BeginDispatch?
  }

  // The outcome a call carries has been reported to it, and only an admitted call is past admission.
  ghost predicate PcOk(w: World, c: CallId)
    requires c in w.calls
  {
    var k := w.calls[c];
    && (k.pc.Completing? ==> Backed(w.ports, c, k.op, CompleteDispatch(k.authority.token, k.pc.outcome)))
    && (k.pc.Refining? && k.pc.refinement.Some? ==>
        !k.pc.refinement.value.Unknown? && Observed(c, k.op, k.pc.refinement.value) in w.ports)
    && (k.pc == Admitted || k.pc == Calling ==> AdmissionCommitted(w, c))
    && (k.pc == Calling ==> Called(c, k.op) in w.ports)
    && (AdmissionCommitted(w, c) || k.leg == 1 ==> k.op in w.admitted && w.admitted[k.op] == c)
    && (k.leg == 0 && !PhaseIs(w, c, F.Committed) ==> c !in w.activities)
    && (AdmissionCommitted(w, c) ==>
        (k.op in w.rows && (w.rows[k.op].state == DISPATCHING <==> k.op !in w.recovered)))
  }

  ghost predicate LockOk(w: World, op: OpId)
    requires op in w.locks
  {
    var c := w.locks[op];
    && c in w.calls
    && w.calls[c].op == op
    && Holding(w, c)
    && w.calls[c].staging.Staged?
    && w.calls[c].staging.write.Some?
    && Matches(w.rows, op, w.calls[c].staging.write.value.cas)
    && w.calls[c].staging.write.value.row == Written(w.rows, op, w.calls[c].staging.write.value.cas)
  }

  ghost predicate TxOk(w: World, t: F.TxId)
    requires t in w.db.txs
  {
    if w.db.txs[t].kind == F.Mutate then
      t.call in w.calls && t.leg <= w.calls[t.call].leg && w.db.txs[t].authority == w.calls[t.call].authority
    else t.call !in w.calls
  }

  ghost predicate Justified(ports: seq<PortFact>, op: OpId, o: Outcome) {
    exists c :: Answered(c, op, o) in ports || Observed(c, op, o) in ports
        || (o == ABORTED_BEFORE_CALL && Skipped(c, op) in ports)
  }

  ghost predicate RowOk(w: World, op: OpId)
    requires op in w.rows
  {
    var r := w.rows[op];
    && WellShaped(r)
    && (r.state != PREPARED <==> op in w.admitted)
    && (r.state == SUCCEEDED || r.state == FAILED ==> Justified(w.ports, op, r.outcome.value))
    && (r.state == DISPATCHING ==> op !in w.recovered)
  }

  ghost predicate AdmittedOk(w: World, op: OpId)
    requires op in w.admitted
  {
    var c := w.admitted[op];
    && op in w.rows
    && c in w.calls
    && w.calls[c].op == op
    && c in w.activities
    && w.rows[op].token == Some(w.calls[c].authority.token)
    && F.TxId(c, 0) in w.db.txs && w.db.txs[F.TxId(c, 0)].phase == F.Committed
  }

  ghost predicate PortOk(w: World, p: PortFact) {
    match p
    case Called(c, op) => op in w.admitted && w.admitted[op] == c && c in w.calls && w.calls[c].pc != Admitted
        && w.calls[c].pc != Admitting && Skipped(c, op) !in w.ports
    case Skipped(c, op) => op in w.admitted && w.admitted[op] == c && c in w.calls && w.calls[c].pc != Admitted
        && w.calls[c].pc != Admitting
    case Answered(c, op, _) => Called(c, op) in w.ports
    case Observed(_, _, _) => true
  }

  ghost predicate LedgerOk(w: World, op: OpId) {
    && Count(w.evidence, StartedKind, op) == (if op in w.admitted then 1 else 0)
    && Count(w.evidence, OutcomeKind, op) == (if op in w.rows && Decided(w.rows[op].state) then 1 else 0)
  }

  ghost predicate CallsOk(w: World) {
    forall c :: c in w.calls ==> LegsOk(w, c) && StagingOk(w, c) && PcOk(w, c)
  }

  ghost predicate TablesOk(w: World) {
    && (forall op :: op in w.locks ==> LockOk(w, op))
    && (forall op :: op in w.rows ==> RowOk(w, op))
    && (forall op :: op in w.admitted ==> AdmittedOk(w, op))
    && (forall op :: LedgerOk(w, op))
    && (forall op :: op in w.recovered ==> op in w.admitted)
    && w.activities <= w.calls.Keys
    && (forall i :: 0 <= i < |w.evidence| ==> w.evidence[i].call in w.activities)
  }

  ghost predicate PortsOk(w: World) {
    && (forall i :: 0 <= i < |w.ports| ==> PortOk(w, w.ports[i]))
    && (forall i, j :: 0 <= i < j < |w.ports| && w.ports[i].Called? && w.ports[j].Called? ==>
        w.ports[i].op != w.ports[j].op)
  }

  ghost predicate Inv(row0: F.FenceRow, w: World) {
    && F.Inv(row0, w.db)
    && (forall t :: t in w.db.txs ==> TxOk(w, t))
    && CallsOk(w)
    && TablesOk(w)
    && PortsOk(w)
  }

  lemma InitInv(row0: F.FenceRow)
    ensures Inv(row0, Init(row0))
  {
  }
}
