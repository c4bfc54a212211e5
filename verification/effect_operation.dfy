/**
 * EffectOperation rows: the contract values, the adapter normalizers, and the repository's
 * compare-and-set statements. Lineage references and timestamps are left out of a row.
 */
module EffectOperations {
  import opened Options

  type OpId = nat
  type EffectKind = nat
  type Token = nat
  type Problem = nat
  type Json = nat

  datatype OpState = PREPARED | DISPATCHING | UNCERTAIN | SUCCEEDED | FAILED

  datatype Outcome = Success(receipt: Option<Json>) | Failure(problem: Problem) | Unknown(reason: Option<Problem>)

  datatype Operation = Operation(
    kind: EffectKind, version: nat, request: Json, state: OpState, token: Option<Token>, outcome: Option<Outcome>)

  datatype Draft = Draft(kind: EffectKind, version: nat, request: Json)

  function Status(o: Outcome): OpState {
    match o
    case Success(_) => SUCCEEDED
    case Failure(_) => FAILED
    case Unknown(_) => UNCERTAIN
  }

  // How far a row has come; the two definite outcomes are equally far.
  function Rank(s: OpState): nat {
    match s
    case PREPARED => 0
    case DISPATCHING => 1
    case UNCERTAIN => 2
    case SUCCEEDED => 3
    case FAILED => 3
  }

  predicate Decided(s: OpState) {
    Rank(s) >= 2
  }

  // The shape every stored row has: the table's check constraint and the row parser agree on it.
  predicate WellShaped(r: Operation) {
    match r.state
    case PREPARED => r.token == None && r.outcome == None
    case DISPATCHING => r.token.Some? && r.outcome == None
    case _ => r.token.Some? && r.outcome.Some? && Status(r.outcome.value) == r.state
  }

  // ----- adapter answers -----

  // NotJson is a problem given as a string that JSON.parse rejects; decoding it throws.
  datatype RawProblem = NoProblem | NotJson | Malformed | Parsed(problem: Problem)

  datatype RawReceipt = NoReceipt | NotCanonical | Canonical(receipt: Json)

  datatype RawAnswer = NotARecord | Answer(status: Option<string>, receipt: RawReceipt, problem: RawProblem)

  const UNDETERMINED: Outcome := Unknown(Some(0))
  const ABORTED_BEFORE_CALL: Outcome := Failure(0)

  // The outcome of an adapter answer, or None when normalizing it throws.
  function NormalizeDispatch(raw: RawAnswer): Option<Outcome> {
    if raw.NotARecord? || raw.status == None then Some(UNDETERMINED)
    else if raw.status == Some("SUCCEEDED") then
      match raw.receipt
      case NoReceipt => Some(Success(None))
      case NotCanonical => Some(UNDETERMINED)
      case Canonical(v) => Some(Success(Some(v)))
    else if raw.status == Some("FAILED") then
      match raw.problem
      case NotJson => None
      case Parsed(p) => Some(Failure(p))
      case _ => Some(UNDETERMINED)
    else if raw.status == Some("UNCERTAIN") then
      match raw.problem
      case NotJson => None
      case Parsed(p) => Some(Unknown(Some(p)))
      case _ => Some(Unknown(None))
    else Some(UNDETERMINED)
  }

  // A reconciliation answer refines only to a definite outcome; every throw is caught as UNKNOWN.
  function NormalizeReconciliation(raw: RawAnswer): Option<Outcome> {
    if raw.NotARecord? then None
    else if raw.status == Some("SUCCEEDED") then
      match raw.receipt
      case NoReceipt => Some(Success(None))
      case NotCanonical => None
      case Canonical(v) => Some(Success(Some(v)))
    else if raw.status == Some("FAILED") && raw.problem.Parsed? then Some(Failure(raw.problem.problem))
    else None
  }

  // The answer is positive evidence of the definite outcome o.
  predicate IsEvidence(raw: RawAnswer, o: Outcome) {
    raw.Answer? && match o
                   case Success(None) => raw.status == Some("SUCCEEDED") && raw.receipt == NoReceipt
                   case Success(Some(v)) => raw.status == Some("SUCCEEDED") && raw.receipt == Canonical(v)
                   case Failure(p) => raw.status == Some("FAILED") && raw.problem == Parsed(p)
                   case Unknown(_) => false
  }

  /** A definite outcome needs positive evidence: the exact answers that yield it, for both ports. */
  lemma DefiniteNeedsEvidence(raw: RawAnswer, o: Outcome)
    requires !o.Unknown?
    ensures NormalizeDispatch(raw) == Some(o) <==> IsEvidence(raw, o)
    ensures NormalizeReconciliation(raw) == Some(o) <==> IsEvidence(raw, o)
  {
    assert "SUCCEEDED"[0] != "FAILED"[0] && "SUCCEEDED"[0] != "UNCERTAIN"[0] && "FAILED"[0] != "UNCERTAIN"[0];
  }

  /** An answer that says UNCERTAIN keeps its problem if it has one; a reconciliation never yields an unknown. */
  lemma UnknownsKeepTheirProblem(raw: RawAnswer, o: Outcome)
    requires o.Unknown?
    ensures NormalizeReconciliation(raw) != Some(o)
    ensures NormalizeDispatch(raw) == Some(o) && o != UNDETERMINED ==>
        raw.Answer? && raw.status == Some("UNCERTAIN")
        && (if o.reason.Some? then raw.problem == Parsed(o.reason.value) else !raw.problem.Parsed?)
    ensures raw.Answer? && raw.status == Some("UNCERTAIN") && raw.problem.Parsed? ==>
        NormalizeDispatch(raw) == Some(Unknown(Some(raw.problem.problem)))
  {
    assert "SUCCEEDED"[0] != "FAILED"[0] && "SUCCEEDED"[0] != "UNCERTAIN"[0] && "FAILED"[0] != "UNCERTAIN"[0];
  }

  /**
   * Not every adapter answer can be recorded: normalizing throws exactly for a FAILED or
   * UNCERTAIN answer whose problem is a string that is not JSON.
   */
  lemma AnswerIsLostIff(raw: RawAnswer)
    ensures NormalizeDispatch(raw) == None <==>
            raw.Answer? && raw.status in {Some("FAILED"), Some("UNCERTAIN")} && raw.problem == NotJson
  {
    assert "SUCCEEDED"[0] != "FAILED"[0] && "SUCCEEDED"[0] != "UNCERTAIN"[0] && "FAILED"[0] != "UNCERTAIN"[0];
  }

  // ----- compare-and-set statements -----

  datatype Cas =
    | InsertPrepared(draft: Draft)
    | BeginDispatch(token: Token)
    | CompleteDispatch(token: Token, outcome: Outcome)
    | RecoverDispatch(outcome: Outcome)
    | RefineUncertain(outcome: Outcome)

  // The outcome types the repository's callers can pass.
  predicate WellTyped(c: Cas) {
    (c.RecoverDispatch? ==> c.outcome.Unknown?) && (c.RefineUncertain? ==> !c.outcome.Unknown?)
  }

  // Whether the statement affects a row.
  predicate Matches(rows: map<OpId, Operation>, id: OpId, c: Cas) {
    match c
    case InsertPrepared(_) => id !in rows
    case BeginDispatch(_) => id in rows && rows[id].state == PREPARED
    case CompleteDispatch(token, _) => id in rows && rows[id].state == DISPATCHING && rows[id].token == Some(token)
    case RecoverDispatch(_) => id in rows && rows[id].state == DISPATCHING
    case RefineUncertain(_) => id in rows && rows[id].state == UNCERTAIN
  }

  function Written(rows: map<OpId, Operation>, id: OpId, c: Cas): Operation
    requires Matches(rows, id, c)
  {
    match c
    case InsertPrepared(d) => Operation(d.kind, d.version, d.request, PREPARED, None, None)
    case BeginDispatch(token) => rows[id].(state := DISPATCHING, token := Some(token))
    case CompleteDispatch(_, o) => rows[id].(state := Status(o), outcome := Some(o))
    case RecoverDispatch(o) => rows[id].(state := UNCERTAIN, outcome := Some(o))
    case RefineUncertain(o) => rows[id].(state := Status(o), outcome := Some(o))
  }

  predicate SameImmutableRequest(r: Operation, d: Draft) {
    r.kind == d.kind && r.version == d.version && r.request == d.request
  }

  // What a statement that affected no row makes of the row it then reads.
  datatype Miss = NotFound | IdentityConflict | HostFenceLost | InvalidTransition | Existing(row: Operation)

  function OnMiss(found: Option<Operation>, c: Cas): Miss {
    if found == None then NotFound
    else match c
         case InsertPrepared(d) => if SameImmutableRequest(found.value, d) then Existing(found.value)
             else IdentityConflict
         case BeginDispatch(_) => Existing(found.value)
         case CompleteDispatch(_, _) => if found.value.state == DISPATCHING then HostFenceLost else InvalidTransition
         case RecoverDispatch(_) => Existing(found.value)
         case RefineUncertain(_) => if found.value.state != UNCERTAIN then InvalidTransition else Existing(found.value)
  }

  // The legal transitions of the contract.
  predicate LegalEdge(before: OpState, after: OpState) {
    || (before == PREPARED && after == DISPATCHING)
    || (before == DISPATCHING && after in {SUCCEEDED, FAILED, UNCERTAIN})
    || (before == UNCERTAIN && after in {SUCCEEDED, FAILED})
  }

  /**
   * Every statement follows a legal edge, keeps the immutable request and an assigned token,
   * and keeps the row well shaped; no statement matches a definite outcome.
   */
  lemma StatementsAreLegal(rows: map<OpId, Operation>, id: OpId, c: Cas)
    requires WellTyped(c) && Matches(rows, id, c)
    requires id in rows ==> WellShaped(rows[id])
    ensures var r := Written(rows, id, c);
            && WellShaped(r)
            && (c.InsertPrepared? <==> id !in rows)
            && (id in rows ==> LegalEdge(rows[id].state, r.state) && Rank(rows[id].state) < Rank(r.state)
                               && SameImmutableRequest(r, Draft(rows[id].kind, rows[id].version, rows[id].request))
                               && (rows[id].token.Some? ==> r.token == rows[id].token))
            && (c.InsertPrepared? ==> SameImmutableRequest(r, c.draft) && r.state == PREPARED)
  {
  }

  // The row records outcome o, in the state that goes with it.
  predicate Ends(r: Operation, o: Outcome) {
    && r.outcome == Some(o)
    && (r.state == SUCCEEDED <==> o.Success?) && (r.state == FAILED <==> o.Failure?)
    && (r.state == UNCERTAIN <==> o.Unknown?)
  }

  datatype CasResult = Won(row: Operation) | Lost(miss: Miss)

  // The repository over one table; each method is one statement, followed by a read when it affected no row.
  class EffectTable {
    var rows: map<OpId, Operation>

    constructor ()
      ensures rows == map[]
    {
      rows := map[];
    }

    function Find(id: OpId): Option<Operation>
      reads this
    {
      if id in rows then Some(rows[id]) else None
    }

    method Insert(id: OpId, draft: Draft) returns (r: CasResult)
      modifies this
      ensures r.Won? <==> Matches(old(rows), id, InsertPrepared(draft))
      ensures r.Won? ==> r.row == Written(old(rows), id, InsertPrepared(draft)) && rows == old(rows)[id := r.row]
      ensures r.Lost? ==> rows == old(rows) && r.miss == OnMiss(Find(id), InsertPrepared(draft))
      ensures r.Won? ==> r.row == Operation(draft.kind, draft.version, draft.request, PREPARED, None, None)
      ensures r == Lost(IdentityConflict) <==> id in old(rows) && !SameImmutableRequest(old(rows)[id], draft)
      ensures id in old(rows) && SameImmutableRequest(old(rows)[id], draft) ==> r == Lost(Existing(old(rows)[id]))
    {
      if id !in rows {
        rows := rows[id := Operation(draft.kind, draft.version, draft.request, PREPARED, None, None)];
        return Won(rows[id]);
      }
      if SameImmutableRequest(rows[id], draft) {
        return Lost(Existing(rows[id]));
      }
      return Lost(IdentityConflict);
    }

    method Begin(id: OpId, token: Token) returns (r: CasResult)
      modifies this
      ensures r.Won? <==> Matches(old(rows), id, BeginDispatch(token))
      ensures r.Won? ==> r.row == Written(old(rows), id, BeginDispatch(token)) && rows == old(rows)[id := r.row]
      ensures r.Lost? ==> rows == old(rows) && r.miss == OnMiss(Find(id), BeginDispatch(token))
      ensures r.Won? ==> rows[id].state == DISPATCHING && rows[id].token == Some(token)
      ensures r == Lost(NotFound) <==> id !in old(rows)
      ensures id in old(rows) && old(rows)[id].state != PREPARED ==> r == Lost(Existing(old(rows)[id]))
    {
      if id in rows && rows[id].state == PREPARED {
        rows := rows[id := rows[id].(state := DISPATCHING, token := Some(token))];
        return Won(rows[id]);
      }
      return if id in rows then Lost(Existing(rows[id])) else Lost(NotFound);
    }

    method Complete(id: OpId, token: Token, outcome: Outcome) returns (r: CasResult)
      modifies this
      ensures r.Won? <==> Matches(old(rows), id, CompleteDispatch(token, outcome))
      ensures r.Won? ==>
          r.row == Written(old(rows), id, CompleteDispatch(token, outcome)) && rows == old(rows)[id := r.row]
      ensures r.Lost? ==> rows == old(rows) && r.miss == OnMiss(Find(id), CompleteDispatch(token, outcome))
      ensures r.Won? ==> Ends(rows[id], outcome)
      ensures r == Lost(HostFenceLost) <==>
                id in old(rows) && old(rows)[id].state == DISPATCHING && old(rows)[id].token != Some(token)
      ensures r == Lost(InvalidTransition) <==> id in old(rows) && old(rows)[id].state != DISPATCHING
      ensures r == Lost(NotFound) <==> id !in old(rows)
    {
      if id !in rows {
        return Lost(NotFound);
      }
      if rows[id].state != DISPATCHING {
        return Lost(InvalidTransition);
      }
      if rows[id].token != Some(token) {
        return Lost(HostFenceLost);
      }
      rows := rows[id := rows[id].(state := Status(outcome), outcome := Some(outcome))];
      return Won(rows[id]);
    }

    method Recover(id: OpId, outcome: Outcome) returns (r: CasResult)
      modifies this
      ensures r.Won? <==> Matches(old(rows), id, RecoverDispatch(outcome))
      ensures r.Won? ==> r.row == Written(old(rows), id, RecoverDispatch(outcome)) && rows == old(rows)[id := r.row]
      ensures r.Lost? ==> rows == old(rows) && r.miss == OnMiss(Find(id), RecoverDispatch(outcome))
      ensures r.Won? ==> rows[id].state == UNCERTAIN && rows[id].outcome == Some(outcome)
      ensures r == Lost(NotFound) <==> id !in old(rows)
      ensures id in old(rows) && old(rows)[id].state != DISPATCHING ==> r == Lost(Existing(old(rows)[id]))
    {
      if id in rows && rows[id].state == DISPATCHING {
        rows := rows[id := rows[id].(state := UNCERTAIN, outcome := Some(outcome))];
        return Won(rows[id]);
      }
      return if id in rows then Lost(Existing(rows[id])) else Lost(NotFound);
    }

    method Refine(id: OpId, outcome: Outcome) returns (r: CasResult)
      requires !outcome.Unknown?
      modifies this
      ensures r.Won? <==> Matches(old(rows), id, RefineUncertain(outcome))
      ensures r.Won? ==> r.row == Written(old(rows), id, RefineUncertain(outcome)) && rows == old(rows)[id := r.row]
      ensures r.Lost? ==> rows == old(rows) && r.miss == OnMiss(Find(id), RefineUncertain(outcome))
      ensures r.Won? ==> Ends(rows[id], outcome)
      ensures r == Lost(InvalidTransition) <==> id in old(rows) && old(rows)[id].state != UNCERTAIN
      ensures r == Lost(NotFound) <==> id !in old(rows)
    {
      if id !in rows {
        return Lost(NotFound);
      }
      if rows[id].state != UNCERTAIN {
        return Lost(InvalidTransition);
      }
      rows := rows[id := rows[id].(state := Status(outcome), outcome := Some(outcome))];
      return Won(rows[id]);
    }
  }
}
