/**
 * Reading an EffectOperation row back: the strict parser over whatever the columns hold, and the
 * round trip of the rows the repository writes.
 */
module EffectRows {
  import opened Options
  import opened EffectOperations

  // How the driver and JSON.parse treat a stored value: a string is parsed once more.
  datatype Decoder = Decoder(isString: Json -> bool, parse: Json -> Option<Json>)

  // No JSON text denotes the string that it is itself.
  ghost predicate Sensible(d: Decoder) {
    forall j: Json :: d.isString(j) ==> d.parse(j) != Some(j)
  }

  function Decoded(d: Decoder, j: Json): Option<Json> {
    if d.isString(j) then d.parse(j) else Some(j)
  }

  datatype RawToken = NullToken | BadToken | GoodToken(token: Token)

  // extraKey is a key outside schemaVersion, status, receipt and problem.
  datatype RawOutcome = NullOutcome | NotARecordOutcome | Record(version: int, status: string, receipt: RawReceipt,
      problem: RawProblem, extraKey: bool)

  datatype RawRow = RawRow(schemaVersion: int, kind: Option<EffectKind>, requestVersion: int, state: string,
      request: Json, token: RawToken, outcome: RawOutcome)

  function StateName(s: OpState): string {
    match s
    case PREPARED => "PREPARED"
    case DISPATCHING => "DISPATCHING"
    case UNCERTAIN => "UNCERTAIN"
    case SUCCEEDED => "SUCCEEDED"
    case FAILED => "FAILED"
  }

  function ParseState(text: string): Option<OpState> {
    if text == "PREPARED" then Some(PREPARED)
    else if text == "DISPATCHING" then Some(DISPATCHING)
    else if text == "UNCERTAIN" then Some(UNCERTAIN)
    else if text == "SUCCEEDED" then Some(SUCCEEDED)
    else if text == "FAILED" then Some(FAILED)
    else None
  }

  // normalizedOutcome; a problem that is a string but not JSON makes the whole row unreadable.
  datatype OutcomeRead = Unreadable | NoOutcome | Read(outcome: Outcome)

  function ReadOutcome(raw: RawOutcome, state: OpState): OutcomeRead {
    if !raw.Record? || raw.version != 1 || raw.status != StateName(state) || !Decided(state) || raw.extraKey then
        NoOutcome
    else if state == SUCCEEDED then
      if raw.problem != NoProblem then NoOutcome
      else match raw.receipt
        case NoReceipt => Read(Success(None))
        case NotCanonical => NoOutcome
        case Canonical(v) => Read(Success(Some(v)))
    else if raw.receipt != NoReceipt then NoOutcome
    else match raw.problem
      case NotJson => Unreadable
      case Parsed(p) => Read(if state == FAILED then Failure(p) else Unknown(Some(p)))
      case _ => if state == FAILED then NoOutcome else Read(Unknown(None))
  }

  // parseEffectOperationRow; None is an invalid or unsupported row.
  function ParseRow(raw: RawRow, d: Decoder): Option<Operation> {
    var state := ParseState(raw.state);
    if raw.schemaVersion != 1 || raw.kind == None || raw.requestVersion < 1 || state == None then None
    else if Decoded(d, raw.request) == None || raw.token == BadToken then None
    else
      var token := if raw.token.GoodToken? then Some(raw.token.token) else None;
      var read := ReadOutcome(raw.outcome, state.value);
      var outcome := if read.Read? then Some(read.outcome) else None;
      if read.Unreadable? then None
      else if state == Some(PREPARED) && (token.Some? || outcome.Some?) then None
      else if state == Some(DISPATCHING) && (token.None? || outcome.Some?) then None
      else if Decided(state.value) && (token.None? || outcome.None?) then None
      else Some(Operation(raw.kind.value, raw.requestVersion, Decoded(d, raw.request).value, state.value, token,
          outcome))
  }

  function WriteOutcome(o: Option<Outcome>): RawOutcome {
    if o == None then NullOutcome
    else match o.value
      case Success(receipt) =>
          Record(1, "SUCCEEDED", if receipt.Some? then Canonical(receipt.value) else NoReceipt, NoProblem, false)
      case Failure(problem) => Record(1, "FAILED", NoReceipt, Parsed(problem), false)
      case Unknown(reason) =>
          Record(1, "UNCERTAIN", NoReceipt, if reason.Some? then Parsed(reason.value) else NoProblem, false)
  }

  // The columns the statements write for an operation.
  function WriteRow(op: Operation): RawRow {
    RawRow(1, Some(op.kind), op.version, StateName(op.state), op.request, if op.token.Some? then
        GoodToken(op.token.value) else NullToken, WriteOutcome(op.outcome))
  }

  lemma StateNamesAreDistinct(s: OpState)
    ensures ParseState(StateName(s)) == Some(s)
  {
    assert "PREPARED"[0] != "DISPATCHING"[0] && "UNCERTAIN"[0] != "SUCCEEDED"[0] && "FAILED"[0] != "SUCCEEDED"[0];
    assert "PREPARED"[0] != "UNCERTAIN"[0] && "PREPARED"[0] != "SUCCEEDED"[0] && "PREPARED"[0] != "FAILED"[0];
    assert "DISPATCHING"[0] != "UNCERTAIN"[0] && "DISPATCHING"[0] != "SUCCEEDED"[0] && "DISPATCHING"[0] != "FAILED"[0];
    assert "UNCERTAIN"[0] != "FAILED"[0];
  }

  /** Whatever the columns hold, a row that reads at all has the shape its state demands. */
  lemma ReadRowsAreWellShaped(raw: RawRow, d: Decoder)
    ensures ParseRow(raw, d).Some? ==> WellShaped(ParseRow(raw, d).value) && ParseRow(raw, d).value.version >= 1
    ensures ParseRow(raw, d).Some? && Decided(ParseRow(raw, d).value.state) ==>
        raw.token.GoodToken? && raw.outcome.Record? && raw.outcome.status == raw.state
  {
    var state := ParseState(raw.state);
    if state.Some? {
      StateNamesAreDistinct(state.value);
      assert StateName(state.value) == raw.state;
    }
  }

  /** A written row reads back as itself if and only if its request is not a top-level string. */
  lemma WrittenRowsReadBack(op: Operation, d: Decoder)
    requires WellShaped(op) && op.version >= 1 && Sensible(d)
    ensures ParseRow(WriteRow(op), d) == Some(op) <==> !d.isString(op.request)
  {
    StateNamesAreDistinct(op.state);
  }

  /** A concrete row: the request 0 is a string whose text denotes the request 1, and 1 is what comes back. */
  lemma StringRequestIsMisread(d: Decoder)
    requires d.isString(0) && d.parse(0) == Some(1)
    ensures var op := Operation(7, 1, 0, PREPARED, None, None);
            ParseRow(WriteRow(op), d) == Some(op.(request := 1)) && ParseRow(WriteRow(op), d) != Some(op)
  {
    StateNamesAreDistinct(PREPARED);
  }
}
