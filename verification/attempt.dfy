/**
 * One execution of a work attempt: read, preflight, reservation, claim, handler, and the single
 * mutation that records the result, with everything others may do to the row at each await.
 */
module Attempts {
  import opened Options
  import opened WorkItems

  datatype Status =
    | NOT_FOUND | TERMINAL_REPLAY | STALE_NOOP | AT(state: ItemState)

  datatype Problem =
    | InvalidRevision | ReadFailed | AttemptMismatch | HandlerMissing | ReservationFailed | MutationFailed

  datatype Result = Returned(status: Status, item: Option<Item>, outcome: Option<Outcome>) | Raised(problem: Problem)

  // ----- the pure parts -----

  function ResultForMutation(r: CasResult): Result {
    match r
    case NotFound => Returned(NOT_FOUND, None, None)
    case Stale(item) => Returned(STALE_NOOP, Some(item), None)
    case AlreadyTerminal(item) => Returned(TERMINAL_REPLAY, Some(item), item.outcome)
    case Applied(item) => Returned(AT(item.state), Some(item), item.outcome)
    case Threw => Raised(MutationFailed)
  }

  datatype DecisionKind = RETRY | TERMINAL | UNKNOWN

  // The classifier's answer field by field; None is a value the safe readers refuse.
  datatype Answer = ClassifierThrew | Answer(kind: DecisionKind, retryClass: Option<RetryClass>,
      reason: Option<string>, notBefore: Option<int>)

  datatype Decision = Retry(retryClass: RetryClass, reason: string, notBefore: int) | Fail(retryClass: RetryClass,
      reason: string)

  const UNCLASSIFIED := Fail(Permanent, "work.failure.unclassified")

  function ClassifyFailure(a: Answer): Decision {
    if a.ClassifierThrew? then UNCLASSIFIED
    else if a.retryClass == Some(ExternalEffectUncertain) then
        Fail(Invalid, "work.external_effect_uncertain_unsupported")
    else if a.reason == None || a.retryClass == None then UNCLASSIFIED
    else match a.kind
      case RETRY => if a.notBefore == None then Fail(Permanent, "work.retry.not_before_required")
          else Retry(a.retryClass.value, a.reason.value, a.notBefore.value)
      case TERMINAL => Fail(a.retryClass.value, a.reason.value)
      case UNKNOWN => UNCLASSIFIED
  }

  /** A failure is retried exactly on a complete RETRY answer, and is never recorded as an uncertain external effect. */
  lemma FailuresAreClassifiedSafely(a: Answer)
    ensures ClassifyFailure(a).retryClass != ExternalEffectUncertain
    ensures ClassifyFailure(a).Retry? <==>
              a.Answer? && a.kind == RETRY && a.reason.Some? && a.notBefore.Some? && a.retryClass.Some?
                  && a.retryClass.value != ExternalEffectUncertain
    ensures ClassifyFailure(a).Retry? ==>
        Some(ClassifyFailure(a).notBefore) == a.notBefore && Some(ClassifyFailure(a).retryClass) == a.retryClass
        && Some(ClassifyFailure(a).reason) == a.reason
  {
  }

  // ----- the attempt's Activity -----

  datatype ActivityOutcome = Succeeded | Failed | Cancelled

  datatype Mark = Retained | Completed(outcome: ActivityOutcome)

  // What a mutation's hook writes in the same transaction.
  datatype Hook = RetainOnly | Complete(retainFirst: bool) | Early

  function OutcomeForActivity(s: ItemState): ActivityOutcome {
    if s == SUCCEEDED then Succeeded else if s == CANCELLED || s == SUPERSEDED then Cancelled else Failed
  }

  function EarlyOutcome(s: ItemState): ActivityOutcome {
    if s == WAITING_DEPENDENCY || s == RETRY_WAIT then Succeeded else if s == CANCELLED || s == SUPERSEDED then
        Cancelled else Failed
  }

  function Marks(h: Hook, s: ItemState): seq<Mark> {
    match h
    case RetainOnly => [Retained]
    case Complete(retainFirst) => (if retainFirst then [Retained] else []) + [Completed(OutcomeForActivity(s))]
    case Early => [Retained, Completed(EarlyOutcome(s))]
  }

  // Retained at most once, completed at most once, and never before it was retained.
  predicate Balanced(log: seq<Mark>) {
    log == [] || log == [Retained] || (|log| == 2 && log[0] == Retained && log[1].Completed?)
  }

  class AttemptActivity {
    var log: seq<Mark>

    constructor ()
      ensures log == []
    {
      log := [];
    }

    method Write(marks: seq<Mark>)
      modifies this
      ensures log == old(log) + marks
    {
      log := log + marks;
    }
  }

  // The reservations of one execution and what became of them.
  class Reservations {
    var reserved: nat
    var executed: nat
    var released: nat

    constructor ()
      ensures reserved == executed == released == 0
    {
      reserved, executed, released := 0, 0, 0;
    }

    method Reserve()
      modifies `reserved
      ensures reserved == old(reserved) + 1
    {
      reserved := reserved + 1;
    }

    method Execute()
      modifies `executed
      ensures executed == old(executed) + 1
    {
      executed := executed + 1;
    }

    method Release()
      modifies `released
      ensures released == old(released) + 1
    {
      released := released + 1;
    }
  }

  // ----- the script of one execution -----

  datatype Validation = PayloadValid | PayloadUnavailable | PayloadInvalid(reason: string)

  datatype Reservation = Granted | GenerationRetired | Refused

  // others0 .. others3 happen before the read, the preflight's mutation, the claim and the final mutation.
  // handler is the accepted output, or None when the handler or its output fails.
  datatype Script = Script(
    readable: bool, resolved: bool, validation: Validation, now: int, reservation: Reservation,
    handler: Option<int>, answer: Answer, claim: Fate, fate: Fate,
    others0: seq<Mutation>, others1: seq<Mutation>, others2: seq<Mutation>, others3: seq<Mutation>)

  ghost predicate ProperScript(id: nat, s: Script) {
    AllProper(id, s.others0) && AllProper(id, s.others1) && AllProper(id, s.others2) && AllProper(id, s.others3)
  }

  predicate Settled(r: Result) {
    r.Returned? && r.status.AT?
  }

  // What a result says about the row it leaves behind.
  predicate Reports(r: Result, row: Option<Item>) {
    r.Returned? ==>
      && r.item == row
      && (r.status == NOT_FOUND <==> row == None)
      && (r.status == TERMINAL_REPLAY ==> row.Some? && Terminal(row.value.state) && r.outcome == row.value.outcome)
      && (r.status == STALE_NOOP ==> row.Some? && !Terminal(row.value.state))
      && (r.status.AT? ==>
          row.Some? && r.status.state == row.value.state && r.outcome == row.value.outcome
          && row.value.state != PENDING && row.value.state != RUNNING)
  }

  predicate Stopped(o: Option<Outcome>) {
    o.Some? && (o.value.Cancellation? || o.value.Supersession?)
  }

  // The transaction reaches its COMMIT and the server takes it.
  predicate Sent(fate: Fate) {
    fate == Settles || fate == LosesAnswer(true)
  }

  // A mutation with its hook: the marks stand exactly if the statement was applied.
  method MutateWith(table: WorkItemTable, activity: AttemptActivity, m: Mutation, hook: Hook, fate: Fate)
      returns (r: CasResult)
    requires table.Valid() && (table.row.Some? ==> Proper(table.row.value.id, m))
    modifies table, activity
    ensures table.Valid() && (table.row.Some? <==> old(table.row).Some?)
    ensures table.row.Some? ==> table.row.value.id == old(table.row).value.id
    ensures r == Threw <==> fate != Settles
    ensures r == NotFound <==> fate == Settles && old(table.row).None?
    ensures r.Applied? <==> fate == Settles && old(table.row).Some? && Matches(old(table.row).value, m)
    ensures r.Applied? || r.Stale? || r.AlreadyTerminal? ==> table.row == Some(r.item)
    ensures r.AlreadyTerminal? ==> Terminal(r.item.state)
    ensures r.Stale? ==> !Terminal(r.item.state)
    ensures var applied := old(table.row).Some? && Sent(fate) && Matches(old(table.row).value, m);
      && table.row == (if applied then Some(Written(old(table.row).value, m)) else old(table.row))
      && activity.log == old(activity.log) + (if applied then Marks(hook, table.row.value.state) else [])
  {
    var applied := table.row.Some? && Sent(fate) && Matches(table.row.value, m);
    if table.row.Some? {
      table.Rows();
    }
    r := table.Mutate(m, fate);
    if applied {
      activity.Write(Marks(hook, table.row.value.state));
    }
  }

  predicate Failing(o: Option<Outcome>) {
    o.Some? && o.value.Failure?
  }

  function Expected(recovering: bool, id: nat, revision: nat): (ItemState, Option<AttemptId>) {
    if recovering then (RUNNING, Some(AttemptOf(id, revision))) else (PENDING, None)
  }

  function Moved(i: Item, m: Mutation): Result {
    var i' := Apply(i, m);
    Returned(AT(i'.state), Some(i'), i'.outcome)
  }

  // The statement that records how a handler ended.
  function ResultStatement(id: nat, revision: nat, s: Script): Mutation {
    var attempt := Some(AttemptOf(id, revision));
    if s.handler.Some? then CommitTerminal(revision, RUNNING, attempt, Success(s.handler.value))
    else match ClassifyFailure(s.answer)
      case Retry(retryClass, reason, notBefore) =>
          MarkRetryWait(revision, RUNNING, attempt, retryClass, reason, notBefore)
      case Fail(retryClass, reason) => CommitTerminal(revision, RUNNING, attempt, Failure(retryClass, reason))
  }

  // Nobody else writes, and every transaction settles.
  predicate Undisturbed(s: Script) {
    s.readable && s.claim == Settles && s.fate == Settles && s.others0 == [] && s.others1 == [] && s.others2 == []
        && s.others3 == []
  }

  // What an undisturbed execution comes to, on a row of the expected revision that is PENDING or RUNNING.
  function Verdict(i: Item, s: Script): Result {
    var running := i.state == RUNNING;
    var (from, attempt) := Expected(running, i.id, i.revision);
    if Requested(i) then Moved(i, CommitTerminal(i.revision, from, attempt, RequestedOutcome(i).value))
    else if !s.resolved || s.validation == PayloadUnavailable then
      if running then Raised(HandlerMissing) else Moved(i, MarkWaitingDependency(i.revision))
    else if s.validation.PayloadInvalid? then
        Moved(i, CommitTerminal(i.revision, from, attempt, Failure(Invalid, s.validation.reason)))
    else if i.notBefore.Some? && i.notBefore.value > s.now then
      Moved(i, MarkRetryWait(i.revision, from, attempt, Transient, "not-before-not-yet-due", i.notBefore.value))
    else if s.reservation != Granted then
      if running then Raised(HandlerMissing)
      else if s.reservation == GenerationRetired then Moved(i, MarkWaitingDependency(i.revision))
      else Raised(ReservationFailed)
    else if running then Moved(i, ResultStatement(i.id, i.revision, s))
    else Moved(Apply(i, MarkRunning(i.revision, AttemptOf(i.id, i.revision))), ResultStatement(i.id, i.revision, s))
  }

  // Nothing keeps the handler from running now.
  predicate Runnable(i: Item, s: Script) {
    && !Requested(i) && s.resolved && s.validation == PayloadValid && s.reservation == Granted
    && (i.notBefore.Some? ==> i.notBefore.value <= s.now)
  }

  // The execution ends the row in this outcome, and reports the row.
  predicate EndsIn(r: Result, state: ItemState, o: Outcome) {
    r.Returned? && r.status == AT(state) && r.outcome == Some(o)
        && r.item.Some? && r.item.value.state == state && r.item.value.outcome == Some(o)
  }

  predicate LeavesWaiting(r: Result, state: ItemState) {
    r.Returned? && r.status == AT(state) && r.outcome == None && r.item.Some? && r.item.value.state == state
  }

  // A value the classifier may give, other than an uncertain external effect, with a reason.
  predicate Classified(a: Answer) {
    a.Answer? && a.reason.Some? && a.retryClass.Some? && a.retryClass.value != ExternalEffectUncertain
  }

  /** What a handler that ran comes to, told by its output or by the classifier's answer. */
  lemma HandledAttemptsEndAsAnswered(i: Item, s: Script)
    requires Coherent(i) && OwnAttempt(i) && (i.state == PENDING || i.state == RUNNING) && Runnable(i, s)
    ensures var r, a := Verdict(i, s), s.answer;
      && (s.handler.Some? ==> EndsIn(r, SUCCEEDED, Success(s.handler.value)))
      && (s.handler.None? && Classified(a) && a.kind == TERMINAL ==>
            EndsIn(r, FAILED, Failure(a.retryClass.value, a.reason.value)))
      && (s.handler.None? && Classified(a) && a.kind == RETRY && a.notBefore.Some? ==>
            LeavesWaiting(r, RETRY_WAIT) && PutOffAsAnswered(r.item, a))
      && (s.handler.None? && Classified(a) && a.kind == RETRY && a.notBefore.None? ==>
            EndsIn(r, FAILED, Failure(Permanent, "work.retry.not_before_required")))
      && (s.handler.None? && a.Answer? && a.retryClass == Some(ExternalEffectUncertain) ==>
            EndsIn(r, FAILED, Failure(Invalid, "work.external_effect_uncertain_unsupported")))
      && (s.handler.None?
          && (a.ClassifierThrew?
              || (a.retryClass != Some(ExternalEffectUncertain) && (!Classified(a) || a.kind == UNKNOWN))) ==>
            EndsIn(r, FAILED, Failure(Permanent, "work.failure.unclassified")))
  {
  }

  /** What keeps a handler from running, and what then becomes of the row. */
  lemma UnhandledAttemptsEndByTheirCause(i: Item, s: Script)
    requires Coherent(i) && OwnAttempt(i) && (i.state == PENDING || i.state == RUNNING) && !Runnable(i, s)
    ensures var r := Verdict(i, s);
      var free := !Requested(i);
      var served := free && s.resolved && s.validation != PayloadUnavailable;
      var valid := served && s.validation == PayloadValid;
      var due := valid && (i.notBefore.Some? ==> i.notBefore.value <= s.now);
      && (i.cancelAt.Some? ==> EndsIn(r, CANCELLED, Cancellation(i.cancelReason.UnwrapOr("cancellation-requested"))))
      && (i.supersededBy.Some? ==> EndsIn(r, SUPERSEDED, Supersession(i.supersededBy.value)))
      && (free && !served && i.state == PENDING ==> LeavesWaiting(r, WAITING_DEPENDENCY))
      && (free && !served && i.state == RUNNING ==> r == Raised(HandlerMissing))
      && (served && !valid ==> EndsIn(r, FAILED, Failure(Invalid, s.validation.reason)))
      && (valid && !due ==>
            LeavesWaiting(r, RETRY_WAIT) && PutOff(r.item, Transient, "not-before-not-yet-due", i.notBefore.value))
      && (due && i.state == RUNNING ==> r == Raised(HandlerMissing))
      && (due && i.state == PENDING && s.reservation == GenerationRetired ==> LeavesWaiting(r, WAITING_DEPENDENCY))
      && (due && i.state == PENDING && s.reservation == Refused ==> r == Raised(ReservationFailed))
  {
  }

  // What every way out of an execution has in common.
  predicate Sound(r: Result, row: Option<Item>, log: seq<Mark>) {
    && Balanced(log) && Reports(r, row)
    && (r.Returned? ==> (Settled(r) <==> |log| == 2))
    && (Settled(r) ==> (r.outcome.Some? <==> Terminal(r.status.state)))
    && (Settled(r) && Failing(r.outcome) ==> r.outcome.value.retryClass != ExternalEffectUncertain)
    && r != Raised(AttemptMismatch)
  }

  predicate PutOff(row: Option<Item>, retryClass: RetryClass, reason: string, notBefore: int) {
    row.Some? && row.value.state == RETRY_WAIT && row.value.retryClass == Some(retryClass)
        && row.value.reason == Some(reason) && row.value.notBefore == Some(notBefore)
  }

  // The retry the classifier asked for is what the row now waits for.
  predicate PutOffAsAnswered(row: Option<Item>, a: Answer) {
    a.Answer? && a.kind == RETRY && a.retryClass.Some? && a.reason.Some? && a.notBefore.Some?
        && PutOff(row, a.retryClass.value, a.reason.value, a.notBefore.value)
  }

  // What the completed Activity says, by the state its row was left in; handled says that a handler ran.
  predicate ActivityTells(log: seq<Mark>, state: ItemState, handled: bool) {
    && |log| == 2
    && (log[1] == Completed(Cancelled) <==> state == CANCELLED || state == SUPERSEDED)
    && (log[1] == Completed(Failed) <==> state == FAILED || (state == RETRY_WAIT && handled))
    && (log[1] == Completed(Succeeded) <==>
          state == SUCCEEDED || state == WAITING_DEPENDENCY || (state == RETRY_WAIT && !handled))
  }

  // The mutation that ends an execution.
  method EndWith(table: WorkItemTable, activity: AttemptActivity, m: Mutation, hook: Hook, fate: Fate,
      others: seq<Mutation>) returns (r: Result)
    requires table.Valid() && table.row.Some? && Proper(table.row.value.id, m) && AllProper(table.row.value.id, others)
    requires m.CommitTerminal? && m.outcome.Failure? ==> m.outcome.retryClass != ExternalEffectUncertain
    requires !m.MarkRunning? && !m.WakeDependency? && !m.WakeDueRetry? && !m.RequestCancel? && !m.RequestSupersede?
    requires if hook == Complete(false) then activity.log == [Retained] else hook != RetainOnly && activity.log == []
    requires if hook == Early then m.CommitTerminal? ==> !m.outcome.Success? else !m.MarkWaitingDependency?
    modifies table, activity
    ensures table.Valid()
    ensures Sound(r, table.row, activity.log)
    ensures table.row.Some? && table.row.value.id == old(table.row).value.id
    ensures others == [] && fate == Settles && Matches(old(table.row).value, m) ==> r == Moved(old(table.row).value, m)
    ensures Settled(r) && m.CommitTerminal? ==> r.outcome == Some(m.outcome) || Stopped(r.outcome)
    ensures Settled(r) && m.MarkRetryWait? ==> r.status.state == RETRY_WAIT || Stopped(r.outcome)
    ensures Settled(r) && r.status.state == RETRY_WAIT ==>
              m.MarkRetryWait? && PutOff(r.item, m.retryClass, m.reason, m.notBefore)
    ensures Settled(r) ==> ActivityTells(activity.log, r.status.state, hook != Early)
    ensures Settled(r) && m.MarkWaitingDependency? ==> r.status.state == WAITING_DEPENDENCY
  {
    table.Others(others);
    table.Rows();
    var cas := MutateWith(table, activity, m, hook, fate);
    table.Rows();
    r := ResultForMutation(cas);
  }

  // The row as the execution read it, fit for an attempt.
  predicate AtRead(row: Option<Item>, item: Item, recovering: bool) {
    row == Some(item) && item.state == (if recovering then RUNNING else PENDING)
        && (recovering ==> item.attempt == Some(AttemptOf(item.id, item.revision)))
  }

  // The preflight has nothing against this item.
  predicate Passes(item: Item, s: Script) {
    !Requested(item) && s.resolved && s.validation == PayloadValid
        && !(item.notBefore.Some? && item.notBefore.value > s.now)
  }

  // The steps before a handler is reserved; None lets the attempt go on.
  method Preflight(table: WorkItemTable, activity: AttemptActivity, item: Item, recovering: bool, s: Script)
      returns (r: Option<Result>)
    requires table.Valid() && table.row.Some? && table.row.value.id == item.id && ProperScript(item.id, s)
        && item.revision >= 1
    requires activity.log == []
    requires recovering && RequestedOutcome(item) == None ==> s.resolved
    modifies table, activity
    ensures table.Valid()
    ensures r == None ==>
        table.row == old(table.row) && activity.log == [] && RequestedOutcome(item) == None && s.resolved
        && s.validation == PayloadValid
    ensures r.Some? ==> Sound(r.value, table.row, activity.log)
    ensures r.Some? && Undisturbed(s) && AtRead(old(table.row), item, recovering) ==> r.value == Verdict(item, s)
    ensures r == None ==> !(item.notBefore.Some? && item.notBefore.value > s.now)
    ensures r.Some? && Settled(r.value) && r.value.outcome.Some? ==> !r.value.outcome.value.Success?
    ensures r.Some? && Settled(r.value) ==> ActivityTells(activity.log, r.value.status.state, false)
    ensures r.Some? && Settled(r.value) && r.value.status.state == RETRY_WAIT ==>
              item.notBefore.Some? && item.notBefore.value > s.now
              && PutOff(r.value.item, Transient, "not-before-not-yet-due", item.notBefore.value)
  {
    var (from, attempt) := Expected(recovering, item.id, item.revision);
    var requested := RequestedOutcome(item);
    if requested.Some? {
      var ended :=
          EndWith(table, activity, CommitTerminal(item.revision, from, attempt, requested.value), Early, s.fate,
          s.others1);
      return Some(ended);
    }
    if !s.resolved {
      var waiting := EndWith(table, activity, MarkWaitingDependency(item.revision), Early, s.fate, s.others1);
      return Some(waiting);
    }
    if s.validation == PayloadUnavailable {
      if recovering {
        return Some(Raised(HandlerMissing));
      }
      var waiting := EndWith(table, activity, MarkWaitingDependency(item.revision), Early, s.fate, s.others1);
      return Some(waiting);
    }
    if s.validation.PayloadInvalid? {
      var failed :=
          EndWith(table, activity, CommitTerminal(item.revision, from, attempt, Failure(Invalid, s.validation.reason)),
          Early, s.fate, s.others1);
      return Some(failed);
    }
    if item.notBefore.Some? && item.notBefore.value > s.now {
      var waiting := EndWith(table, activity,
        MarkRetryWait(item.revision, from, attempt, Transient, "not-before-not-yet-due", item.notBefore.value), Early,
            s.fate, s.others1);
      return Some(waiting);
    }
    return None;
  }

  predicate HeldBy(i: Item, attempt: AttemptId) {
    RunningAt(i, attempt.revision) && i.attempt == Some(attempt)
  }

  // The handler of a claimed row, and the one mutation that records how it ended.
  method RunClaimed(table: WorkItemTable, activity: AttemptActivity, reservations: Reservations, id: nat,
      revision: nat, recovering: bool, s: Script)
    returns (r: Result)
    requires table.Valid() && table.row.Some? && table.row.value.id == id && ProperScript(id, s) && revision >= 1
    requires activity.log == if recovering then [] else [Retained]
    requires reservations.reserved == 1 && reservations.executed == reservations.released == 0
    modifies table, activity, reservations
    ensures table.Valid() && reservations.reserved == 1 && reservations.executed == 1 && reservations.released == 0
    ensures Sound(r, table.row, activity.log)
    ensures Undisturbed(s) && HeldBy(old(table.row).value, AttemptOf(id, revision)) ==>
              r == Moved(old(table.row).value, ResultStatement(id, revision, s))
    ensures Settled(r) ==>
      || Stopped(r.outcome)
      || (s.handler.Some? && r.outcome == Some(Success(s.handler.value)))
      || (s.handler.None? && ClassifyFailure(s.answer).Retry? && r.status.state == RETRY_WAIT)
      || (s.handler.None? && ClassifyFailure(s.answer).Fail?
          && r.outcome == Some(Failure(ClassifyFailure(s.answer).retryClass, ClassifyFailure(s.answer).reason)))
    ensures Settled(r) ==> ActivityTells(activity.log, r.status.state, true)
    ensures Settled(r) && r.status.state == RETRY_WAIT ==> s.handler.None? && PutOffAsAnswered(r.item, s.answer)
  {
    FailuresAreClassifiedSafely(s.answer);
    reservations.Execute();
    var attempt := Some(AttemptOf(id, revision));
    if s.handler.None? {
      var decision := ClassifyFailure(s.answer);
      if decision.Retry? {
        r := EndWith(table, activity,
            MarkRetryWait(revision, RUNNING, attempt, decision.retryClass, decision.reason, decision.notBefore),
          Complete(recovering), s.fate, s.others3);
        return;
      }
      r := EndWith(table, activity,
          CommitTerminal(revision, RUNNING, attempt, Failure(decision.retryClass, decision.reason)),
        Complete(recovering), s.fate, s.others3);
      return;
    }
    r := EndWith(table, activity, CommitTerminal(revision, RUNNING, attempt, Success(s.handler.value)),
        Complete(recovering), s.fate, s.others3);
  }

  // The claim of a reserved handler; None lets it run.
  method Claim(table: WorkItemTable, activity: AttemptActivity, reservations: Reservations, item: Item, s: Script)
      returns (r: Option<Result>)
    requires table.Valid() && table.row.Some? && table.row.value.id == item.id && ProperScript(item.id, s)
        && item.revision >= 1
    requires activity.log == [] && reservations.reserved == 1 && reservations.executed == reservations.released == 0
    modifies table, activity, reservations
    ensures table.Valid() && table.row.Some? && table.row.value.id == item.id
    ensures reservations.reserved == 1 && reservations.executed == 0 && reservations.released == if r == None then 0
        else 1
    ensures r == None ==> activity.log == [Retained] && RunningAt(table.row.value, item.revision)
    ensures Undisturbed(s) && AtRead(old(table.row), item, false) && !Requested(item) ==>
              r == None && table.row == Some(Apply(item, MarkRunning(item.revision, AttemptOf(item.id, item.revision))))
    ensures r.Some? ==> Sound(r.value, table.row, activity.log)
    ensures r.Some? && Settled(r.value) ==>
        Stopped(r.value.outcome) && ActivityTells(activity.log, r.value.status.state, false)
  {
    table.Others(s.others2);
    table.Rows();
    var claimed :=
        MutateWith(table, activity, MarkRunning(item.revision, AttemptOf(item.id, item.revision)), RetainOnly, s.claim);
    if claimed.Applied? {
      return None;
    }
    reservations.Release();
    if claimed == Threw {
      return Some(Raised(MutationFailed));
    }
    table.Rows();
    if claimed.Stale? && claimed.item.state == PENDING && RequestedOutcome(claimed.item).Some? {
      var ended := EndWith(table, activity,
        CommitTerminal(claimed.item.revision, PENDING, None, RequestedOutcome(claimed.item).value), Early, s.fate,
            s.others3);
      return Some(ended);
    }
    return Some(ResultForMutation(claimed));
  }

  method ReserveAndRun(table: WorkItemTable, activity: AttemptActivity, reservations: Reservations, item: Item,
      recovering: bool, s: Script) returns (r: Result)
    requires table.Valid() && table.row.Some? && table.row.value.id == item.id && ProperScript(item.id, s)
        && item.revision >= 1
    requires activity.log == [] && reservations.reserved == reservations.executed == reservations.released == 0
    modifies table, activity, reservations
    ensures table.Valid() && Sound(r, table.row, activity.log)
    ensures Undisturbed(s) && AtRead(old(table.row), item, recovering) && Passes(item, s) ==> r == Verdict(item, s)
    ensures reservations.executed + reservations.released == reservations.reserved <= 1
    ensures Settled(r) && r.outcome.Some? && r.outcome.value.Success? ==>
        s.handler == Some(r.outcome.value.value) && reservations.executed == 1
    ensures Settled(r) ==> ActivityTells(activity.log, r.status.state, reservations.executed == 1)
    ensures Settled(r) && r.status.state == RETRY_WAIT ==>
              reservations.executed == 1 && s.handler.None? && PutOffAsAnswered(r.item, s.answer)
  {
    if s.reservation != Granted {
      if recovering {
        return Raised(HandlerMissing);
      }
      if s.reservation == GenerationRetired {
        r := EndWith(table, activity, MarkWaitingDependency(item.revision), Early, s.fate, s.others1);
        return;
      }
      return Raised(ReservationFailed);
    }
    reservations.Reserve();
    if !recovering {
      var refused := Claim(table, activity, reservations, item, s);
      if refused.Some? {
        return refused.value;
      }
    }
    r := RunClaimed(table, activity, reservations, item.id, item.revision, recovering, s);
  }

  predicate Unclaimable(row: Option<Item>, revision: int) {
    row.Some? && !Claimable(row, revision)
  }

  predicate Claimable(row: Option<Item>, revision: int) {
    row.Some? && row.value.revision == revision && (row.value.state == PENDING || row.value.state == RUNNING)
  }

  /**
   * One delivery of (work item, revision). Whatever happens at its awaits: each reservation is
   * executed or released exactly once, the Activity is retained before it is completed and each at
   * most once, a terminal row is only replayed, and a result reports the row exactly as it stands.
   */
  method Execute(table: WorkItemTable, activity: AttemptActivity, reservations: Reservations, expectedRevision: int,
      s: Script) returns (r: Result)
    requires table.Valid() && (table.row.Some? ==> ProperScript(table.row.value.id, s))
    requires activity.log == [] && reservations.reserved == reservations.executed == reservations.released == 0
    modifies table, activity, reservations
    ensures table.Valid()
    ensures reservations.executed + reservations.released == reservations.reserved <= 1
    ensures Sound(r, table.row, activity.log)
    // A terminal row is replayed untouched, without reservation or Activity.
    ensures expectedRevision >= 1 && s.readable && old(table.row).Some? && Terminal(old(table.row).value.state) ==>
              r == Returned(TERMINAL_REPLAY, old(table.row), old(table.row).value.outcome)
                  && table.row == old(table.row)
              && activity.log == [] && reservations.reserved == 0
    // Undisturbed, the execution comes to its verdict; any row it has no claim on is left alone.
    ensures Undisturbed(s) && expectedRevision >= 1 && Claimable(old(table.row), expectedRevision) ==>
              r == Verdict(old(table.row).value, s)
    ensures Undisturbed(s) && expectedRevision >= 1 && Unclaimable(old(table.row), expectedRevision) ==>
              table.row == old(table.row) && reservations.reserved == 0 && activity.log == []
              && r.Returned? && (r.status == TERMINAL_REPLAY || r.status == STALE_NOOP)
    // The completed Activity tells how the row was left, and a row put off waits as its handler asked.
    ensures Settled(r) ==> ActivityTells(activity.log, r.status.state, reservations.executed == 1)
    ensures Settled(r) && r.status.state == RETRY_WAIT && reservations.executed == 1 ==>
              s.handler.None? && PutOffAsAnswered(r.item, s.answer)
    ensures Settled(r) && r.status.state == RETRY_WAIT && reservations.executed == 0 ==>
              table.row.value.notBefore.Some? && table.row.value.notBefore.value > s.now
              && table.row.value.retryClass == Some(Transient)
    // Success is the handler's own output.
    ensures Settled(r) && r.outcome.Some? && r.outcome.value.Success? ==>
        s.handler == Some(r.outcome.value.value) && reservations.executed == 1
  {
    if expectedRevision < 1 {
      return Raised(InvalidRevision);
    }
    if table.row.Some? {
      table.Rows();
      TerminalStays(table.row.value, s.others0);
    }
    table.Others(s.others0);
    if !s.readable {
      return Raised(ReadFailed);
    }
    if table.row.None? {
      return Returned(NOT_FOUND, None, None);
    }
    var item := table.row.value;
    table.Rows();
    if Terminal(item.state) {
      return Returned(TERMINAL_REPLAY, Some(item), item.outcome);
    }
    if item.revision != expectedRevision {
      return Returned(STALE_NOOP, Some(item), None);
    }
    var recovering := item.state == RUNNING;
    if !recovering && item.state != PENDING {
      return Returned(STALE_NOOP, Some(item), None);
    }
    if recovering && item.attempt != Some(AttemptOf(item.id, item.revision)) {
      return Raised(AttemptMismatch);
    }
    if recovering && RequestedOutcome(item) == None && !s.resolved {
      return Raised(HandlerMissing);
    }
    var early := Preflight(table, activity, item, recovering, s);
    if early.Some? {
      return early.value;
    }
    r := ReserveAndRun(table, activity, reservations, item, recovering, s);
  }

  lemma TerminalStays(i: Item, ms: seq<Mutation>)
    requires AllProper(i.id, ms)
    ensures Terminal(i.state) ==> Run(i, ms) == i
  {
    if Terminal(i.state) {
      TerminalIsFinal(i, ms);
    }
  }
}
