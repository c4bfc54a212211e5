/**
 * The WorkItem row and the repository's compare-and-set statements on it.
 */
module WorkItems {
  import opened Options

  datatype ItemState =
    | PENDING | RUNNING | WAITING_DEPENDENCY | RETRY_WAIT | WAITING_RESTORE_RECONCILIATION
    | SUCCEEDED | FAILED | CANCELLED | SUPERSEDED

  datatype RetryClass =
    | Transient | RateLimited | DependencyUnavailable | NotConfigured | PolicyBlocked | Invalid | Permanent
    | ExternalEffectUncertain

  datatype Outcome =
    | Success(value: int)
    | Failure(retryClass: RetryClass, reason: string)
    | Cancellation(reason: string)
    | Supersession(successor: nat)

  // The digest of (work item id, revision) is injective, so it is kept as the pair.
  datatype AttemptId = AttemptOf(item: nat, revision: nat)

  datatype Item = Item(
    id: nat, revision: nat, state: ItemState, attempt: Option<AttemptId>, retryClass: Option<RetryClass>,
        reason: Option<string>,
    notBefore: Option<int>, cancelAt: Option<int>, cancelReason: Option<string>, supersededBy: Option<nat>,
        outcome: Option<Outcome>)

  predicate Terminal(s: ItemState) {
    s == SUCCEEDED || s == FAILED || s == CANCELLED || s == SUPERSEDED
  }

  function Kind(o: Outcome): ItemState {
    match o
    case Success(_) => SUCCEEDED
    case Failure(_, _) => FAILED
    case Cancellation(_) => CANCELLED
    case Supersession(_) => SUPERSEDED
  }

  // revision, from and attempt are the guard of the WHERE clause.
  datatype Mutation =
    | MarkRunning(revision: nat, claim: AttemptId)
    | MarkWaitingDependency(revision: nat)
    | WakeDependency(revision: nat)
    | MarkRetryWait(revision: nat, from: ItemState, attempt: Option<AttemptId>, retryClass: RetryClass, reason: string,
        notBefore: int)
    | WakeDueRetry(revision: nat, now: int)
    | RequestCancel(revision: nat, from: ItemState, attempt: Option<AttemptId>, at: int, reason: string)
    | RequestSupersede(revision: nat, from: ItemState, attempt: Option<AttemptId>, successor: nat)
    | CommitTerminal(revision: nat, from: ItemState, attempt: Option<AttemptId>, outcome: Outcome)

  predicate GuardOk(from: ItemState, attempt: Option<AttemptId>) {
    from == RUNNING <==> attempt.Some?
  }

  // What the input types and assertGuard let through.
  predicate Admissible(m: Mutation) {
    m.revision >= 1 &&
    match m
    case MarkRetryWait(_, from, attempt, _, _, _) => (from == PENDING || from == RUNNING) && GuardOk(from, attempt)
    case RequestCancel(_, from, attempt, _, _) => !Terminal(from) && GuardOk(from, attempt)
    case RequestSupersede(_, from, attempt, _) => !Terminal(from) && GuardOk(from, attempt)
    case CommitTerminal(_, from, attempt, _) =>
      (from == PENDING || from == RUNNING || from == RETRY_WAIT || from == WAITING_DEPENDENCY) && GuardOk(from, attempt)
    case _ => true
  }

  predicate Requested(i: Item) {
    i.cancelAt.Some? || i.supersededBy.Some?
  }

  predicate AtGuard(i: Item, from: ItemState, attempt: Option<AttemptId>) {
    i.state == from && (attempt.Some? ==> i.attempt == attempt)
  }

  // The WHERE clause of each statement.
  predicate Matches(i: Item, m: Mutation) {
    i.revision == m.revision &&
    match m
    case MarkRunning(_, _) => i.state == PENDING && !Requested(i)
    case MarkWaitingDependency(_) => i.state == PENDING && !Requested(i)
    case WakeDependency(_) => i.state == WAITING_DEPENDENCY && !Requested(i)
    case MarkRetryWait(_, from, attempt, _, _, _) => AtGuard(i, from, attempt)
    case WakeDueRetry(_, now) => i.state == RETRY_WAIT && !Requested(i) && i.notBefore.Some? && i.notBefore.value <= now
    case RequestCancel(_, from, attempt, _, _) => AtGuard(i, from, attempt) && !Requested(i)
    case RequestSupersede(_, from, attempt, _) => AtGuard(i, from, attempt) && !Requested(i)
    case CommitTerminal(_, from, attempt, _) => AtGuard(i, from, attempt)
  }

  const CANCELLATION_REQUESTED := "cancellation-requested"
  const SUPERSEDED_BY_REQUEST := "superseded-by-request"

  // The terminal row a pending request asks for; a cancel goes before a supersession.
  function RequestedOutcome(i: Item): Option<Outcome> {
    if i.cancelAt.Some? then
        Some(Cancellation(if i.cancelReason.Some? then i.cancelReason.value else CANCELLATION_REQUESTED))
    else if i.supersededBy.Some? then Some(Supersession(i.supersededBy.value))
    else None
  }

  function OutcomeReason(o: Outcome): Option<string> {
    match o
    case Success(_) => None
    case Failure(_, reason) => Some(reason)
    case Cancellation(reason) => Some(reason)
    case Supersession(_) => Some(SUPERSEDED_BY_REQUEST)
  }

  function Ended(i: Item, o: Outcome): Item {
    i.(state := Kind(o), attempt := None, retryClass := if o.Failure? then Some(o.retryClass)
        else None, reason := OutcomeReason(o), outcome := Some(o))
  }

  // A cancel or supersession ends a row that is not running at once, and only marks one that is.
  predicate StopsAtOnce(s: ItemState) {
    s == PENDING || s == WAITING_DEPENDENCY || s == RETRY_WAIT
  }

  // The SET clause of each statement.
  function Written(i: Item, m: Mutation): Item {
    match m
    case MarkRunning(_, claim) => i.(state := RUNNING, attempt := Some(claim), reason := None)
    case MarkWaitingDependency(_) => i.(state := WAITING_DEPENDENCY, reason := Some("handler-unavailable"))
    case WakeDependency(_) => i.(state := PENDING, revision := i.revision + 1, reason := None)
    case MarkRetryWait(_, _, _, retryClass, reason, notBefore) =>
      if Requested(i) then Ended(i, RequestedOutcome(i).value)
      else i.(state := RETRY_WAIT, attempt := None, retryClass := Some(retryClass), reason := Some(reason),
          notBefore := Some(notBefore), outcome := None)
    case WakeDueRetry(_, _) =>
        i.(state := PENDING, revision := i.revision + 1, attempt := None, retryClass := None, reason := None)
    case RequestCancel(_, _, _, at, reason) =>
      var i1 := i.(cancelAt := Some(at), cancelReason := Some(reason));
      if StopsAtOnce(i.state) then
          i1.(state := CANCELLED, retryClass := None, reason := Some(reason), outcome := Some(Cancellation(reason)))
          else i1
    case RequestSupersede(_, _, _, successor) =>
      var i1 := i.(supersededBy := Some(successor));
      if StopsAtOnce(i.state) then
          i1.(state := SUPERSEDED, retryClass := None, reason := Some(SUPERSEDED_BY_REQUEST), outcome :=
          Some(Supersession(successor))) else i1
    case CommitTerminal(_, _, _, outcome) => Ended(i, if Requested(i) then RequestedOutcome(i).value else outcome)
  }

  function Apply(i: Item, m: Mutation): Item {
    if Matches(i, m) then Written(i, m) else i
  }

  ghost function Run(i: Item, ms: seq<Mutation>): Item
    decreases |ms|
  {
    if ms == [] then i else Run(Apply(i, ms[0]), ms[1..])
  }

  // Claims carry the deterministic identity of their item and revision.
  predicate Proper(id: nat, m: Mutation) {
    Admissible(m) && (m.MarkRunning? ==> m.claim == AttemptOf(id, m.revision))
  }

  ghost predicate AllProper(id: nat, ms: seq<Mutation>) {
    forall m <- ms :: Proper(id, m)
  }

  // ----- what a row must look like to be read back -----

  // The cross-field checks of the row parser.
  predicate Coherent(i: Item) {
    && (i.attempt.Some? <==> i.state == RUNNING)
    && (i.outcome.Some? <==> Terminal(i.state))
    && (i.outcome.Some? ==> Kind(i.outcome.value) == i.state)
    && (i.state == FAILED ==>
        i.outcome.Some? && i.outcome.value.Failure? && i.retryClass == Some(i.outcome.value.retryClass))
    && (i.state == SUCCEEDED || i.state == CANCELLED || i.state == SUPERSEDED ==> i.retryClass == None)
    && (i.state == RETRY_WAIT ==> i.retryClass.Some? && i.notBefore.Some?)
    && !(i.cancelAt.Some? && i.supersededBy.Some?)
    && i.revision >= 1
  }

  predicate OwnAttempt(i: Item) {
    i.attempt.Some? ==> i.attempt.value == AttemptOf(i.id, i.revision)
  }

  /**
   * Every statement leaves a row the parser accepts, and a running row always carries the attempt
   * of its own revision.
   */
  lemma {:induction false} RowsStayCoherent(i: Item, ms: seq<Mutation>)
    requires Coherent(i) && OwnAttempt(i) && AllProper(i.id, ms)
    ensures Coherent(Run(i, ms)) && OwnAttempt(Run(i, ms)) && Run(i, ms).id == i.id
    decreases |ms|
  {
    if ms != [] {
      assert Proper(i.id, ms[0]);
      RowsStayCoherent(Apply(i, ms[0]), ms[1..]);
    }
  }

  // ----- histories of one row -----

  function Phase(s: ItemState): nat {
    if s == PENDING then 0 else if s == RUNNING then 1 else if Terminal(s) then 3 else 2
  }

  function Rank(i: Item): nat {
    4 * i.revision + Phase(i.state)
  }

  lemma StepRanks(i: Item, m: Mutation)
    requires Admissible(m)
    ensures (Apply(i, m).state == i.state && Apply(i, m).revision == i.revision) || Rank(i) < Rank(Apply(i, m))
    ensures Terminal(i.state) ==> Apply(i, m) == i
    ensures i.revision <= Apply(i, m).revision
  {
  }

  /** A terminal row never changes again, whoever writes. */
  lemma {:induction false} TerminalIsFinal(i: Item, ms: seq<Mutation>)
    requires AllProper(i.id, ms) && Terminal(i.state)
    ensures Run(i, ms) == i
    decreases |ms|
  {
    if ms != [] {
      assert Proper(i.id, ms[0]);
      StepRanks(i, ms[0]);
      TerminalIsFinal(i, ms[1..]);
    }
  }

  predicate Enters(i: Item, m: Mutation, r: nat) {
    i.state != RUNNING && Apply(i, m).state == RUNNING && Apply(i, m).revision == r
  }

  predicate Leaves(i: Item, m: Mutation, r: nat) {
    i.state == RUNNING && i.revision == r && Apply(i, m).state != RUNNING
  }

  ghost function Claims(i: Item, ms: seq<Mutation>, r: nat): nat
    decreases |ms|
  {
    if ms == [] then 0 else (if Enters(i, ms[0], r) then 1 else 0) + Claims(Apply(i, ms[0]), ms[1..], r)
  }

  ghost function Results(i: Item, ms: seq<Mutation>, r: nat): nat
    decreases |ms|
  {
    if ms == [] then 0 else (if Leaves(i, ms[0], r) then 1 else 0) + Results(Apply(i, ms[0]), ms[1..], r)
  }

  /**
   * However often attempts of a revision are delivered, raced or restarted, and whoever cancels or
   * wakes the row in between: the revision is claimed at most once and leaves RUNNING at most once.
   */
  lemma {:induction false} OneResultPerRevision(i: Item, ms: seq<Mutation>, r: nat)
    requires AllProper(i.id, ms)
    ensures Claims(i, ms, r) <= 1 && Results(i, ms, r) <= 1
    ensures Rank(i) >= 4 * r + 1 ==> Claims(i, ms, r) == 0
    ensures Rank(i) >= 4 * r + 2 ==> Results(i, ms, r) == 0
    decreases |ms|
  {
    if ms != [] {
      assert Proper(i.id, ms[0]);
      StepRanks(i, ms[0]);
      OneResultPerRevision(Apply(i, ms[0]), ms[1..], r);
    }
  }

  predicate RunningAt(i: Item, r: nat) {
    i.state == RUNNING && i.revision == r
  }

  /** Claims are conserved: each one, or a row already running, has left RUNNING or is running still. */
  lemma {:induction false} ClaimsAreSettledOrRunning(i: Item, ms: seq<Mutation>, r: nat)
    requires AllProper(i.id, ms)
    ensures Claims(i, ms, r) + (if RunningAt(i, r) then 1
        else 0) == Results(i, ms, r) + (if RunningAt(Run(i, ms), r) then 1 else 0)
    decreases |ms|
  {
    if ms != [] {
      assert Proper(i.id, ms[0]);
      ClaimsAreSettledOrRunning(Apply(i, ms[0]), ms[1..], r);
    }
  }

  /** A row that could be stopped at once never waits with a request: cancels and supersessions end it on the spot. */
  lemma {:induction false} RequestsNeverWait(i: Item, ms: seq<Mutation>)
    requires AllProper(i.id, ms) && (Requested(i) ==> !StopsAtOnce(i.state))
    ensures Requested(Run(i, ms)) ==> !StopsAtOnce(Run(i, ms).state)
    decreases |ms|
  {
    if ms != [] {
      assert Proper(i.id, ms[0]);
      RequestsNeverWait(Apply(i, ms[0]), ms[1..]);
    }
  }

  /** Once a stop is requested for a running row, its only possible end is that stop. */
  lemma {:induction false} RequestsWin(i: Item, ms: seq<Mutation>)
    requires AllProper(i.id, ms) && Coherent(i) && i.state == RUNNING && Requested(i)
    ensures var i' := Run(i, ms);
      || i' == i
      || (i.cancelAt.Some? && i'.state == CANCELLED
          && i'.outcome == Some(Cancellation(i.cancelReason.UnwrapOr(CANCELLATION_REQUESTED))))
      || (i.supersededBy.Some? && i'.state == SUPERSEDED
          && i'.outcome == Some(Supersession(i.supersededBy.value)))
    decreases |ms|
  {
    if ms != [] {
      assert Proper(i.id, ms[0]);
      var i1 := Apply(i, ms[0]);
      if i1 == i {
        RequestsWin(i, ms[1..]);
      } else {
        TerminalIsFinal(i1, ms[1..]);
      }
    }
  }

  /**
   * A cancel of a row nobody stopped before is applied. If the row was running, it runs on under
   * the request or is cancelled for its reason; if it was waiting, it is cancelled at once.
   */
  lemma CancelsAreKept(i: Item, at: int, reason: string, ms: seq<Mutation>)
    requires AllProper(i.id, ms) && Coherent(i) && !Requested(i) && (i.state == RUNNING || StopsAtOnce(i.state))
    ensures var i' := Run(Apply(i, RequestCancel(i.revision, i.state, i.attempt, at, reason)), ms);
      || (i.state == RUNNING && i'.state == RUNNING && i'.cancelAt == Some(at) && i'.cancelReason == Some(reason))
      || (i'.state == CANCELLED && i'.outcome == Some(Cancellation(reason)) && i'.reason == Some(reason))
  {
    var i1 := Apply(i, RequestCancel(i.revision, i.state, i.attempt, at, reason));
    if i.state == RUNNING {
      RequestsWin(i1, ms);
      StopReasons(i1, ms);
    } else {
      TerminalIsFinal(i1, ms);
    }
  }

  /** The same for a supersession: it ends as superseded by that successor. */
  lemma SupersessionsAreKept(i: Item, successor: nat, ms: seq<Mutation>)
    requires AllProper(i.id, ms) && Coherent(i) && !Requested(i) && (i.state == RUNNING || StopsAtOnce(i.state))
    ensures var i' := Run(Apply(i, RequestSupersede(i.revision, i.state, i.attempt, successor)), ms);
      || (i.state == RUNNING && i'.state == RUNNING && i'.supersededBy == Some(successor))
      || (i'.state == SUPERSEDED && i'.outcome == Some(Supersession(successor))
          && i'.reason == Some("superseded-by-request"))
  {
    var i1 := Apply(i, RequestSupersede(i.revision, i.state, i.attempt, successor));
    if i.state == RUNNING {
      RequestsWin(i1, ms);
      StopReasons(i1, ms);
    } else {
      TerminalIsFinal(i1, ms);
    }
  }

  // A stopped row's reason is the one its outcome gives.
  lemma {:induction false} StopReasons(i: Item, ms: seq<Mutation>)
    requires AllProper(i.id, ms) && Coherent(i) && i.state == RUNNING && Requested(i)
    ensures var i' := Run(i, ms);
      i' == i || i'.reason == (if i.cancelAt.Some? then Some(i.cancelReason.UnwrapOr("cancellation-requested"))
                               else Some("superseded-by-request"))
    decreases |ms|
  {
    if ms != [] {
      assert Proper(i.id, ms[0]);
      var i1 := Apply(i, ms[0]);
      if i1 == i {
        StopReasons(i, ms[1..]);
      } else {
        TerminalIsFinal(i1, ms[1..]);
      }
    }
  }

  /**
   * A row put off waits as it was told to, and a wake finds it exactly when its time has come: it
   * is then pending at the next revision, with nothing left of the failure.
   */
  lemma RetriesWaitUntilDue(i: Item, retryClass: RetryClass, reason: string, notBefore: int, now: int)
    requires Coherent(i) && !Requested(i) && (i.state == PENDING || i.state == RUNNING)
    ensures var i1 := Apply(i, MarkRetryWait(i.revision, i.state, i.attempt, retryClass, reason, notBefore));
      var i2 := Apply(i1, WakeDueRetry(i.revision, now));
      && i1.state == RETRY_WAIT && i1.retryClass == Some(retryClass) && i1.reason == Some(reason)
      && i1.notBefore == Some(notBefore) && i1.attempt == None && i1.revision == i.revision && i1.outcome == None
      && (now < notBefore ==> i2 == i1)
      && (now >= notBefore ==>
            i2.state == PENDING && i2.revision == i.revision + 1 && i2.notBefore == Some(notBefore)
            && i2.retryClass == None && i2.reason == None && i2.attempt == None)
  {
  }

  /** A pending row can wait for a handler, and waking it makes it pending at the next revision. */
  lemma DependenciesAreAwaited(i: Item)
    requires Coherent(i) && !Requested(i) && i.state == PENDING
    ensures var i1 := Apply(i, MarkWaitingDependency(i.revision));
      var i2 := Apply(i1, WakeDependency(i.revision));
      && i1.state == WAITING_DEPENDENCY && i1.revision == i.revision && i1.reason == Some("handler-unavailable")
      && i2.state == PENDING && i2.revision == i.revision + 1 && i2.reason == None
  {
  }

  /**
   * A claimed attempt of a row nobody stopped ends in exactly the outcome it commits, whatever is
   * written to the row afterwards.
   */
  lemma {:induction false} ClaimedResultsAreRecorded(i: Item, o: Outcome, ms: seq<Mutation>)
    requires AllProper(i.id, ms) && Coherent(i) && OwnAttempt(i) && i.state == PENDING && !Requested(i)
    ensures var a := AttemptOf(i.id, i.revision);
      var i1 := Apply(i, MarkRunning(i.revision, a));
      var i2 := Run(Apply(i1, CommitTerminal(i.revision, RUNNING, Some(a), o)), ms);
      && i1.state == RUNNING && i1.attempt == Some(a) && i1.revision == i.revision
      && i2.outcome == Some(o) && i2.attempt == None && i2.revision == i.revision
      && (i2.state == SUCCEEDED <==> o.Success?) && (i2.state == FAILED <==> o.Failure?)
      && (i2.state == CANCELLED <==> o.Cancellation?) && (i2.state == SUPERSEDED <==> o.Supersession?)
      && (o.Failure? ==> i2.retryClass == Some(o.retryClass) && i2.reason == Some(o.reason))
  {
    var i1 := Apply(i, MarkRunning(i.revision, AttemptOf(i.id, i.revision)));
    TerminalIsFinal(Apply(i1, CommitTerminal(i.revision, RUNNING, Some(AttemptOf(i.id, i.revision)), o)), ms);
  }

  // The state a statement's WHERE clause asks for.
  predicate AimsAt(m: Mutation, i: Item) {
    match m
    case MarkRunning(_, _) => i.state == PENDING
    case MarkWaitingDependency(_) => i.state == PENDING
    case WakeDependency(_) => i.state == WAITING_DEPENDENCY
    case WakeDueRetry(_, _) => i.state == RETRY_WAIT
    case _ => i.state == m.from && (m.from == RUNNING ==> i.attempt == m.attempt)
  }

  /**
   * A statement changes only the revision, state and attempt it was made for, and of a row under a
   * stop request only one that ends an attempt.
   */
  lemma StaleStatementsDoNothing(i: Item, m: Mutation)
    requires Admissible(m) && Coherent(i) && Apply(i, m) != i
    ensures i.revision == m.revision && AimsAt(m, i) && !Terminal(i.state)
    ensures Requested(i) ==> m.MarkRetryWait? || m.CommitTerminal?
  {
  }

  // ----- the table the executor talks to -----

  datatype CasResult = Applied(item: Item) | Stale(item: Item) | AlreadyTerminal(item: Item) | NotFound | Threw

  // How a mutation transaction ends for its caller: it settles, fails before COMMIT, or loses the acknowledgement.
  datatype Fate = Settles | FailsBefore | LosesAnswer(applied: bool)

  // One row; written lists the statements sent to it, others' included, in order.
  class WorkItemTable {
    var row: Option<Item>
    ghost const first: Option<Item>
    ghost var written: seq<Mutation>

    ghost predicate Valid()
      reads this
    {
      if first.None? then row.None?
      else
        && AllProper(first.value.id, written) && Coherent(first.value) && OwnAttempt(first.value)
        && row == Some(Run(first.value, written))
    }

    constructor (row: Option<Item>)
      requires row.Some? ==> Coherent(row.value) && OwnAttempt(row.value)
      ensures Valid() && this.row == row && written == [] && first == row
    {
      this.row := row;
      first := row;
      written := [];
    }

    // Other executors, the reconciler and cancelling callers act between two awaits.
    method Others(ms: seq<Mutation>)
      requires Valid() && (row.Some? ==> AllProper(row.value.id, ms))
      modifies this
      ensures Valid()
      ensures row == if old(row).None? then None else Some(Run(old(row).value, ms))
      ensures row.Some? ==> row.value.id == old(row).value.id
      ensures written == old(written) + if old(row).None? then [] else ms
    {
      if row.None? {
        return;
      }
      var i := 0;
      ghost var before := row.value;
      Rows();
      while i < |ms|
        invariant 0 <= i <= |ms| && Valid() && row.Some? && row.value.id == before.id
        invariant row == Some(Run(before, ms[..i]))
        invariant written == old(written) + ms[..i]
      {
        assert ms[..i + 1] == ms[..i] + [ms[i]];
        RunAppend(before, ms[..i], ms[i]);
        assert Proper(before.id, ms[i]);
        Write(ms[i]);
        i := i + 1;
      }
      assert ms[..|ms|] == ms;
    }

    method Write(m: Mutation)
      requires Valid() && row.Some? && Proper(row.value.id, m)
      modifies this
      ensures Valid() && row == Some(Apply(old(row).value, m)) && row.value.id == old(row).value.id
      ensures written == old(written) + [m]
    {
      Rows();
      RunAppend(first.value, written, m);
      if Matches(row.value, m) {
        row := Some(Written(row.value, m));
      }
      written := written + [m];
    }

    lemma Rows()
      requires Valid() && row.Some?
      ensures Coherent(row.value) && OwnAttempt(row.value) && row.value.id == first.value.id
    {
      RowsStayCoherent(first.value, written);
    }

    // applyCas and casOutcome: one statement in one transaction.
    method Mutate(m: Mutation, fate: Fate) returns (r: CasResult)
      requires Valid() && (row.Some? ==> Proper(row.value.id, m))
      modifies this
      ensures Valid()
      ensures var sent := old(row).Some? && fate != FailsBefore && fate != LosesAnswer(false);
        && row == (if sent then Some(Apply(old(row).value, m)) else old(row))
        && written == old(written) + (if sent then [m] else [])
      ensures r == Threw <==> fate != Settles
      ensures r == NotFound <==> fate == Settles && old(row).None?
      ensures r.Applied? <==> fate == Settles && old(row).Some? && Matches(old(row).value, m)
      ensures r.Applied? ==> Some(r.item) == row
      ensures r.Stale? ==> Some(r.item) == row == old(row) && !Terminal(r.item.state)
      ensures r.AlreadyTerminal? ==> Some(r.item) == row == old(row) && Terminal(r.item.state)
    {
      if row.None? {
        return if fate == Settles then NotFound else Threw;
      }
      var before := row.value;
      if fate != FailsBefore && fate != LosesAnswer(false) {
        Write(m);
      }
      if fate != Settles {
        return Threw;
      }
      if Matches(before, m) {
        return Applied(row.value);
      }
      return if Terminal(row.value.state) then AlreadyTerminal(row.value) else Stale(row.value);
    }
  }

  lemma {:induction false} RunAppend(i: Item, ms: seq<Mutation>, m: Mutation)
    ensures Run(i, ms + [m]) == Apply(Run(i, ms), m)
    decreases |ms|
  {
    if ms == [] {
      assert ms + [m] == [m];
      assert [m][1..] == [];
    } else {
      assert (ms + [m])[1..] == ms[1..] + [m];
      RunAppend(Apply(i, ms[0]), ms[1..], m);
    }
  }
}
