/**
 * The in-process persistence service: admission, the active-transaction counter and the single
 * drain of the pool. A callback that closes the service from inside its own admission is not modelled.
 */
module PersistenceServices {
  import opened Options

  // ----- execution metadata -----

  datatype Mode = READ | MUTATION

  datatype Metadata = Metadata(installation: nat, instance: nat, boot: nat, epoch: nat, token: nat)

  datatype Admission = Admitted(execution: Option<Metadata>) | ContextRequired | StaleOrigin

  function AdmitExecution(mode: Mode, current: Option<Metadata>, authority: Metadata): (r: Admission)
    ensures r.Admitted? <==> current == Some(authority) || (current == None && mode != MUTATION)
    ensures r.Admitted? && mode == MUTATION ==> r.execution == Some(authority)
  {
    match current
    case None => if mode == MUTATION then ContextRequired else Admitted(None)
    case Some(m) =>
      if m.installation == authority.installation && m.instance == authority.instance && m.boot == authority.boot
         && m.epoch == authority.epoch && m.token == authority.token
      then Admitted(Some(m)) else StaleOrigin
  }

  // ----- the lifecycle -----

  datatype ServiceState = OPEN | FENCED | CLOSING | CLOSED

  // destroys counts the calls of database.destroy, settled says that the one call has settled.
  datatype Service = Service(
    state: ServiceState, drainRequested: bool, drainStarted: bool, active: nat, destroys: nat, settled: bool)

  datatype Event =
    | Fence
    | Close
    | Enter(authorityActive: bool, admitted: bool)
    | Leave
    | DestroySettled

  const NEW_SERVICE := Service(OPEN, false, false, 0, 0, false)

  function Rank(s: ServiceState): nat {
    match s
    case OPEN => 0
    case FENCED => 1
    case CLOSING => 2
    case CLOSED => 3
  }

  function MaybeStartDrain(s: Service): Service {
    if !s.drainRequested || s.drainStarted || s.active != 0 then s
    else s.(drainStarted := true, destroys := s.destroys + 1)
  }

  function Drained(s: Service): Service {
    if s.drainRequested then s else MaybeStartDrain(s.(drainRequested := true))
  }

  function Fenced(s: Service): Service {
    Drained(if s.state == OPEN then s.(state := FENCED) else s)
  }

  predicate Admits(s: Service, authorityActive: bool, admitted: bool) {
    s.state == OPEN && authorityActive && admitted
  }

  predicate Enabled(s: Service, e: Event) {
    match e
    case Leave => s.active > 0
    case DestroySettled => s.drainStarted && !s.settled
    case _ => true
  }

  function Apply(s: Service, e: Event): Service
    requires Enabled(s, e)
  {
    match e
    case Fence => Fenced(s)
    case Close => if s.state == CLOSED then s else Drained(s.(state := CLOSING))
    case Enter(authorityActive, admitted) =>
      if s.state != OPEN then s
      else if !authorityActive then Fenced(s)
      else if !admitted then s
      else s.(active := s.active + 1)
    case Leave => MaybeStartDrain(s.(active := s.active - 1))
    case DestroySettled => s.(state := CLOSED, settled := true)
  }

  ghost predicate Legal(s: Service, es: seq<Event>)
    decreases |es|
  {
    |es| == 0 || (Enabled(s, es[0]) && Legal(Apply(s, es[0]), es[1..]))
  }

  ghost function Run(s: Service, es: seq<Event>): Service
    requires Legal(s, es)
    decreases |es|
  {
    if |es| == 0 then s else Run(Apply(s, es[0]), es[1..])
  }

  predicate Inv(s: Service) {
    && (s.state != OPEN <==> s.drainRequested)
    && (s.drainStarted <==> s.drainRequested && s.active == 0)
    && s.destroys == (if s.drainStarted then 1 else 0)
    && (s.settled ==> s.drainStarted)
    && (s.state == CLOSED <==> s.settled)
  }

  // What every later state keeps of an earlier one.
  predicate Later(s: Service, s': Service) {
    && Rank(s.state) <= Rank(s'.state)
    && (s.drainRequested ==> s'.drainRequested && s'.active <= s.active)
    && (s.drainStarted ==> s'.drainStarted && s'.active == 0 && s'.destroys == s.destroys)
  }

  /**
   * In every run: drain is requested exactly when the service left OPEN, the pool is destroyed
   * at most once and only when idle, an idle drain is never left pending, states only advance,
   * and once a drain is requested the number of active transactions never grows.
   */
  lemma {:induction false} DrainIsCorrect(s: Service, es: seq<Event>)
    requires Inv(s) && Legal(s, es)
    ensures Inv(Run(s, es)) && Later(s, Run(s, es))
    decreases |es|
  {
    if |es| > 0 {
      DrainIsCorrect(Apply(s, es[0]), es[1..]);
    }
  }

  /** No transaction is admitted after drain was requested, whatever happens in between. */
  lemma NothingAdmittedAfterDrain(es: seq<Event>, fs: seq<Event>, authorityActive: bool, admitted: bool)
    requires Legal(NEW_SERVICE, es) && Run(NEW_SERVICE, es).drainRequested && Legal(Run(NEW_SERVICE, es), fs)
    ensures !Admits(Run(Run(NEW_SERVICE, es), fs), authorityActive, admitted)
  {
    DrainIsCorrect(NEW_SERVICE, es);
    DrainIsCorrect(Run(NEW_SERVICE, es), fs);
  }

  // The service is closed, its Host's signal aborts, or a caller finds the authority gone.
  predicate Ends(s: Service, e: Event) {
    e.Close? || e.Fence? || (e.Enter? && !e.authorityActive && s.state == OPEN)
  }

  ghost predicate EndsIn(s: Service, es: seq<Event>)
    requires Legal(s, es)
    decreases |es|
  {
    |es| > 0 && (Ends(s, es[0]) || EndsIn(Apply(s, es[0]), es[1..]))
  }

  /**
   * Drain is requested exactly by a close, an abort or a lost authority, at whatever moment of the
   * run; until then the service is open and admits whoever has authority and metadata.
   */
  lemma {:induction false} DrainRequestedIff(s: Service, es: seq<Event>)
    requires Inv(s) && Legal(s, es)
    ensures Run(s, es).drainRequested <==> s.drainRequested || EndsIn(s, es)
    ensures Run(s, es).state == OPEN <==> !s.drainRequested && !EndsIn(s, es)
    decreases |es|
  {
    DrainIsCorrect(s, es);
    if |es| > 0 {
      var s1 := Apply(s, es[0]);
      DrainIsCorrect(s, [es[0]]);
      assert [es[0]][1..] == [];
      DrainRequestedIff(s1, es[1..]);
    }
  }

  // Transactions admitted and finished in the run.
  ghost function Entered(s: Service, es: seq<Event>): nat
    requires Legal(s, es)
    decreases |es|
  {
    if |es| == 0 then 0
    else (if es[0].Enter? && Admits(s, es[0].authorityActive, es[0].admitted) then 1 else 0)
         + Entered(Apply(s, es[0]), es[1..])
  }

  ghost function Finished(es: seq<Event>): nat {
    if |es| == 0 then 0 else (if es[0].Leave? then 1 else 0) + Finished(es[1..])
  }

  /** The counter is exact: the transactions admitted are those finished and those still active. */
  lemma {:induction false} ActiveIsAdmittedMinusFinished(s: Service, es: seq<Event>)
    requires Legal(s, es)
    ensures s.active + Entered(s, es) == Finished(es) + Run(s, es).active
    decreases |es|
  {
    if |es| > 0 {
      ActiveIsAdmittedMinusFinished(Apply(s, es[0]), es[1..]);
    }
  }

  /** The last transaction to finish under a requested drain is the one that starts it. */
  lemma LastFinisherDrains(es: seq<Event>)
    requires Legal(NEW_SERVICE, es) && Run(NEW_SERVICE, es).drainRequested && Run(NEW_SERVICE, es).active > 0
    ensures var s := Run(NEW_SERVICE, es);
            && s.destroys == 0
            && (Apply(s, Leave).destroys == 1 <==> s.active == 1)
  {
    DrainIsCorrect(NEW_SERVICE, es);
  }

  // The closure's variables, as a class.
  class PersistenceService {
    var state: ServiceState
    var drainRequested: bool
    var drainStarted: bool
    var activeTransactions: nat
    var destroys: nat
    var settled: bool

    function View(): Service
      reads this
    {
      Service(state, drainRequested, drainStarted, activeTransactions, destroys, settled)
    }

    constructor (aborted: bool)
      ensures View() == if aborted then Fenced(NEW_SERVICE) else NEW_SERVICE
      ensures Inv(View())
    {
      state, drainRequested, drainStarted := OPEN, false, false;
      activeTransactions, destroys, settled := 0, 0, false;
      new;
      if aborted {
        OnAbort();
      }
    }

    method StartDrainIfIdle()
      modifies this
      ensures View() == MaybeStartDrain(old(View()))
    {
      if !drainRequested || drainStarted || activeTransactions != 0 {
        return;
      }
      drainStarted := true;
      destroys := destroys + 1;
    }

    method RequestDrain()
      modifies this
      ensures View() == Drained(old(View()))
    {
      if !drainRequested {
        drainRequested := true;
        StartDrainIfIdle();
      }
    }

    method OnAbort()
      modifies this
      ensures View() == Apply(old(View()), Fence)
      ensures old(Inv(View())) ==> Inv(View())
    {
      if state == OPEN {
        state := FENCED;
      }
      RequestDrain();
    }

    method CloseService()
      modifies this
      ensures View() == Apply(old(View()), Close)
      ensures old(Inv(View())) ==> Inv(View())
    {
      if state != CLOSED {
        state := CLOSING;
        RequestDrain();
      }
    }

    method EnterTransaction(mode: Mode, authorityActive: bool, current: Option<Metadata>, authority: Metadata)
        returns (admitted: bool)
      modifies this
      ensures admitted == Admits(old(View()), authorityActive, AdmitExecution(mode, current, authority).Admitted?)
      ensures admitted <==>
                && old(state) == OPEN && authorityActive
                && (current == Some(authority) || (current == None && mode == READ))
      ensures activeTransactions == old(activeTransactions) + if admitted then 1 else 0
      ensures View() == Apply(old(View()), Enter(authorityActive, AdmitExecution(mode, current, authority).Admitted?))
      ensures old(Inv(View())) ==> Inv(View())
    {
      if state != OPEN {
        return false;
      }
      if !authorityActive {
        OnAbort();
        return false;
      }
      if !AdmitExecution(mode, current, authority).Admitted? {
        return false;
      }
      activeTransactions := activeTransactions + 1;
      return true;
    }

    method LeaveTransaction()
      requires activeTransactions > 0
      modifies this
      ensures View() == Apply(old(View()), Leave)
      ensures old(Inv(View())) ==> Inv(View())
    {
      activeTransactions := activeTransactions - 1;
      StartDrainIfIdle();
    }

    method OnDestroySettled()
      requires drainStarted && !settled
      modifies this
      ensures View() == Apply(old(View()), DestroySettled)
      ensures old(Inv(View())) ==> Inv(View())
    {
      state := CLOSED;
      settled := true;
    }
  }
}
