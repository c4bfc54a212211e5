/**
 * The dedicated Host lease connection: its transition table, and the closure of event
 * handlers, queries, acquisition and close around it.
 */
module HostLease {
  import opened Options

  datatype LeaseState = ACQUIRING | ACTIVE | FENCED | CLOSING | CLOSED

  datatype LeaseEvent = LEASE_ACQUIRED | ACQUISITION_FAILED | LEASE_LOST | CLOSE_REQUESTED | CLOSE_FAILED | CLOSE_DONE

  // The machine's table; None is an event the tracker rejects.
  function Next(s: LeaseState, e: LeaseEvent): Option<LeaseState> {
    match (s, e)
    case (ACQUIRING, LEASE_ACQUIRED) => Some(ACTIVE)
    case (ACQUIRING, ACQUISITION_FAILED) => Some(CLOSED)
    case (ACQUIRING, LEASE_LOST) => Some(FENCED)
    case (ACQUIRING, CLOSE_REQUESTED) => Some(CLOSING)
    case (ACTIVE, LEASE_LOST) => Some(FENCED)
    case (ACTIVE, CLOSE_REQUESTED) => Some(CLOSING)
    case (FENCED, CLOSE_REQUESTED) => Some(CLOSING)
    case (CLOSING, CLOSE_FAILED) => Some(FENCED)
    case (CLOSING, CLOSE_DONE) => Some(CLOSED)
    case _ => None
  }

  // Where the acquisition stands: its two awaits, and its end.
  datatype Progress = Connecting | Locking | Finished

  // aborted is the abort signal; closeRequested says that closePromise exists; ends counts client.end calls made by
  // close.
  datatype Lease = Lease(state: LeaseState, progress: Progress, aborted: bool, closeRequested: bool,
      closeSettled: bool, ends: nat)

  const NEW_LEASE := Lease(ACQUIRING, Connecting, false, false, false, 0)

  datatype LockAnswer = Unreadable | Busy | Acquired

  // authority lists the results of the assertCurrent calls of a piece, in order.
  datatype Event =
    | ClientEvent
    | FenceCalled
    | QueryCompleted(ok: bool)
    | CloseCalled
    | EndSettled(ok: bool)
    | Connected(ok: bool, authority: bool)
    | LockQueried(ok: bool, authority1: bool, answer: LockAnswer, authority2: bool, authority3: bool)

  function Fenced(l: Lease): Lease {
    if l.state == ACQUIRING || l.state == ACTIVE then l.(state := FENCED, aborted := true) else l
  }

  function CloseStarted(l: Lease): Lease {
    if l.closeRequested then l
    else l.(state := if l.state == CLOSING || l.state == CLOSED then l.state
        else CLOSING, closeRequested := true, ends := l.ends + 1)
  }

  // The catch clause of the acquisition.
  function AcquisitionFailed(l: Lease): Lease {
    var l1 := Fenced(l).(progress := Finished);
    if l.state == ACTIVE then CloseStarted(l.(progress := Finished))
    else if l1.state != CLOSED then CloseStarted(l1) else l1
  }

  predicate Enabled(l: Lease, e: Event) {
    match e
    case EndSettled(_) => l.closeRequested && !l.closeSettled
    case Connected(_, _) => l.progress == Connecting
    case LockQueried(_, _, _, _, _) => l.progress == Locking
    case CloseCalled => l.progress == Finished
    case QueryCompleted(_) => l.progress == Finished
    case _ => true
  }

  function Apply(l: Lease, e: Event): Lease
    requires Enabled(l, e)
  {
    match e
    case ClientEvent => if l.state == CLOSING || l.state == CLOSED then l else Fenced(l)
    case FenceCalled => Fenced(l)
    case QueryCompleted(ok) => if !ok && l.state == ACTIVE then Fenced(l) else l
    case CloseCalled => CloseStarted(l)
    case EndSettled(ok) =>
      if l.state != CLOSING then l.(closeSettled := true)
      else if ok then l.(state := CLOSED, closeSettled := true)
      else l.(state := FENCED, aborted := true, closeSettled := true)
    case Connected(ok, authority) =>
      if !ok || l.state != ACQUIRING || !authority then AcquisitionFailed(l) else l.(progress := Locking)
    case LockQueried(ok, authority1, answer, authority2, authority3) =>
      if !ok || !authority1 || l.state != ACQUIRING || answer == Unreadable then AcquisitionFailed(l)
      else if answer == Busy then l.(state := CLOSED, progress := Finished)
      else if !authority2 then AcquisitionFailed(l)
      else if !authority3 then AcquisitionFailed(l.(state := ACTIVE))
      else l.(state := ACTIVE, progress := Finished)
  }

  ghost predicate Legal(l: Lease, es: seq<Event>)
    decreases |es|
  {
    |es| == 0 || (Enabled(l, es[0]) && Legal(Apply(l, es[0]), es[1..]))
  }

  ghost function Run(l: Lease, es: seq<Event>): Lease
    requires Legal(l, es)
    decreases |es|
  {
    if |es| == 0 then l else Run(Apply(l, es[0]), es[1..])
  }

  predicate Inv(l: Lease) {
    && (l.state == FENCED ==> l.aborted)
    && (l.state == ACTIVE ==> !l.aborted && l.progress == Finished && !l.closeRequested)
    && (l.state == ACQUIRING ==> !l.aborted && l.progress != Finished)
    && (l.state == CLOSED ==> l.progress == Finished)
    && (l.closeSettled ==> l.closeRequested)
    && (l.state == CLOSING ==> l.closeRequested && !l.closeSettled)
    && l.ends == (if l.closeRequested then 1 else 0)
    && (l.closeRequested ==> l.progress == Finished)
  }

  // The lease has been held or lost its chance; it is not active.
  predicate Over(l: Lease) {
    l.state != ACTIVE && l.progress == Finished
  }

  /**
   * Over any order of events: FENCED implies an aborted signal, the client is ended at most
   * once, an abort is never taken back, and a lease that is over never becomes active again.
   */
  lemma {:induction false} LeaseIsSafe(l: Lease, es: seq<Event>)
    requires Inv(l) && Legal(l, es)
    ensures Inv(Run(l, es))
    ensures l.aborted ==> Run(l, es).aborted
    ensures Over(l) ==> Over(Run(l, es))
    ensures l.state == FENCED ==> Run(l, es).state != ACTIVE
    decreases |es|
  {
    if |es| > 0 {
      LeaseIsSafe(Apply(l, es[0]), es[1..]);
    }
  }

  /** A lease that was fenced while acquiring is never acquired, even when the lock query succeeds. */
  lemma {:induction false} FencedAcquisitionNeverCompletes(l: Lease, es: seq<Event>)
    requires Inv(l) && Legal(l, es) && l.state in {FENCED, CLOSING, CLOSED}
    ensures Run(l, es).state in {FENCED, CLOSING, CLOSED}
    decreases |es|
  {
    if |es| > 0 {
      FencedAcquisitionNeverCompletes(Apply(l, es[0]), es[1..]);
    }
  }

  // ----- what becomes of a lease, told by its events alone -----

  // The client fails, or a holder gives the lease up: a lease not yet lost or closing is fenced by it.
  predicate Breaks(e: Event) {
    e.ClientEvent? || e.FenceCalled? || (e.QueryCompleted? && !e.ok)
  }

  /** Losing the client, at whatever moment before a close, fences the lease and aborts its signal. */
  lemma LostLeasesAreFenced(l: Lease, e: Event)
    requires Inv(l) && Enabled(l, e) && Breaks(e) && l.state in {ACQUIRING, ACTIVE}
    ensures Apply(l, e).state == FENCED && Apply(l, e).aborted
  {
  }

  ghost predicate BreaksWhileHeld(l: Lease, es: seq<Event>)
    requires Legal(l, es)
    decreases |es|
  {
    |es| > 0 && ((Breaks(es[0]) && l.state in {ACQUIRING, ACTIVE}) || BreaksWhileHeld(Apply(l, es[0]), es[1..]))
  }

  /** From then on, in every run, the signal stays aborted and the lease is never active again. */
  lemma {:induction false} LostForGood(l: Lease, es: seq<Event>)
    requires Inv(l) && Legal(l, es) && BreaksWhileHeld(l, es)
    ensures Run(l, es).aborted && Run(l, es).state in {FENCED, CLOSING, CLOSED}
    decreases |es|
  {
    var l1 := Apply(l, es[0]);
    LeaseIsSafe(l, [es[0]]);
    assert [es[0]][1..] == [];
    if Breaks(es[0]) && l.state in {ACQUIRING, ACTIVE} {
      LostLeasesAreFenced(l, es[0]);
      LeaseIsSafe(l1, es[1..]);
      FencedAcquisitionNeverCompletes(l1, es[1..]);
    } else {
      LostForGood(l1, es[1..]);
    }
  }

  // Nothing has happened to the lease but what an acquisition and its queries bring when all goes well.
  predicate Harmless(e: Event) {
    match e
    case QueryCompleted(ok) => ok
    case Connected(ok, authority) => ok && authority
    case LockQueried(ok, authority1, answer, authority2, authority3) =>
        ok && authority1 && answer == Acquired && authority2 && authority3
    case _ => false
  }

  ghost predicate AllHarmless(es: seq<Event>) {
    forall e <- es :: Harmless(e)
  }

  ghost predicate Locked(es: seq<Event>) {
    exists e :: e in es && e.LockQueried?
  }

  /**
   * A lease is active after a run exactly if it was connected and locked with every authority
   * check passed, and nothing else happened to it: no client event, fence, close or failed query.
   */
  lemma {:induction false} HeldIff(es: seq<Event>)
    requires Legal(NEW_LEASE, es)
    ensures Run(NEW_LEASE, es).state == ACTIVE <==> AllHarmless(es) && Locked(es)
  {
    HeldFrom(NEW_LEASE, es);
  }

  lemma {:induction false} HeldFrom(l: Lease, es: seq<Event>)
    requires Inv(l) && Legal(l, es) && l.state in {ACQUIRING, ACTIVE}
    ensures Run(l, es).state == ACTIVE <==> AllHarmless(es) && (l.state == ACTIVE || Locked(es))
    decreases |es|
  {
    if |es| > 0 {
      var e, l1 := es[0], Apply(l, es[0]);
      assert forall f :: f in es <==> f == e || f in es[1..];
      LeaseIsSafe(l, [e]);
      assert [e][1..] == [];
      if Harmless(e) {
        HeldFrom(l1, es[1..]);
      } else {
        assert l1.state in {FENCED, CLOSING, CLOSED};
        FencedAcquisitionNeverCompletes(l1, es[1..]);
      }
    }
  }

  lemma {:induction false} SettledStays(l: Lease, es: seq<Event>)
    requires Inv(l) && Legal(l, es) && l.closeSettled && l.state in {CLOSED, FENCED}
    ensures Run(l, es) == l && forall e <- es :: !e.EndSettled?
    decreases |es|
  {
    if |es| > 0 {
      assert Apply(l, es[0]) == l;
      SettledStays(l, es[1..]);
    }
  }

  lemma {:induction false} ClosingSettles(l: Lease, es: seq<Event>)
    requires Inv(l) && Legal(l, es) && l.state == CLOSING
    ensures Run(l, es).ends == 1
    ensures Run(l, es).state ==
            (if EndSettled(true) in es then CLOSED else if EndSettled(false) in es then FENCED else CLOSING)
    ensures EndSettled(false) in es && EndSettled(true) !in es ==> Run(l, es).aborted
    decreases |es|
  {
    if |es| > 0 {
      var l1 := Apply(l, es[0]);
      assert forall f :: f in es <==> f == es[0] || f in es[1..];
      if es[0].EndSettled? {
        SettledStays(l1, es[1..]);
      } else {
        ClosingSettles(l1, es[1..]);
      }
    }
  }

  /** However often it is closed, a lease ends its client once; it ends CLOSED, or FENCED if that end fails. */
  lemma ClosedOnce(l: Lease, es: seq<Event>)
    requires Inv(l) && Enabled(l, CloseCalled) && !l.closeRequested && l.state != CLOSED
    requires Legal(Apply(l, CloseCalled), es)
    ensures var l' := Run(Apply(l, CloseCalled), es);
            && l'.ends == 1
            && l'.state == (if EndSettled(true) in es then CLOSED else if EndSettled(false) in es then FENCED
                            else CLOSING)
            && (l'.state == FENCED ==> l'.aborted)
  {
    ClosingSettles(Apply(l, CloseCalled), es);
  }

  datatype QueryResult<+T> = Rows(rows: T) | NotActive | FencedDuring | QueryFailed

  // The closure returned by acquireHostLeaseConnection, with its tracker.
  class HostLeaseConnection {
    var state: LeaseState
    var progress: Progress
    var aborted: bool
    var closeRequested: bool
    var closeSettled: bool
    var ends: nat

    function View(): Lease
      reads this
    {
      Lease(state, progress, aborted, closeRequested, closeSettled, ends)
    }

    constructor ()
      ensures View() == NEW_LEASE && Inv(View())
    {
      state, progress, aborted, closeRequested, closeSettled, ends := ACQUIRING, Connecting, false, false, false, 0;
    }

    // The tracker's send: it moves along the table or rejects and stays.
    method Send(e: LeaseEvent) returns (accepted: bool)
      modifies `state
      ensures accepted <==> Next(old(state), e).Some?
      ensures state == if accepted then Next(old(state), e).value else old(state)
    {
      var next := Next(state, e);
      if next.Some? {
        state := next.value;
      }
      return next.Some?;
    }

    method Fence()
      modifies this
      ensures View() == Fenced(old(View()))
      ensures old(state) in {ACQUIRING, ACTIVE} ==> state == FENCED && aborted
    {
      if state == ACQUIRING || state == ACTIVE {
        var accepted := Send(LEASE_LOST);
        assert accepted;
        aborted := true;
      }
    }

    method OnClientEvent()
      modifies this
      ensures View() == Apply(old(View()), ClientEvent)
      ensures old(state) in {ACQUIRING, ACTIVE} ==> state == FENCED && aborted
      ensures old(state) in {FENCED, CLOSING, CLOSED} ==> View() == old(View())
    {
      if state != CLOSING && state != CLOSED {
        Fence();
      }
    }

    // The end of an awaited query: `active` is the check before it was sent, `answer` what pg gave.
    method CompleteQuery<T>(active: bool, answer: Option<T>) returns (r: QueryResult<T>)
      requires active ==> progress == Finished
      modifies this
      ensures r.Rows? <==> active && answer.Some? && old(state) == ACTIVE
      ensures r.Rows? ==> r.rows == answer.value && state == ACTIVE
      ensures active ==> View() == Apply(old(View()), QueryCompleted(answer.Some?))
      ensures !active ==> r == NotActive && View() == old(View())
      ensures active && !r.Rows? ==> state != ACTIVE
    {
      if !active {
        return NotActive;
      }
      if answer == None {
        if state == ACTIVE {
          Fence();
        }
        return QueryFailed;
      }
      if state != ACTIVE {
        return FencedDuring;
      }
      return Rows(answer.value);
    }

    method CloseConnection()
      modifies this
      ensures View() == CloseStarted(old(View()))
    {
      if closeRequested {
        return;
      }
      closeRequested := true;
      if state != CLOSING && state != CLOSED {
        var accepted := Send(CLOSE_REQUESTED);
        assert accepted;
      }
      ends := ends + 1;
    }

    method OnEndSettled(ok: bool)
      requires Inv(View()) && Enabled(View(), EndSettled(ok))
      modifies this
      ensures View() == Apply(old(View()), EndSettled(ok))
    {
      closeSettled := true;
      if state == CLOSING {
        var accepted;
        if ok {
          accepted := Send(CLOSE_DONE);
        } else {
          accepted := Send(CLOSE_FAILED);
          aborted := true;
        }
        assert accepted;
      }
    }

    method AbandonAcquisition()
      requires state in {ACQUIRING, ACTIVE, FENCED, CLOSED} && (state == FENCED ==> aborted) && !closeRequested
          && ends == 0
      modifies this
      ensures View() == AcquisitionFailed(old(View()))
    {
      progress := Finished;
      if state == ACQUIRING {
        Fence();
      }
      if state != CLOSED {
        closeRequested := true;
        var accepted := Send(CLOSE_REQUESTED);
        assert accepted;
        ends := ends + 1;
      }
    }

    method OnConnected(ok: bool, authority: bool)
      requires Inv(View()) && Enabled(View(), Connected(ok, authority))
      modifies this
      ensures View() == Apply(old(View()), Connected(ok, authority))
      ensures Inv(View())
      ensures if ok && authority && old(state) == ACQUIRING then state == ACQUIRING && progress == Locking
              else state == CLOSING && aborted && ends == 1
    {
      if !ok || state != ACQUIRING || !authority {
        AbandonAcquisition();
        return;
      }
      progress := Locking;
    }

    method OnLockQueried(ok: bool, authority1: bool, answer: LockAnswer, authority2: bool, authority3: bool)
      requires Inv(View()) && Enabled(View(), LockQueried(ok, authority1, answer, authority2, authority3))
      modifies this
      ensures View() == Apply(old(View()), LockQueried(ok, authority1, answer, authority2, authority3))
      ensures Inv(View())
      ensures state == ACTIVE <==>
          ok && authority1 && authority2 && authority3 && answer == Acquired && old(state) == ACQUIRING
      ensures state == CLOSED <==> ok && authority1 && answer == Busy && old(state) == ACQUIRING
      ensures state != ACTIVE && state != CLOSED ==> state == CLOSING && ends == 1
    {
      if !ok || !authority1 || state != ACQUIRING || answer == Unreadable {
        AbandonAcquisition();
        return;
      }
      if answer == Busy {
        var accepted := Send(ACQUISITION_FAILED);
        assert accepted;
        progress := Finished;
        return;
      }
      if !authority2 {
        AbandonAcquisition();
        return;
      }
      var accepted := Send(LEASE_ACQUIRED);
      assert accepted;
      if !authority3 {
        AbandonAcquisition();
        return;
      }
      progress := Finished;
    }
  }
}
