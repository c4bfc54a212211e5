/**
 * Safety of the LISTEN connection over every interleaving, and the one interleaving in which a
 * healthy attempt is overtaken by a stale one.
 */
module SignalSafety {
  import opened Options
  import opened Signals

  lemma {:induction false} RunInv(s: State, es: seq<Event>)
    requires Inv(s) && Legal(s, es)
    ensures Inv(Run(s, es))
    decreases |es|
  {
    if |es| > 0 {
      StepInv(s, es[0]);
      RunInv(Apply(s, es[0]), es[1..]);
    }
  }

  /**
   * In every reachable state at most one slot is active and it is the active slot, no client is
   * ended twice, a client that is neither active nor ended still belongs to an attempt that holds
   * it, nothing is active once the service closes, and only the active client wakes listeners.
   */
  lemma SignalIsSafe(aborted: bool, es: seq<Event>)
    requires Legal(Initial(aborted), es)
    ensures var s := Run(Initial(aborted), es);
      && (forall g <- s.slots :: s.slots[g].state == ACTIVE <==> s.activeSlot == Some(g))
      && (forall g <- s.slots :: s.slots[g].ended <= 1)
      && (forall g <- s.slots :: s.slots[g].ended == 0 && s.activeSlot != Some(g) ==>
            s.slots[g].owner in s.attempts && HasClient(s.attempts[s.slots[g].owner])
                && s.attempts[s.slots[g].owner].slot == Some(g))
      && (s.closing || s.aborted ==> s.activeSlot == None)
      && (forall g: nat :: Woken(s, g) != {} ==> s.activeSlot == Some(g) && g in s.slots && s.slots[g].ended == 0)
  {
    RunInv(Initial(aborted), es);
    var s := Run(Initial(aborted), es);
    assert forall g <- s.slots :: SlotInv(s, g);
  }

  /** A slot becomes active only by the attempt of the current epoch, in an open service with nothing active. */
  lemma OnlyTheCurrentAttemptActivates(s: State, e: Event, g: nat)
    requires Inv(s) && Enabled(s, e)
    requires Apply(s, e).activeSlot == Some(g) && s.activeSlot != Some(g)
    ensures e.Listened? && e.ok && s.attempts[e.a].slot == Some(g) && g in s.slots && s.slots[g].owner == e.a
    ensures s.attempts[e.a].epoch == s.epoch && s.connectPromise == Some(e.a)
    ensures s.activeSlot == None && !Closed(s)
  {
    if e.Listened? {
      assert AttemptInv(s, e.a);
    }
  }

  /**
   * An attempt whose connection and LISTEN succeeded activates if and only if the service is
   * open, its epoch is current and no other attempt created a client after it.
   */
  lemma ActivatesUnlessOvertaken(s: State, a: nat)
    requires Inv(s) && Suspended(s, a, Listening)
    ensures Enabled(s, Listened(a, true))
    ensures Apply(s, Listened(a, true)).activeSlot == s.attempts[a].slot <==>
              !Closed(s) && s.attempts[a].epoch == s.epoch && s.attempts[a].slot == Some(s.generation)
  {
    assert AttemptInv(s, a);
    var g := s.attempts[a].slot.value;
    assert SlotInv(s, g);
    if s.connectingSlot.Some? {
      assert SlotInv(s, s.connectingSlot.value);
    }
  }

  /** The same holds when client.connect returns: the attempt goes on to LISTEN unless it was overtaken. */
  lemma OpensUnlessOvertaken(s: State, a: nat)
    requires Inv(s) && Suspended(s, a, Opening)
    ensures Enabled(s, Opened(a, true))
    ensures Suspended(Apply(s, Opened(a, true)), a, Listening) <==>
              !Closed(s) && s.attempts[a].epoch == s.epoch && s.attempts[a].slot == Some(s.generation)
  {
    assert AttemptInv(s, a);
    var g := s.attempts[a].slot.value;
    assert SlotInv(s, g);
    if s.connectingSlot.Some? {
      assert SlotInv(s, s.connectingSlot.value);
    }
  }

  // What a step never takes back, for one slot and one attempt.
  predicate Grown(s: State, s': State, g: nat, a: nat) {
    && s.epoch <= s'.epoch && s.nextAttempt <= s'.nextAttempt
    && (s.closing ==> s'.closing)
    && (g in s.slots ==> g in s'.slots && s'.slots[g].owner == s.slots[g].owner)
    && (EndedSlot(s, g) && s.slots[g].state != ACTIVE ==> EndedSlot(s', g))
    && (a in s'.attempts && a < s.nextAttempt ==> a in s.attempts && s'.attempts[a].epoch == s.attempts[a].epoch)
  }

  predicate SlotKnown(s: State, g: nat) {
    (g in s.slots ==> SlotInv(s, g)) && s.generation + 1 !in s.slots
  }

  lemma AdmissionGrows(s: State, e: Event, g: nat, a: nat)
    requires Enabled(s, e) && SlotKnown(s, g) && (e.Subscribe? || e.TimerFires?)
    ensures Grown(s, Apply(s, e), g, a)
  {
  }

  lemma CredentialGrows(s: State, e: Event, g: nat, a: nat)
    requires Enabled(s, e) && SlotKnown(s, g) && e.CredentialRead?
    ensures Grown(s, Apply(s, e), g, a)
  {
  }

  lemma OpenedGrows(s: State, e: Event, g: nat, a: nat)
    requires Enabled(s, e) && SlotKnown(s, g) && e.Opened?
    ensures Grown(s, Apply(s, e), g, a)
  {
  }

  lemma ListenedGrows(s: State, e: Event, g: nat, a: nat)
    requires Enabled(s, e) && SlotKnown(s, g) && e.Listened?
    ensures Grown(s, Apply(s, e), g, a)
  {
  }

  lemma SettlingGrows(s: State, e: Event, g: nat, a: nat)
    requires Enabled(s, e) && SlotKnown(s, g)
        && (e.RescanDone? || e.EndSettled? || e.PromiseCallback? || e.SubscribeFailed? || e.Retry?)
    ensures Grown(s, Apply(s, e), g, a)
  {
  }

  lemma ClosingGrows(s: State, e: Event, g: nat, a: nat)
    requires Enabled(s, e) && SlotKnown(s, g) && (e.Unsubscribe? || e.Abort?)
    ensures Grown(s, Apply(s, e), g, a)
  {
  }

  lemma FailureGrows(s: State, e: Event, g: nat, a: nat)
    requires Enabled(s, e) && SlotKnown(s, g) && e.ClientFailure?
    ensures Grown(s, Apply(s, e), g, a)
  {
  }

  lemma StepGrows(s: State, e: Event, g: nat, a: nat)
    requires Enabled(s, e) && SlotKnown(s, g)
    ensures Grown(s, Apply(s, e), g, a)
  {
    if e.Subscribe? || e.TimerFires? {
      AdmissionGrows(s, e, g, a);
    } else if e.CredentialRead? {
      CredentialGrows(s, e, g, a);
    } else if e.Opened? {
      OpenedGrows(s, e, g, a);
    } else if e.Listened? {
      ListenedGrows(s, e, g, a);
    } else if e.Unsubscribe? || e.Abort? {
      ClosingGrows(s, e, g, a);
    } else if e.ClientFailure? {
      FailureGrows(s, e, g, a);
    } else {
      SettlingGrows(s, e, g, a);
    }
  }

  lemma NewestIsFresh(s: State)
    requires Inv(s)
    ensures s.generation + 1 !in s.slots
  {
    assert s.generation + 1 in s.slots ==> SlotInv(s, s.generation + 1);
  }

  // The steps of one attempt that is already behind the current epoch.
  ghost predicate Behind(s: State, a: nat) {
    && a < s.nextAttempt
    && (a in s.attempts ==> s.attempts[a].epoch < s.epoch)
    && (forall g <- s.slots :: s.slots[g].owner == a ==> s.slots[g].state != ACTIVE)
  }

  lemma StepBehind(s: State, e: Event, a: nat)
    requires Inv(s) && Enabled(s, e) && Behind(s, a)
    ensures Behind(Apply(s, e), a)
  {
    var s' := Apply(s, e);
    StepInv(s, e);
    NewestIsFresh(s);
    forall g <- s'.slots | s'.slots[g].owner == a ensures s'.slots[g].state != ACTIVE {
      StepGrows(s, e, g, a);
      assert SlotInv(s', g);
      if s'.activeSlot == Some(g) && s.activeSlot != Some(g) {
        OnlyTheCurrentAttemptActivates(s, e, g);
      } else if s.activeSlot == Some(g) {
        assert Header(s);
      }
    }
    StepGrows(s, e, 0, a);
  }

  /** An attempt whose epoch has passed before it activated never activates, however the run goes on. */
  lemma {:induction false} StaleAttemptsNeverActivate(s: State, es: seq<Event>, a: nat)
    requires Inv(s) && Legal(s, es) && Behind(s, a)
    ensures Behind(Run(s, es), a)
    decreases |es|
  {
    if |es| > 0 {
      StepInv(s, es[0]);
      StepBehind(s, es[0], a);
      StaleAttemptsNeverActivate(Apply(s, es[0]), es[1..], a);
    }
  }

  lemma LiveOldAttemptsAreBehind(s: State, a: nat)
    requires Inv(s) && a in s.attempts && Live(s.attempts[a]) && s.attempts[a].epoch < s.epoch
    ensures Behind(s, a)
  {
    assert AttemptInv(s, a);
    forall g <- s.slots | s.slots[g].owner == a ensures s.slots[g].state != ACTIVE {
      assert SlotInv(s, g);
    }
  }

  predicate EndedSlot(s: State, g: nat) {
    g in s.slots && s.slots[g].ended == 1
  }

  /** An ended client is never used again, and a closed service never activates or wakes anything. */
  lemma {:induction false} EndingsAreFinal(s: State, es: seq<Event>, g: nat)
    requires Inv(s) && Legal(s, es)
    ensures EndedSlot(s, g) ==> EndedSlot(Run(s, es), g) && Run(s, es).activeSlot != Some(g)
    ensures s.closing ==> Run(s, es).closing && Run(s, es).activeSlot == None && Woken(Run(s, es), g) == {}
    decreases |es|
  {
    assert g in s.slots ==> SlotInv(s, g);
    if |es| > 0 {
      StepInv(s, es[0]);
      NewestIsFresh(s);
      StepGrows(s, es[0], g, 0);
      EndingsAreFinal(Apply(s, es[0]), es[1..], g);
    }
  }

  /** Losing the current client of an open service ends it, starts a new epoch and leaves a reconnect pending. */
  lemma LossSchedulesReconnect(s: State, g: nat)
    requires Inv(s) && g in s.slots && FailureCounts(s, g) && !Closed(s)
    ensures var s' := Apply(s, ClientFailure(g));
      s'.timer && s'.epoch == s.epoch + 1 && s'.activeSlot == None && s'.connectingSlot != Some(g) && EndedSlot(s', g)
  {
    assert SlotInv(s, g);
  }

  /** The last listener's leaving closes the connection: whatever client there was is dropped and ended. */
  lemma LastLeaveCloses(s: State, id: nat)
    requires Inv(s) && s.subscriptions == {id}
    ensures var s' := Apply(s, Unsubscribe(id));
      && s'.activeSlot == None && s'.connectingSlot == None && !s'.timer && s'.epoch == s.epoch + 1
      && (s.activeSlot.Some? ==> EndedSlot(s', s.activeSlot.value))
      && (s.connectingSlot.Some? ==> EndedSlot(s', s.connectingSlot.value))
  {
    assert s.activeSlot.Some? ==> SlotInv(s, s.activeSlot.value);
    assert s.connectingSlot.Some? ==> SlotInv(s, s.connectingSlot.value);
  }

  /** So does an abort, and the service is closing from then on. */
  lemma AbortCloses(s: State)
    requires Inv(s) && Enabled(s, Abort) && !s.closing
    ensures var s' := Apply(s, Abort);
      && s'.closing && s'.aborted && s'.activeSlot == None && s'.connectingSlot == None && !s'.timer
      && (s.activeSlot.Some? ==> EndedSlot(s', s.activeSlot.value))
      && (s.connectingSlot.Some? ==> EndedSlot(s', s.connectingSlot.value))
  {
    assert s.activeSlot.Some? ==> SlotInv(s, s.activeSlot.value);
    assert s.connectingSlot.Some? ==> SlotInv(s, s.connectingSlot.value);
  }

  // ----- overtaken by a stale attempt -----

  // Listeners wait, but nothing is connected, connecting or scheduled.
  predicate Stranded(s: State) {
    && !Closed(s) && s.activeSlot == None && s.attempts == map[]
    && !s.timer && s.retries == 0 && s.failing == {} && s.connectPromise == None
  }

  predicate Calm(s: State) {
    && s.activeSlot == None && s.attempts == map[] && !s.timer && s.retries == 0 && s.failing == {}
        && s.connectPromise == None
    && (forall g <- s.slots :: s.slots[g].state == CLOSED || s.slots[g].state == STALE)
  }

  /** A stranded service stays unconnected until somebody subscribes again. */
  lemma {:induction false} StrandedUntilTheNextSubscriber(s: State, es: seq<Event>)
    requires Inv(s) && Stranded(s) && Legal(s, es)
    requires forall e <- es :: !e.Subscribe?
    ensures Run(s, es).activeSlot == None && Run(s, es).attempts == map[] && !Run(s, es).timer
  {
    forall g <- s.slots ensures s.slots[g].state == CLOSED || s.slots[g].state == STALE {
      assert SlotInv(s, g);
    }
    CalmRuns(s, es);
  }

  lemma {:induction false} CalmRuns(s: State, es: seq<Event>)
    requires Calm(s) && Legal(s, es)
    requires forall e <- es :: !e.Subscribe?
    ensures Calm(Run(s, es))
    decreases |es|
  {
    if |es| > 0 {
      assert es[0] in es;
      CalmRuns(Apply(s, es[0]), es[1..]);
    }
  }

  ghost predicate Reaches(s: State, es: seq<Event>, s': State) {
    Legal(s, es) && Run(s, es) == s'
  }

  lemma {:induction false} Then(s: State, es: seq<Event>, s1: State, e: Event) returns (es': seq<Event>, s2: State)
    requires Reaches(s, es, s1) && Enabled(s1, e)
    ensures Reaches(s, es', s2) && s2 == Apply(s1, e) && es' == es + [e]
    decreases |es|
  {
    es', s2 := es + [e], Apply(s1, e);
    if |es| > 0 {
      assert es'[0] == es[0] && es'[1..] == es[1..] + [e];
      var tail, end := Then(Apply(s, es[0]), es[1..], s1, e);
    }
  }

  lemma FirstConnection() returns (es: seq<Event>, s: State)
    ensures Reaches(Initial(false), es, s)
    ensures s == State(Some(1), None, Some(0), map[1 := Slot(ACTIVE, 0, 0)],
        map[0 := Attempt(0, false, Settled(false), Some(1), 0, {1})],
                       0, 1, 1, false, false, {1}, false, 0, 0, {})
  {
    es, s := [], Initial(false);
    es, s := Then(Initial(false), es, s, Subscribe(1, true));
    assert s.attempts[0].subscribers == {1} && s.subscriptions == {1};
    assert s.attempts == map[0 := Attempt(0, false, ReadingCredential, None, 0, {1})];
    es, s := Then(Initial(false), es, s, CredentialRead(0, true));
    assert s.attempts == map[0 := Attempt(0, false, Opening, Some(1), 0, {1})];
    es, s := Then(Initial(false), es, s, Opened(0, true));
    es, s := Then(Initial(false), es, s, Listened(0, true));
  }

  lemma LostConnection() returns (es: seq<Event>, s: State)
    ensures Reaches(Initial(false), es, s)
    ensures s == State(None, None, None, map[1 := Slot(CLOSED, 1, 0)], map[], 1, 1, 1, false, false, {1}, true, 1, 0,
        {})
  {
    es, s := FirstConnection();
    es, s := Then(Initial(false), es, s, PromiseCallback(0));
    es, s := Then(Initial(false), es, s, ClientFailure(1));
  }

  lemma LeftDuringReconnect() returns (es: seq<Event>, s: State)
    ensures Reaches(Initial(false), es, s)
    ensures s == State(None, None, Some(1), map[1 := Slot(CLOSED, 1, 0)],
        map[1 := Attempt(1, true, ReadingCredential, None, 1, {})],
                       2, 1, 2, false, false, {}, false, 1, 0, {})
  {
    es, s := LostConnection();
    es, s := Then(Initial(false), es, s, TimerFires(true));
    es, s := Then(Initial(false), es, s, Unsubscribe(1));
  }

  lemma NextListenerOpens() returns (es: seq<Event>, s: State)
    ensures Reaches(Initial(false), es, s)
    ensures s == State(None, Some(2), Some(2), map[1 := Slot(CLOSED, 1, 0), 2 := Slot(CONNECTING, 0, 2)],
                       map[1 := Attempt(1, true, ReadingCredential, None, 1, {}), 2 :=
                           Attempt(2, true, Listening, Some(2), 0, {2})],
                       2, 2, 3, false, false, {2}, false, 1, 0, {})
  {
    es, s := LeftDuringReconnect();
    es, s := Then(Initial(false), es, s, Subscribe(2, true));
    assert s.attempts[2].subscribers == {2} && s.subscriptions == {2};
    es, s := Then(Initial(false), es, s, CredentialRead(2, true));
    assert s.slots == map[1 := Slot(CLOSED, 1, 0), 2 := Slot(CONNECTING, 0, 2)];
    es, s := Then(Initial(false), es, s, Opened(2, true));
    assert s.attempts == map[1 := Attempt(1, true, ReadingCredential, None, 1, {}), 2 :=
        Attempt(2, true, Listening, Some(2), 0, {2})];
  }

  lemma StaleAttemptOvertakes() returns (es: seq<Event>, s: State)
    ensures Reaches(Initial(false), es, s)
    ensures s == State(None, Some(3), Some(2),
        map[1 := Slot(CLOSED, 1, 0), 2 := Slot(CLOSED, 1, 2), 3 := Slot(CLOSED, 1, 1)],
                       map[1 := Attempt(1, true, Ending(false), Some(3), 1, {}), 2 :=
                           Attempt(2, true, Ending(false), Some(2), 0, {2})],
                       2, 3, 3, false, false, {2}, false, 1, 0, {})
  {
    es, s := NextListenerOpens();
    es, s := Then(Initial(false), es, s, CredentialRead(1, true));
    es, s := Then(Initial(false), es, s, Listened(2, true));
  }

  /**
   * A genuine run that strands a listener: a connection is lost, its listener leaves while the
   * reconnect reads its credential, another listener subscribes, and the old attempt resumes
   * between the new attempt's connect and its LISTEN, taking the connecting slot on its way out.
   */
  lemma StaleAttemptStrandsAListener() returns (es: seq<Event>, s: State)
    ensures Reaches(Initial(false), es, s) && Stranded(s) && s.subscriptions == {2}
  {
    es, s := StaleAttemptOvertakes();
    es, s := Then(Initial(false), es, s, EndSettled(1));
    es, s := Then(Initial(false), es, s, EndSettled(2));
    es, s := Then(Initial(false), es, s, PromiseCallback(1));
    es, s := Then(Initial(false), es, s, PromiseCallback(2));
  }
}
