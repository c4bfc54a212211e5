/**
 * Whether listeners whose connection was lost are asked to rescan once it is back: the exact
 * steps after which the next connection is not taken for a reconnect.
 */
module SignalRescans {
  import opened Options
  import opened Signals
  import opened SignalSafety

  // The step makes a connection active.
  predicate Activates(s: State, e: Event)
    requires Enabled(s, e)
  {
    s.activeSlot == None && Apply(s, e).activeSlot.Some?
  }

  // The active client is lost.
  predicate Loss(s: State, e: Event) {
    e.ClientFailure? && s.activeSlot == Some(e.g) && e.g in s.slots && FailureCounts(s, e.g)
  }

  // Whether a rescan is owed after the step: a loss leaves the listeners it has in debt, a connection pays it.
  predicate OwesAfter(s: State, e: Event, owes: bool)
    requires Enabled(s, e)
  {
    !Activates(s, e) && (owes || Loss(s, e)) && Apply(s, e).subscriptions != {}
  }

  predicate AttemptStep(e: Event) {
    e.CredentialRead? || e.Opened? || e.Listened? || e.RescanDone? || e.EndSettled? || e.PromiseCallback?
  }

  // ----- an activated reconnect asks before it settles -----

  /** An activated attempt goes on to its rescans if and only if it was started as a reconnect. */
  lemma ActivationRescansIff(s: State, e: Event)
    requires Inv(s) && Enabled(s, e) && Activates(s, e)
    ensures e.Listened? && e.a in s.attempts && e.a in Apply(s, e).attempts
    ensures Suspended(Apply(s, e), e.a, Rescanning) <==> s.attempts[e.a].reconnect
    ensures !s.attempts[e.a].reconnect ==> Suspended(Apply(s, e), e.a, Settled(false))
  {
    OnlyTheCurrentAttemptActivates(s, e, Apply(s, e).activeSlot.value);
  }

  lemma OwnStepEndsRescanning(s: State, e: Event, a: nat)
    requires Enabled(s, e) && Suspended(s, a, Rescanning) && AttemptStep(e) && e != RescanDone(a)
    ensures Suspended(Apply(s, e), a, Rescanning)
  {
  }

  lemma OthersKeepRescanning(s: State, e: Event, a: nat)
    requires Enabled(s, e) && Suspended(s, a, Rescanning) && a < s.nextAttempt && !AttemptStep(e)
    ensures Suspended(Apply(s, e), a, Rescanning)
  {
  }

  lemma AttemptsAreNumbered(s: State, e: Event)
    requires Enabled(s, e)
    ensures s.nextAttempt <= Apply(s, e).nextAttempt
  {
  }

  /** Between its activation and its settling a reconnect has asked every listener: it stays until it has. */
  lemma {:induction false} RescansBeforeSettling(s: State, es: seq<Event>, a: nat)
    requires Legal(s, es) && Suspended(s, a, Rescanning) && a < s.nextAttempt
    ensures Suspended(Run(s, es), a, Rescanning) || RescanDone(a) in es
    decreases |es|
  {
    if |es| > 0 && es[0] != RescanDone(a) {
      if AttemptStep(es[0]) {
        OwnStepEndsRescanning(s, es[0], a);
      } else {
        OthersKeepRescanning(s, es[0], a);
      }
      AttemptsAreNumbered(s, es[0]);
      RescansBeforeSettling(Apply(s, es[0]), es[1..], a);
    }
  }

  // ----- whether the next connection is a reconnect -----

  // A debt is remembered by the attempt counter and by every attempt that can still connect.
  ghost predicate Remembers(s: State, owes: bool) {
    owes ==>
      && s.reconnectAttempt > 0
      && forall a <- s.attempts :: s.attempts[a].epoch == s.epoch && Live(s.attempts[a]) ==> s.attempts[a].reconnect
  }

  // A loss while the timer of an earlier one is still set, although a connection has come up since.
  predicate Forgets(s: State, e: Event) {
    Loss(s, e) && s.timer && s.reconnectAttempt == 0 && s.subscriptions != {}
  }

  lemma LossRemembersIff(s: State, e: Event, owes: bool)
    requires Inv(s) && Enabled(s, e) && Loss(s, e)
    ensures Remembers(Apply(s, e), OwesAfter(s, e, owes)) <==> !Forgets(s, e)
  {
    forall a | a in s.attempts
      ensures s.attempts[a].epoch <= s.epoch
    {
      assert AttemptInv(s, a);
    }
  }

  // The attempts that can still connect are among those of s, and the counter does not fall.
  ghost predicate KeepsAttempts(s: State, s': State) {
    && s'.epoch == s.epoch && s'.reconnectAttempt >= s.reconnectAttempt
    && forall a <- s'.attempts :: Live(s'.attempts[a]) ==>
         && a in s.attempts && Live(s.attempts[a])
         && s'.attempts[a].epoch == s.attempts[a].epoch && s'.attempts[a].reconnect == s.attempts[a].reconnect
  }

  lemma ConnectingKeepsAttempts(s: State, e: Event)
    requires Enabled(s, e) && (e.CredentialRead? || e.Opened?)
    ensures KeepsAttempts(s, Apply(s, e))
  {
  }

  lemma ListeningKeepsAttempts(s: State, e: Event)
    requires Enabled(s, e) && e.Listened? && !Activates(s, e) && s.activeSlot == None
    ensures KeepsAttempts(s, Apply(s, e))
  {
  }

  lemma EndingKeepsAttempts(s: State, e: Event)
    requires Enabled(s, e) && (e.RescanDone? || e.EndSettled? || e.PromiseCallback?)
    ensures KeepsAttempts(s, Apply(s, e))
  {
  }

  // A stale attempt gives up; only the current one activates, and then with nothing active before.
  lemma StaleListeningKeepsAttempts(s: State, e: Event)
    requires Inv(s) && Enabled(s, e) && e.Listened? && s.activeSlot.Some?
    ensures KeepsAttempts(s, Apply(s, e))
  {
    assert AttemptInv(s, e.a);
  }

  lemma AttemptStepRemembers(s: State, e: Event, owes: bool)
    requires Inv(s) && Enabled(s, e) && Remembers(s, owes) && AttemptStep(e)
    ensures Remembers(Apply(s, e), OwesAfter(s, e, owes))
  {
    if e.CredentialRead? || e.Opened? {
      ConnectingKeepsAttempts(s, e);
    } else if !e.Listened? {
      EndingKeepsAttempts(s, e);
    } else if s.activeSlot.Some? {
      StaleListeningKeepsAttempts(s, e);
    } else if !Activates(s, e) {
      ListeningKeepsAttempts(s, e);
    }
  }

  lemma OtherStepRemembers(s: State, e: Event, owes: bool)
    requires Inv(s) && Enabled(s, e) && Remembers(s, owes) && !Loss(s, e)
    requires !AttemptStep(e)
    ensures Remembers(Apply(s, e), OwesAfter(s, e, owes))
  {
    if e.ClientFailure? && FailureCounts(s, e.g) {
      forall a | a in s.attempts
        ensures s.attempts[a].epoch <= s.epoch
      {
        assert AttemptInv(s, a);
      }
    }
  }

  /** One step forgets a rescan that is owed if and only if it is such a loss. */
  lemma StepRemembers(s: State, e: Event, owes: bool)
    requires Inv(s) && Enabled(s, e) && Remembers(s, owes)
    ensures Remembers(Apply(s, e), OwesAfter(s, e, owes)) <==> !Forgets(s, e)
  {
    if Loss(s, e) {
      LossRemembersIff(s, e, owes);
    } else if AttemptStep(e) {
      AttemptStepRemembers(s, e, owes);
    } else {
      OtherStepRemembers(s, e, owes);
    }
  }

  // ----- runs -----

  // Every connection of the run that comes up while a rescan is owed goes on to its rescans.
  ghost predicate AllRescanned(s: State, owes: bool, es: seq<Event>)
    requires Legal(s, es)
    decreases |es|
  {
    |es| > 0 ==>
      && (Activates(s, es[0]) && owes && es[0].Listened? ==> Suspended(Apply(s, es[0]), es[0].a, Rescanning))
      && AllRescanned(Apply(s, es[0]), OwesAfter(s, es[0], owes), es[1..])
  }

  ghost predicate ForgetsIn(s: State, es: seq<Event>)
    requires Legal(s, es)
    decreases |es|
  {
    |es| > 0 && (Forgets(s, es[0]) || ForgetsIn(Apply(s, es[0]), es[1..]))
  }

  lemma {:induction false} RememberedRescans(s: State, owes: bool, es: seq<Event>)
    requires Inv(s) && Legal(s, es) && Remembers(s, owes) && !ForgetsIn(s, es)
    ensures AllRescanned(s, owes, es)
    decreases |es|
  {
    if |es| > 0 {
      if Activates(s, es[0]) && owes {
        ActivationRescansIff(s, es[0]);
        OnlyTheCurrentAttemptActivates(s, es[0], Apply(s, es[0]).activeSlot.value);
      }
      StepRemembers(s, es[0], owes);
      StepInv(s, es[0]);
      RememberedRescans(Apply(s, es[0]), OwesAfter(s, es[0], owes), es[1..]);
    }
  }

  /** Unless a loss of the run is forgotten, every connection that follows a loss asks all its listeners to rescan. */
  lemma RescanAfterLossUnlessForgotten(aborted: bool, es: seq<Event>)
    requires Legal(Initial(aborted), es) && !ForgetsIn(Initial(aborted), es)
    ensures AllRescanned(Initial(aborted), false, es)
  {
    RememberedRescans(Initial(aborted), false, es);
  }

  // ----- a forgotten loss -----

  // The reconnect as it starts from the pending timer.
  lemma TimerStartsAnOrdinaryAttempt(s: State, e: Event)
    requires Inv(s) && Enabled(s, e) && Forgets(s, e)
    ensures var s1 := Apply(s, e);
      && Enabled(s1, TimerFires(true))
      && var s2, a := Apply(s1, TimerFires(true)), s.nextAttempt;
      && !Closed(s2) && s2.activeSlot == None && s2.timer == false
      && a in s2.attempts && s2.attempts[a] == Attempt(s2.epoch, false, ReadingCredential, None, 1, {})
  {
    forall a | a in s.attempts
      ensures s.attempts[a].epoch <= s.epoch
    {
      assert AttemptInv(s, a);
    }
  }

  // Left alone, an attempt of the current epoch connects.
  lemma LeftAloneItConnects(s: State, a: nat)
    requires Suspended(s, a, ReadingCredential) && s.attempts[a].epoch == s.epoch && !Closed(s) && s.activeSlot == None
    ensures Legal(s, [CredentialRead(a, true), Opened(a, true), Listened(a, true)])
    ensures var s2 := Apply(Apply(s, CredentialRead(a, true)), Opened(a, true));
      && Enabled(s2, Listened(a, true)) && Activates(s2, Listened(a, true)) && s2.subscriptions == s.subscriptions
      && a in Apply(s2, Listened(a, true)).attempts
      && s2.attempts[a].reconnect == s.attempts[a].reconnect
      && Suspended(Apply(s2, Listened(a, true)), a, if s.attempts[a].reconnect then Rescanning else Settled(false))
  {
    var s1 := Apply(s, CredentialRead(a, true));
    var s2 := Apply(s1, Opened(a, true));
    var es := [CredentialRead(a, true), Opened(a, true), Listened(a, true)];
    assert es[1..] == [Opened(a, true), Listened(a, true)] && es[1..][1..] == [Listened(a, true)];
    assert Legal(Apply(s2, Listened(a, true)), []);
    assert Legal(s2, [Listened(a, true)]);
    assert Legal(s1, [Opened(a, true), Listened(a, true)]);
  }

  /**
   * Every forgotten loss can go unnoticed: in the continuation in which nothing fails, the timer
   * reconnects and no listener is asked to rescan.
   */
  lemma ForgottenLossesSkipTheRescan(s: State, e: Event) returns (es: seq<Event>)
    requires Inv(s) && Enabled(s, e) && Forgets(s, e)
    ensures Legal(Apply(s, e), es) && !AllRescanned(Apply(s, e), true, es)
    ensures Run(Apply(s, e), es).activeSlot.Some?
    ensures es == [TimerFires(true), CredentialRead(s.nextAttempt, true), Opened(s.nextAttempt, true),
                   Listened(s.nextAttempt, true)]
  {
    var a := s.nextAttempt;
    var s1 := Apply(s, e);
    TimerStartsAnOrdinaryAttempt(s, e);
    var s2 := Apply(s1, TimerFires(true));
    LeftAloneItConnects(s2, a);
    var tail := [CredentialRead(a, true), Opened(a, true), Listened(a, true)];
    es := [TimerFires(true)] + tail;
    assert es[1..] == tail;
    LastOwed(s2, a);
    assert OwesAfter(s1, TimerFires(true), true);
  }

  // The connection of LeftAloneItConnects comes up while the rescan is still owed.
  lemma LastOwed(s: State, a: nat)
    requires Suspended(s, a, ReadingCredential) && s.attempts[a].epoch == s.epoch && !Closed(s) && s.activeSlot == None
    requires !s.attempts[a].reconnect
    requires Legal(s, [CredentialRead(a, true), Opened(a, true), Listened(a, true)])
    ensures !AllRescanned(s, true, [CredentialRead(a, true), Opened(a, true), Listened(a, true)])
    ensures Run(s, [CredentialRead(a, true), Opened(a, true), Listened(a, true)]).activeSlot.Some?
  {
    LeftAloneItConnects(s, a);
    var s1 := Apply(s, CredentialRead(a, true));
    var s2 := Apply(s1, Opened(a, true));
    var es := [CredentialRead(a, true), Opened(a, true), Listened(a, true)];
    assert es[1..] == [Opened(a, true), Listened(a, true)] && es[1..][1..] == [Listened(a, true)];
    assert [Listened(a, true)][1..] == [];
    assert !AllRescanned(s2, true, [Listened(a, true)]);
    assert OwesAfter(s1, Opened(a, true), true) && OwesAfter(s, CredentialRead(a, true), true);
    assert !AllRescanned(s1, true, es[1..]);
    assert Run(s2, [Listened(a, true)]) == Apply(s2, Listened(a, true));
    assert Run(s1, es[1..]) == Apply(s2, Listened(a, true));
  }

  // A connection is lost, another listener reconnects before the timer does, and its client is up.
  lemma ReconnectedBeforeTheTimer() returns (es: seq<Event>, s: State)
    ensures Reaches(Initial(false), es, s)
    ensures s == State(Some(2), None, Some(1), map[1 := Slot(CLOSED, 1, 0), 2 := Slot(ACTIVE, 0, 1)],
                       map[1 := Attempt(1, true, Rescanning, Some(2), 0, {2})],
                       1, 2, 2, false, false, {1, 2}, true, 0, 0, {})
  {
    es, s := LostConnection();
    es, s := Then(Initial(false), es, s, Subscribe(2, true));
    assert s.attempts[1].subscribers == {2} && s.subscriptions == {1, 2};
    assert s.attempts == map[1 := Attempt(1, true, ReadingCredential, None, 0, {2})];
    es, s := Then(Initial(false), es, s, CredentialRead(1, true));
    assert s.slots == map[1 := Slot(CLOSED, 1, 0), 2 := Slot(CONNECTING, 0, 1)];
    es, s := Then(Initial(false), es, s, Opened(1, true));
    assert s.attempts == map[1 := Attempt(1, true, Listening, Some(2), 0, {2})];
    es, s := Then(Initial(false), es, s, Listened(1, true));
    assert s.slots == map[1 := Slot(CLOSED, 1, 0), 2 := Slot(ACTIVE, 0, 1)];
    assert s.attempts == map[1 := Attempt(1, true, Rescanning, Some(2), 0, {2})];
  }

  /**
   * A genuine run to a forgotten loss: the first loss sets the timer, another listener's
   * subscription reconnects before it fires and clears the attempt counter, and the new client is
   * lost while the timer is still set.
   */
  lemma SecondLossIsForgotten() returns (es: seq<Event>, s: State)
    ensures Reaches(Initial(false), es, s) && s.subscriptions == {1, 2} && s.attempts == map[]
    ensures Enabled(s, ClientFailure(2)) && Forgets(s, ClientFailure(2))
  {
    es, s := ReconnectedBeforeTheTimer();
    es, s := Then(Initial(false), es, s, RescanDone(1));
    es, s := Then(Initial(false), es, s, PromiseCallback(1));
    assert s.attempts == map[];
  }
}
