/**
 * When a listener of an open service loses its connection for good: the exact steps after which
 * nothing is connected, nothing is scheduled, and nobody is told.
 */
module SignalStranding {
  import opened Options
  import opened Signals
  import opened SignalSafety

  // The attempt's promise rejects, or has.
  predicate Rejecting(at: Attempt) {
    at.pc == Ending(true) || at.pc == Settled(true)
  }

  predicate Tells(s: State, a: nat, id: nat) {
    a in s.attempts && Rejecting(s.attempts[a]) && id in s.attempts[a].subscribers
  }

  // The listener's subscribe call fails, or will.
  ghost predicate Told(s: State, id: nat) {
    id in s.failing || exists a: nat :: Tells(s, a, id)
  }

  ghost predicate AllTold(s: State) {
    forall id <- s.subscriptions :: Told(s, id)
  }

  predicate Retries(s: State, a: nat) {
    a in s.attempts && Rejecting(s.attempts[a]) && s.attempts[a].timers > 0
  }

  // A reconnect is scheduled, or will be by a rejection that a timer waits for.
  ghost predicate Pending(s: State) {
    s.timer || s.retries > 0 || exists a: nat :: Retries(s, a)
  }

  // The attempt at hand serves everybody: its failure would schedule the next, or tell each listener.
  ghost predicate Carries(s: State, at: Attempt) {
    at.timers > 0 || forall id <- s.subscriptions :: Told(s, id) || id in at.subscribers
  }

  ghost predicate Carried(s: State) {
    PromiseIsCurrent(s) && Live(s.attempts[s.connectPromise.value]) && Carries(s, s.attempts[s.connectPromise.value])
  }

  // Every listener is connected, about to be connected or told, or the service is closed.
  ghost predicate Served(s: State) {
    s.closing || s.aborted || s.activeSlot.Some? || Pending(s) || AllTold(s) || Carried(s)
  }

  // The attempt behind connectPromise is of the current epoch, and will resolve without a connection.
  predicate Decided(s: State) {
    && PromiseIsCurrent(s)
    && !Live(s.attempts[s.connectPromise.value]) && !Rejecting(s.attempts[s.connectPromise.value])
  }

  // A resuming attempt of the current epoch gives up because another attempt created a client after it.
  ghost predicate Overtaken(s: State, a: nat) {
    && a in s.attempts && s.attempts[a].epoch == s.epoch && s.attempts[a].slot != Some(s.generation)
    && !Closed(s) && !Pending(s) && !AllTold(s)
  }

  // The steps that lose a listener: an overtaken attempt, or a caller that joins an attempt already decided.
  ghost predicate Loses(s: State, e: Event) {
    && !s.closing && !s.aborted && s.activeSlot == None
    && match e
       case Opened(a, ok) => ok && Overtaken(s, a)
       case Listened(a, ok) => ok && Overtaken(s, a)
       case Subscribe(id, _) => Decided(s) && !Pending(s) && !Told(s, id)
       case TimerFires(_) => Decided(s) && !Pending(s.(timer := false)) && !AllTold(s)
       case _ => false
  }

  // ----- what one attempt's move does to who is told and what is pending -----

  // s' differs from s in attempt b only, and b takes back no rejection.
  ghost predicate MovesOne(s: State, s': State, b: nat) {
    && s'.failing == s.failing && s'.retries == s.retries && s'.timer == s.timer
    && (forall a <- s.attempts :: a in s'.attempts && (a != b ==> s'.attempts[a] == s.attempts[a]))
    && (forall a <- s'.attempts :: a != b ==> a in s.attempts)
    && (b in s.attempts && Rejecting(s.attempts[b]) ==>
          && Rejecting(s'.attempts[b]) && s.attempts[b].subscribers <= s'.attempts[b].subscribers
          && s.attempts[b].timers <= s'.attempts[b].timers)
  }

  lemma MoveTells(s: State, s': State, b: nat)
    requires MovesOne(s, s', b)
    ensures forall id: nat :: Told(s', id) <==> Told(s, id) || Tells(s', b, id)
    ensures Pending(s') <==> Pending(s) || Retries(s', b)
  {
    forall id: nat
      ensures Told(s', id) <==> Told(s, id) || Tells(s', b, id)
    {
      if a: nat :| Tells(s, a, id) {
        assert Tells(s', a, id);
      }
      if a: nat :| Tells(s', a, id) {
        assert a == b || Tells(s, a, id);
      }
    }
    if a: nat :| Retries(s, a) {
      assert Retries(s', a);
    }
    if a: nat :| Retries(s', a) {
      assert a == b || Retries(s, a);
    }
  }

  lemma CallbackTells(s: State, b: nat)
    requires Enabled(s, PromiseCallback(b))
    ensures var s' := Apply(s, PromiseCallback(b));
            && (forall id: nat :: Told(s', id) <==> Told(s, id))
            && (Pending(s') <==> Pending(s))
  {
    var s' := Apply(s, PromiseCallback(b));
    forall id: nat
      ensures Told(s', id) <==> Told(s, id)
    {
      if a: nat :| Tells(s, a, id) {
        assert a == b || Tells(s', a, id);
      }
      if a: nat :| Tells(s', a, id) {
        assert Tells(s, a, id);
      }
      assert id in s'.failing ==> id in s.failing || Tells(s, b, id);
    }
    if a: nat :| Retries(s, a) {
      assert a == b || Retries(s', a);
    }
    if a: nat :| Retries(s', a) {
      assert Retries(s, a);
    }
    assert s'.retries > 0 ==> s.retries > 0 || Retries(s, b);
  }

  lemma SameAttemptsTell(s: State, s': State)
    requires s'.attempts == s.attempts
    ensures forall id: nat :: Told(s, id) && (id in s.failing ==> id in s'.failing) ==> Told(s', id)
    ensures forall id: nat :: Told(s', id) && (id in s'.failing ==> id in s.failing) ==> Told(s, id)
    ensures (exists a: nat :: Retries(s', a)) <==> (exists a: nat :: Retries(s, a))
  {
    forall a: nat, id: nat
      ensures Tells(s', a, id) <==> Tells(s, a, id)
    {
    }
    forall a: nat
      ensures Retries(s', a) <==> Retries(s, a)
    {
    }
  }

  // ----- one step -----

  lemma SubscribeServed(s: State, e: Event)
    requires Inv(s) && Enabled(s, e) && Served(s) && e.Subscribe?
    ensures Served(Apply(s, e)) <==> !Loses(s, e)
  {
    MoveTells(s, Apply(s, e), if PromiseIsCurrent(s) then s.connectPromise.value else s.nextAttempt);
  }

  lemma SubscribeFailedServed(s: State, e: Event)
    requires Inv(s) && Enabled(s, e) && Served(s) && e.SubscribeFailed?
    ensures Served(Apply(s, e)) <==> !Loses(s, e)
  {
    SameAttemptsTell(s, Apply(s, e));
  }

  lemma UnsubscribeServed(s: State, e: Event)
    requires Inv(s) && Enabled(s, e) && Served(s) && e.Unsubscribe?
    ensures Served(Apply(s, e)) <==> !Loses(s, e)
  {
    SameAttemptsTell(s, Apply(s, e));
  }

  lemma CredentialReadServed(s: State, e: Event)
    requires Inv(s) && Enabled(s, e) && Served(s) && e.CredentialRead?
    ensures Served(Apply(s, e)) <==> !Loses(s, e)
  {
    MoveTells(s, Apply(s, e), e.a);
    assert AttemptInv(s, e.a);
  }

  // A failing attempt tells its waiters, or schedules the next.
  lemma CaughtServed(s: State, a: nat, g: nat)
    requires Inv(s) && Served(s) && a in s.attempts && HasClient(s.attempts[a]) && s.attempts[a].slot == Some(g)
    ensures g in s.slots && Served(Caught(s, a, g))
  {
    assert AttemptInv(s, a);
    MoveTells(s, Caught(s, a, g), a);
  }

  // An attempt that gives up loses a listener exactly if it was overtaken.
  lemma GaveUpServed(s: State, a: nat, g: nat)
    requires Inv(s) && Served(s) && a in s.attempts && HasClient(s.attempts[a]) && s.attempts[a].slot == Some(g)
    requires !CanActivate(s, s.attempts[a].epoch, g)
    ensures g in s.slots
    ensures Served(GaveUp(s, a, g)) <==> !(s.activeSlot == None && Overtaken(s, a))
  {
    assert AttemptInv(s, a);
    MoveTells(s, GaveUp(s, a, g), a);
  }

  lemma ListeningServed(s: State, a: nat)
    requires Inv(s) && Served(s) && a in s.attempts && HasClient(s.attempts[a])
    ensures Served(At(s, a, Listening))
  {
    assert AttemptInv(s, a);
    MoveTells(s, At(s, a, Listening), a);
  }

  // An attempt that may go on was not overtaken.
  lemma GoingOnIsNotOvertaken(s: State, a: nat)
    requires Inv(s) && a in s.attempts && HasClient(s.attempts[a])
    requires s.attempts[a].slot.Some? && CanActivate(s, s.attempts[a].epoch, s.attempts[a].slot.value)
    ensures !Overtaken(s, a)
  {
    assert Header(s);
  }

  lemma OpenedServed(s: State, e: Event)
    requires Inv(s) && Enabled(s, e) && Served(s) && e.Opened?
    ensures Served(Apply(s, e)) <==> !Loses(s, e)
  {
    var g := s.attempts[e.a].slot.value;
    if !e.ok {
      CaughtServed(s, e.a, g);
    } else if !CanActivate(s, s.attempts[e.a].epoch, g) {
      GaveUpServed(s, e.a, g);
    } else {
      ListeningServed(s, e.a);
      GoingOnIsNotOvertaken(s, e.a);
    }
  }

  lemma ListenedServed(s: State, e: Event)
    requires Inv(s) && Enabled(s, e) && Served(s) && e.Listened?
    ensures Served(Apply(s, e)) <==> !Loses(s, e)
  {
    var g := s.attempts[e.a].slot.value;
    if !e.ok {
      CaughtServed(s, e.a, g);
    } else if !CanActivate(s, s.attempts[e.a].epoch, g) {
      GaveUpServed(s, e.a, g);
    } else {
      GoingOnIsNotOvertaken(s, e.a);
    }
  }

  lemma SettlingServed(s: State, e: Event)
    requires Inv(s) && Enabled(s, e) && Served(s) && (e.RescanDone? || e.EndSettled?)
    ensures Served(Apply(s, e)) <==> !Loses(s, e)
  {
    MoveTells(s, Apply(s, e), e.a);
    assert AttemptInv(s, e.a);
  }

  lemma PromiseCallbackServed(s: State, e: Event)
    requires Inv(s) && Enabled(s, e) && Served(s) && e.PromiseCallback?
    ensures Served(Apply(s, e)) <==> !Loses(s, e)
  {
    CallbackTells(s, e.a);
    assert AttemptInv(s, e.a);
  }

  lemma ClientFailureServed(s: State, e: Event)
    requires Inv(s) && Enabled(s, e) && Served(s) && e.ClientFailure?
    ensures Served(Apply(s, e)) <==> !Loses(s, e)
  {
  }

  lemma TimerFiresServed(s: State, e: Event)
    requires Inv(s) && Enabled(s, e) && Served(s) && e.TimerFires?
    ensures Served(Apply(s, e)) <==> !Loses(s, e)
  {
    var s1 := s.(timer := false);
    SameAttemptsTell(s, s1);
    MoveTells(s1, Apply(s, e), if PromiseIsCurrent(s) then s.connectPromise.value else s.nextAttempt);
  }

  lemma RetryServed(s: State, e: Event)
    requires Inv(s) && Enabled(s, e) && Served(s) && e.Retry?
    ensures Served(Apply(s, e)) <==> !Loses(s, e)
  {
    SameAttemptsTell(s, Apply(s, e));
  }

  /** A step leaves a listener unserved if and only if it is one of those that lose a listener. */
  lemma StepServed(s: State, e: Event)
    requires Inv(s) && Enabled(s, e) && Served(s)
    ensures Served(Apply(s, e)) <==> !Loses(s, e)
  {
    match e
    case Subscribe(_, _) => SubscribeServed(s, e);
    case SubscribeFailed(_) => SubscribeFailedServed(s, e);
    case Unsubscribe(_) => UnsubscribeServed(s, e);
    case Abort =>
    case CredentialRead(_, _) => CredentialReadServed(s, e);
    case Opened(_, _) => OpenedServed(s, e);
    case Listened(_, _) => ListenedServed(s, e);
    case RescanDone(_) => SettlingServed(s, e);
    case EndSettled(_) => SettlingServed(s, e);
    case PromiseCallback(_) => PromiseCallbackServed(s, e);
    case ClientFailure(_) => ClientFailureServed(s, e);
    case TimerFires(_) => TimerFiresServed(s, e);
    case Retry => RetryServed(s, e);
  }

  // ----- runs -----

  ghost predicate AlwaysServed(s: State, es: seq<Event>)
    requires Legal(s, es)
    decreases |es|
  {
    Served(s) && (|es| == 0 || AlwaysServed(Apply(s, es[0]), es[1..]))
  }

  ghost predicate LosesIn(s: State, es: seq<Event>)
    requires Legal(s, es)
    decreases |es|
  {
    |es| > 0 && (Loses(s, es[0]) || LosesIn(Apply(s, es[0]), es[1..]))
  }

  lemma {:induction false} RunServed(s: State, es: seq<Event>)
    requires Inv(s) && Legal(s, es) && Served(s)
    ensures AlwaysServed(s, es) <==> !LosesIn(s, es)
    ensures AlwaysServed(s, es) ==> Served(Run(s, es))
    decreases |es|
  {
    if |es| > 0 {
      StepServed(s, es[0]);
      StepInv(s, es[0]);
      if Served(Apply(s, es[0])) {
        RunServed(Apply(s, es[0]), es[1..]);
      } else {
        UnservedAtOnce(Apply(s, es[0]), es[1..]);
      }
    }
  }

  lemma UnservedAtOnce(s: State, es: seq<Event>)
    requires Legal(s, es) && !Served(s)
    ensures !AlwaysServed(s, es)
  {
  }

  lemma StrandedIsUnserved(s: State)
    requires Stranded(s)
    ensures !Served(s)
  {
    var id :| id in s.subscriptions;
    assert !Told(s, id);
  }

  /** Every listener of a run is served throughout if and only if no step of the run loses one. */
  lemma ServedUnlessLost(aborted: bool, es: seq<Event>)
    requires Legal(Initial(aborted), es)
    ensures AlwaysServed(Initial(aborted), es) <==> !LosesIn(Initial(aborted), es)
  {
    assert Served(Initial(aborted));
    RunServed(Initial(aborted), es);
  }

  /** No run strands a listener without such a step. */
  lemma StrandedOnlyByLoss(aborted: bool, es: seq<Event>)
    requires Legal(Initial(aborted), es) && Stranded(Run(Initial(aborted), es))
    ensures LosesIn(Initial(aborted), es)
  {
    assert Served(Initial(aborted));
    RunServed(Initial(aborted), es);
    StrandedIsUnserved(Run(Initial(aborted), es));
  }

  // ----- a loss can always end stranded -----

  // The service is open, listener x is not told, and no attempt of the current epoch can still connect.
  ghost predicate Lost(s: State, x: nat) {
    && !s.closing && !s.aborted && s.activeSlot == None && !Pending(s)
    && x in s.subscriptions && !Told(s, x)
    && (forall a <- s.attempts :: s.attempts[a].epoch == s.epoch ==> !Live(s.attempts[a]))
  }

  lemma LossLeavesOneLost(s: State, e: Event) returns (x: nat)
    requires Inv(s) && Enabled(s, e) && Served(s) && Loses(s, e)
    ensures Lost(Apply(s, e), x)
  {
    StepServed(s, e);
    StepInv(s, e);
    var s' := Apply(s, e);
    x :| x in s'.subscriptions && !Told(s', x);
    forall a | a in s'.attempts && s'.attempts[a].epoch == s'.epoch
      ensures !Live(s'.attempts[a])
    {
      assert AttemptInv(s', a);
      LossIsDecided(s, e);
    }
  }

  // After a loss the attempt behind connectPromise is not live.
  lemma LossIsDecided(s: State, e: Event)
    requires Inv(s) && Enabled(s, e) && Loses(s, e)
    ensures var s' := Apply(s, e); PromiseIsCurrent(s') && !Live(s'.attempts[s'.connectPromise.value])
  {
    if e.Opened? || e.Listened? {
      assert AttemptInv(s, e.a);
    }
  }

  function Steps(pc: Pc): nat {
    match pc
    case Settled(_) => 0
    case Ending(_) => 1
    case Rescanning => 1
    case _ => 2
  }

  // The next step of an attempt that goes on without any failure.
  function NextOf(at: Attempt, a: nat): Event {
    match at.pc
    case ReadingCredential => CredentialRead(a, true)
    case Opening => Opened(a, true)
    case Listening => Listened(a, true)
    case Rescanning => RescanDone(a)
    case Ending(_) => EndSettled(a)
    case Settled(_) => PromiseCallback(a)
  }

  // A stale attempt that resumes gives up its client.
  lemma LostCredential(s: State, x: nat, a: nat)
    requires Lost(s, x) && Suspended(s, a, ReadingCredential) && AttemptInv(s, a)
    ensures Lost(Apply(s, CredentialRead(a, true)), x)
    ensures Apply(s, CredentialRead(a, true)).attempts[a].pc == Ending(false)
  {
    var s' := Apply(s, CredentialRead(a, true));
    MoveTells(s, s', a);
    assert !Tells(s', a, x) && !Retries(s', a);
  }

  lemma LostGaveUp(s: State, x: nat, a: nat)
    requires Lost(s, x) && a in s.attempts && OwnsSlot(s, a)
    ensures Lost(GaveUp(s, a, s.attempts[a].slot.value), x)
  {
    var s' := GaveUp(s, a, s.attempts[a].slot.value);
    if Rejecting(s.attempts[a]) {
      assert !Tells(s, a, x);
    }
    forall b: nat
      ensures !Tells(s', b, x) && !Retries(s', b)
    {
      assert b != a ==> (Tells(s', b, x) ==> Tells(s, b, x)) && (Retries(s', b) ==> Retries(s, b));
    }
  }

  lemma LostSettles(s: State, x: nat, a: nat, pc: Pc)
    requires Lost(s, x) && a in s.attempts && (pc == Settled(true) ==> s.attempts[a].pc == Ending(true)) && pc.Settled?
    ensures Lost(At(s, a, pc), x)
  {
    var s' := At(s, a, pc);
    forall b: nat
      ensures !Tells(s', b, x) && !Retries(s', b)
    {
      assert (Tells(s', b, x) ==> Tells(s, b, x)) && (Retries(s', b) ==> Retries(s, b));
    }
  }

  lemma LostStep(s: State, x: nat, a: nat)
    requires Inv(s) && Lost(s, x) && a in s.attempts && !s.attempts[a].pc.Settled?
    ensures var e := NextOf(s.attempts[a], a);
            && Enabled(s, e) && Lost(Apply(s, e), x) && Apply(s, e).attempts.Keys == s.attempts.Keys
            && Steps(Apply(s, e).attempts[a].pc) < Steps(s.attempts[a].pc)
  {
    assert AttemptInv(s, a);
    match s.attempts[a].pc
    case ReadingCredential => LostCredential(s, x, a);
    case Opening => LostGaveUp(s, x, a);
    case Listening => LostGaveUp(s, x, a);
    case Rescanning => LostSettles(s, x, a, Settled(false));
    case Ending(r) => LostSettles(s, x, a, Settled(r));
    case Settled(_) =>
  }

  lemma LostCallback(s: State, x: nat, a: nat)
    requires Inv(s) && Lost(s, x) && a in s.attempts && s.attempts[a].pc.Settled?
    ensures Enabled(s, PromiseCallback(a)) && Lost(Apply(s, PromiseCallback(a)), x)
    ensures Apply(s, PromiseCallback(a)).attempts.Keys == s.attempts.Keys - {a}
  {
    CallbackTells(s, a);
  }

  lemma Cons(s: State, e: Event, es: seq<Event>, s': State)
    requires Enabled(s, e) && Reaches(Apply(s, e), es, s')
    ensures Reaches(s, [e] + es, s')
  {
    assert ([e] + es)[1..] == es;
  }

  // No help from outside: nobody subscribes.
  ghost predicate NoSubscriber(es: seq<Event>) {
    forall e <- es :: !e.Subscribe?
  }

  lemma {:induction false} LostDrains(s: State, x: nat, a: nat) returns (es: seq<Event>, s': State)
    requires Inv(s) && Lost(s, x) && (a in s.attempts || s.attempts == map[])
    ensures Reaches(s, es, s') && NoSubscriber(es) && Lost(s', x) && s'.attempts == map[]
    decreases |s.attempts.Keys|, if a in s.attempts then Steps(s.attempts[a].pc) else 0
  {
    es, s' := [], s;
    if a in s.attempts {
      var e, b := NextOf(s.attempts[a], a), a;
      StepInv(s, e);
      if s.attempts[a].pc.Settled? {
        LostCallback(s, x, a);
        assert |Apply(s, e).attempts.Keys| < |s.attempts.Keys|;
        b :| b in Apply(s, e).attempts || Apply(s, e).attempts == map[];
      } else {
        LostStep(s, x, a);
      }
      var rest;
      rest, s' := LostDrains(Apply(s, e), x, b);
      es := [e] + rest;
      Cons(s, e, rest, s');
    }
  }

  lemma {:induction false} FailingDrains(s: State, x: nat) returns (es: seq<Event>, s': State)
    requires Inv(s) && Lost(s, x) && s.attempts == map[]
    ensures Reaches(s, es, s') && NoSubscriber(es) && Stranded(s') && x in s'.subscriptions
    decreases |s.failing|
  {
    es, s' := [], s;
    if s.failing != {} {
      var id :| id in s.failing;
      var e := SubscribeFailed(id);
      StepInv(s, e);
      SameAttemptsTell(s, Apply(s, e));
      assert Apply(s, e).failing == s.failing - {id};
      var rest;
      rest, s' := FailingDrains(Apply(s, e), x);
      es := [e] + rest;
      Cons(s, e, rest, s');
    }
  }

  /**
   * Every such step does strand a listener in some continuation without any failure and without
   * any other caller: the attempts at hand end, and the listener is left.
   */
  lemma LossesCanStrand(s: State, e: Event) returns (es: seq<Event>, s': State)
    requires Inv(s) && Enabled(s, e) && Served(s) && Loses(s, e)
    ensures Reaches(Apply(s, e), es, s') && NoSubscriber(es) && Stranded(s')
  {
    StepInv(s, e);
    var x := LossLeavesOneLost(s, e);
    var a: nat :| a in Apply(s, e).attempts || Apply(s, e).attempts == map[];
    var es1, s1 := LostDrains(Apply(s, e), x, a);
    ReachesInv(Apply(s, e), es1, s1);
    var es2, s2 := FailingDrains(s1, x);
    Append(Apply(s, e), es1, s1, es2, s2);
    es, s' := es1 + es2, s2;
  }

  lemma ReachesInv(s: State, es: seq<Event>, s': State)
    requires Inv(s) && Reaches(s, es, s')
    ensures Inv(s')
  {
    RunInv(s, es);
  }

  lemma {:induction false} Append(s: State, es: seq<Event>, s1: State, fs: seq<Event>, s2: State)
    requires Reaches(s, es, s1) && Reaches(s1, fs, s2)
    ensures Reaches(s, es + fs, s2)
    decreases |es|
  {
    if |es| == 0 {
      assert es + fs == fs;
    } else {
      Append(Apply(s, es[0]), es[1..], s1, fs, s2);
      assert es + fs == [es[0]] + (es[1..] + fs);
      Cons(s, es[0], es[1..] + fs, s2);
    }
  }

  // ----- a second way to be lost -----

  // The first connection of the only subscriber is lost while it connects.
  lemma LostWhileConnecting() returns (es: seq<Event>, s: State)
    ensures Reaches(Initial(false), es, s)
    ensures s == State(None, None, Some(0), map[1 := Slot(CLOSED, 1, 0)],
                       map[0 := Attempt(0, false, Opening, Some(1), 0, {1})],
                       1, 1, 1, false, false, {1}, true, 1, 0, {})
  {
    es, s := [], Initial(false);
    es, s := Then(Initial(false), es, s, Subscribe(1, true));
    assert s.attempts[0].subscribers == {1} && s.subscriptions == {1};
    assert s.attempts == map[0 := Attempt(0, false, ReadingCredential, None, 0, {1})];
    es, s := Then(Initial(false), es, s, CredentialRead(0, true));
    assert s.attempts == map[0 := Attempt(0, false, Opening, Some(1), 0, {1})];
    assert s.slots == map[1 := Slot(CONNECTING, 0, 0)];
    es, s := Then(Initial(false), es, s, ClientFailure(1));
    assert s.slots == map[1 := Slot(CLOSED, 1, 0)];
  }

  // Its connect call rejects too, and the reconnect starts.
  lemma ReconnectWithoutListeners() returns (es: seq<Event>, s: State)
    ensures Reaches(Initial(false), es, s)
    ensures s == State(None, None, Some(1), map[1 := Slot(STALE, 1, 0)],
                       map[0 := Attempt(0, false, Ending(true), Some(1), 0, {1}),
                           1 := Attempt(1, true, ReadingCredential, None, 1, {})],
                       1, 1, 2, false, false, {1}, false, 1, 0, {})
  {
    es, s := LostWhileConnecting();
    es, s := Then(Initial(false), es, s, Opened(0, false));
    assert s.attempts == map[0 := Attempt(0, false, Ending(true), Some(1), 0, {1})];
    assert s.slots == map[1 := Slot(STALE, 1, 0)];
    es, s := Then(Initial(false), es, s, TimerFires(true));
    assert s.attempts == map[0 := Attempt(0, false, Ending(true), Some(1), 0, {1}),
                             1 := Attempt(1, true, ReadingCredential, None, 1, {})];
  }

  // The failed subscriber is dropped without closing anything, and the reconnect gives up on an empty set.
  lemma ReconnectGivesUp() returns (es: seq<Event>, s: State)
    ensures Reaches(Initial(false), es, s)
    ensures s == State(None, Some(2), Some(1), map[1 := Slot(STALE, 1, 0), 2 := Slot(CLOSED, 1, 1)],
                       map[1 := Attempt(1, true, Ending(false), Some(2), 1, {})],
                       1, 2, 2, false, false, {}, false, 1, 0, {})
  {
    es, s := ReconnectWithoutListeners();
    es, s := Then(Initial(false), es, s, CredentialRead(1, true));
    assert s.slots == map[1 := Slot(STALE, 1, 0), 2 := Slot(CONNECTING, 0, 1)];
    es, s := Then(Initial(false), es, s, EndSettled(0));
    es, s := Then(Initial(false), es, s, PromiseCallback(0));
    assert s.failing == {1} && s.attempts == map[1 := Attempt(1, true, Opening, Some(2), 1, {})];
    es, s := Then(Initial(false), es, s, SubscribeFailed(1));
    assert s.failing == {} && s.subscriptions == {};
    es, s := Then(Initial(false), es, s, Opened(1, true));
    assert s.slots == map[1 := Slot(STALE, 1, 0), 2 := Slot(CLOSED, 1, 1)];
    assert s.attempts == map[1 := Attempt(1, true, Ending(false), Some(2), 1, {})];
  }

  /**
   * A run in which nobody is overtaken: a failed subscriber leaves the reconnect without listeners,
   * it gives up, and the next subscriber joins its promise, which resolves without a connection.
   */
  lemma JoiningADecidedAttemptStrands() returns (es: seq<Event>, s: State)
    ensures Reaches(Initial(false), es, s) && Stranded(s) && s.subscriptions == {2}
  {
    es, s := ReconnectGivesUp();
    es, s := Then(Initial(false), es, s, Subscribe(2, true));
    assert s.subscriptions == {2} && s.attempts[1].subscribers == {2};
    es, s := Then(Initial(false), es, s, EndSettled(1));
    es, s := Then(Initial(false), es, s, PromiseCallback(1));
    assert s.attempts == map[];
  }
}
