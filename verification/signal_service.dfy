/**
 * The service object: its fields, and each stretch of code between two awaits as a method.
 */
module SignalService {
  import opened Options
  import opened Signals
  import opened SignalSafety

  class PostgresSignalService {
    var activeSlot: Option<nat>
    var connectingSlot: Option<nat>
    var connectPromise: Option<nat>
    var slots: map<nat, Slot>
    var attempts: map<nat, Attempt>
    var connectionEpoch: nat
    var nextConnectionGeneration: nat
    var nextAttempt: nat
    var closing: bool
    var aborted: bool
    var subscriptions: set<nat>
    var reconnectTimer: bool
    var reconnectAttempt: nat
    var retries: nat
    var failing: set<nat>
    // The listeners already asked to rescan; no step of the connection looks at it.
    var rescanned: set<nat>

    function View(): State
      reads this
    {
      State(activeSlot, connectingSlot, connectPromise, slots, attempts, connectionEpoch, nextConnectionGeneration,
          nextAttempt,
            closing, aborted, subscriptions, reconnectTimer, reconnectAttempt, retries, failing)
    }

    constructor (aborted: bool)
      ensures View() == Initial(aborted)
    {
      activeSlot, connectingSlot, connectPromise := None, None, None;
      slots, attempts := map[], map[];
      connectionEpoch, nextConnectionGeneration, nextAttempt, reconnectAttempt, retries := 0, 0, 0, 0, 0;
      this.aborted, closing, reconnectTimer := aborted, false, false;
      subscriptions, failing, rescanned := {}, {}, {};
    }

    // ----- helpers -----

    method DisposeSlot(g: nat)
      requires g in slots
      modifies `slots
      ensures slots == old(slots)[g := Disposed(old(slots)[g])]
    {
      if slots[g].ended == 0 {
        slots := slots[g := slots[g].(state := CLOSED)];
        slots := slots[g := slots[g].(ended := 1)];
      }
    }

    method MarkStale(g: nat)
      requires g in slots
      modifies `slots
      ensures slots == old(slots)[g := old(slots)[g].(state := STALE)]
    {
      slots := slots[g := slots[g].(state := STALE)];
    }

    method RetireSlot(g: nat)
      requires g in slots
      modifies `slots
      ensures slots == old(slots)[g := Retired(old(slots)[g])]
    {
      MarkStale(g);
      DisposeSlot(g);
    }

    method Suspend(a: nat, pc: Pc)
      requires a in attempts
      modifies `attempts
      ensures attempts == old(attempts)[a := old(attempts)[a].(pc := pc)]
    {
      attempts := attempts[a := attempts[a].(pc := pc)];
    }

    method CloseConnection()
      requires activeSlot.Some? ==> activeSlot.value in slots && connectingSlot != activeSlot
      requires connectingSlot.Some? ==> connectingSlot.value in slots
      modifies this
      ensures View() == CloseClient(old(View()))
    {
      connectionEpoch := connectionEpoch + 1;
      reconnectTimer := false;
      var active, connecting := activeSlot, connectingSlot;
      activeSlot := None;
      connectingSlot := None;
      if active.Some? {
        RetireSlot(active.value);
      }
      if connecting.Some? {
        RetireSlot(connecting.value);
      }
    }

    method EnsureConnection(w: Waiter, authority: bool)
      modifies `nextAttempt, `attempts, `connectPromise
      ensures View() == EnsureConnected(old(View()), w, authority)
    {
      if activeSlot.Some? {
        return;
      }
      if connectPromise.Some? && connectPromise.value in attempts
          && attempts[connectPromise.value].epoch == connectionEpoch {
        attempts := attempts[connectPromise.value := Joined(attempts[connectPromise.value], w)];
        return;
      }
      if closing || aborted || subscriptions == {} {
        return;
      }
      Start(w, authority);
    }

    method Start(w: Waiter, authority: bool)
      modifies `nextAttempt, `attempts, `connectPromise
      ensures View() == StartAttempt(old(View()), w, authority)
    {
      var a := nextAttempt;
      nextAttempt := nextAttempt + 1;
      var pc := if authority then ReadingCredential else Settled(true);
      attempts := attempts[a := Joined(Attempt(connectionEpoch, reconnectAttempt > 0, pc, None, 0, {}), w)];
      connectPromise := Some(a);
    }

    method ScheduleAgain()
      modifies `reconnectTimer, `reconnectAttempt
      ensures View() == ScheduleReconnect(old(View()))
    {
      if closing || aborted || subscriptions == {} || reconnectTimer {
        return;
      }
      reconnectAttempt := reconnectAttempt + 1;
      reconnectTimer := true;
    }

    method MayActivate(epoch: nat, g: nat) returns (r: bool)
      requires g in slots
      ensures r == CanActivate(View(), epoch, g)
    {
      return !closing && !aborted && connectionEpoch == epoch && subscriptions != {} && connectingSlot == Some(g)
          && slots[g].state == CONNECTING;
    }

    // The catch clause of an attempt that already owns a client.
    method Fail(a: nat, g: nat)
      requires a in attempts && g in slots
      modifies this
      ensures View() == Caught(old(View()), a, g)
    {
      if connectingSlot == Some(g) { connectingSlot := None; }
      if activeSlot == Some(g) { activeSlot := None; }
      RetireSlot(g);
      Suspend(a, Ending(true));
    }

    // ----- subscriptions -----

    method AddListener(id: nat, authority: bool) returns (admitted: bool, wasConnected: bool)
      requires id !in subscriptions
      modifies this
      ensures admitted <==> !old(closing) && !old(aborted)
      ensures admitted ==> View() == Apply(old(View()), Subscribe(id, authority))
      ensures !admitted ==> View() == old(View())
      ensures wasConnected <==> admitted && old(activeSlot).Some?
      ensures rescanned == old(rescanned)
    {
      if closing || aborted {
        return false, false;
      }
      subscriptions := subscriptions + {id};
      wasConnected := activeSlot.Some?;
      EnsureConnection(Subscriber(id), authority);
      return true, wasConnected;
    }

    // The rest of subscribe, once ensureConnected has resolved: a listener of a connected service is
    // asked to rescan, unless the reconnect already asked it.
    method FinishSubscribe(id: nat, wasConnected: bool) returns (asked: bool)
      modifies `rescanned
      ensures rescanned == old(rescanned) + if asked then {id} else {}
      ensures asked <==> wasConnected || (activeSlot.Some? && id !in old(rescanned))
      ensures wasConnected || activeSlot.Some? ==> id in rescanned
    {
      asked := false;
      if wasConnected {
        rescanned := rescanned + {id};
        asked := true;
      }
      if activeSlot.Some? && id !in rescanned {
        rescanned := rescanned + {id};
        asked := true;
      }
    }

    // The loop of a reconnect over its listeners, before it settles.
    method RescanAll(a: nat)
      requires Suspended(View(), a, Rescanning)
      modifies `rescanned
      ensures rescanned == old(rescanned) + subscriptions
    {
      var left := subscriptions;
      while left != {}
        invariant left <= subscriptions && rescanned == old(rescanned) + (subscriptions - left)
        decreases |left|
      {
        var id :| id in left;
        left := left - {id};
        rescanned := rescanned + {id};
      }
    }

    method RejectListener(id: nat)
      requires Enabled(View(), SubscribeFailed(id))
      modifies `subscriptions, `failing
      ensures View() == Apply(old(View()), SubscribeFailed(id))
    {
      failing := failing - {id};
      subscriptions := subscriptions - {id};
    }

    method RemoveListener(id: nat)
      requires Inv(View())
      modifies this
      ensures id in old(subscriptions) ==> View() == Apply(old(View()), Unsubscribe(id))
      ensures id !in old(subscriptions) ==> View() == old(View())
    {
      if id !in subscriptions {
        return;
      }
      subscriptions := subscriptions - {id};
      if subscriptions == {} {
        CloseConnection();
      }
    }

    method OnAbort()
      requires Inv(View()) && Enabled(View(), Abort)
      modifies this
      ensures View() == Apply(old(View()), Abort)
      ensures aborted && (!old(closing) ==> activeSlot == None && closing)
    {
      aborted := true;
      if closing {
        return;
      }
      closing := true;
      reconnectTimer := false;
      CloseConnection();
    }

    // ----- the attempt, from await to await -----

    method CreateClient(a: nat) returns (g: nat)
      requires a in attempts
      modifies this
      ensures g == old(nextConnectionGeneration) + 1
      ensures View() == WithClient(old(View()), a, Slot(CONNECTING, 0, a), old(attempts)[a].pc)
    {
      nextConnectionGeneration := nextConnectionGeneration + 1;
      g := nextConnectionGeneration;
      slots := slots[g := Slot(CONNECTING, 0, a)];
      attempts := attempts[a := attempts[a].(slot := Some(g))];
      connectingSlot := Some(g);
    }

    method OnCredential(a: nat, ok: bool)
      requires Enabled(View(), CredentialRead(a, ok))
      modifies this
      ensures View() == Apply(old(View()), CredentialRead(a, ok))
    {
      if !ok {
        Suspend(a, Settled(true));
        return;
      }
      var g := CreateClient(a);
      var may := MayActivate(attempts[a].epoch, g);
      if !may {
        DisposeSlot(g);
        Suspend(a, Ending(false));
      } else {
        Suspend(a, Opening);
      }
      ghost var slot := if may then Slot(CONNECTING, 0, a) else Slot(CLOSED, 1, a);
      assert slots == old(slots)[g := slot];
      assert attempts == old(attempts)[a :=
          old(attempts)[a].(pc := if may then Opening else Ending(false), slot := Some(g))];
    }

    method OnOpened(a: nat, ok: bool)
      requires Enabled(View(), Opened(a, ok))
      modifies this
      ensures View() == Apply(old(View()), Opened(a, ok))
    {
      var g := attempts[a].slot.value;
      if !ok {
        Fail(a, g);
        return;
      }
      var may := MayActivate(attempts[a].epoch, g);
      if !may {
        DisposeSlot(g);
        Suspend(a, Ending(false));
        return;
      }
      Suspend(a, Listening);
    }

    method Activate(a: nat, g: nat)
      requires a in attempts && g in slots
      modifies this
      ensures View() == Activated(old(View()), a, g)
    {
      connectingSlot := None;
      slots := slots[g := slots[g].(state := ACTIVE)];
      activeSlot := Some(g);
      reconnectAttempt := 0;
      Suspend(a, if attempts[a].reconnect then Rescanning else Settled(false));
    }

    method OnListened(a: nat, ok: bool)
      requires Inv(View()) && Enabled(View(), Listened(a, ok))
      modifies this
      ensures View() == Apply(old(View()), Listened(a, ok))
      ensures activeSlot == attempts[a].slot <==>
                ok && !Closed(old(View())) && old(attempts)[a].epoch == old(connectionEpoch)
                    && old(attempts)[a].slot == Some(old(nextConnectionGeneration))
      // A reconnect that activates goes on to ask its listeners.
      ensures activeSlot == attempts[a].slot ==>
          attempts[a].pc == if old(attempts)[a].reconnect then Rescanning else Settled(false)
    {
      ActivatesUnlessOvertaken(View(), a);
      OwnSlotIsNotActive(View(), a);
      var g := attempts[a].slot.value;
      if !ok {
        Fail(a, g);
        return;
      }
      var may := MayActivate(attempts[a].epoch, g);
      if !may {
        DisposeSlot(g);
        Suspend(a, Ending(false));
        return;
      }
      Activate(a, g);
    }

    lemma OwnSlotIsNotActive(s: State, a: nat)
      requires Inv(s) && a in s.attempts && HasClient(s.attempts[a])
      ensures s.attempts[a].slot.Some? && s.activeSlot != s.attempts[a].slot
    {
      assert AttemptInv(s, a);
    }

    // A reconnect settles once every listener has been asked.
    method OnRescanned(a: nat)
      requires Enabled(View(), RescanDone(a))
      modifies `attempts, `rescanned
      ensures View() == Apply(old(View()), RescanDone(a))
      ensures rescanned == old(rescanned) + subscriptions
    {
      RescanAll(a);
      Suspend(a, Settled(false));
    }

    method OnEnded(a: nat)
      requires Enabled(View(), EndSettled(a))
      modifies `attempts
      ensures View() == Apply(old(View()), EndSettled(a))
    {
      Suspend(a, Settled(attempts[a].pc.rejects));
    }

    method OnPromise(a: nat)
      requires Enabled(View(), PromiseCallback(a))
      modifies this
      ensures View() == Apply(old(View()), PromiseCallback(a))
    {
      if connectPromise == Some(a) {
        connectPromise := None;
      }
      var at := attempts[a];
      attempts := attempts - {a};
      if at.pc.rejected {
        retries := retries + at.timers;
        failing := failing + at.subscribers;
      }
    }

    // ----- client events and timers -----

    // The current client is gone: its attempt is out of date and its slot is disposed.
    method LoseClient(g: nat)
      requires g in slots
      modifies `slots, `activeSlot, `connectingSlot, `connectionEpoch
      ensures View() == Failed(old(View()), g)
    {
      MarkStale(g);
      if activeSlot == Some(g) { activeSlot := None; }
      if connectingSlot == Some(g) { connectingSlot := None; }
      connectionEpoch := connectionEpoch + 1;
      DisposeSlot(g);
      assert slots == old(slots)[g := Retired(old(slots)[g])];
    }

    method HandleClientFailure(g: nat)
      requires g in slots
      modifies this
      ensures View() == Apply(old(View()), ClientFailure(g))
    {
      if closing || slots[g].state == STALE || slots[g].state == CLOSED {
        return;
      }
      var isActive := activeSlot == Some(g) && slots[g].state == ACTIVE;
      var isConnecting := connectingSlot == Some(g) && slots[g].state == CONNECTING;
      if !isActive && !isConnecting {
        return;
      }
      LoseClient(g);
      ScheduleAgain();
    }

    // A notification wakes the listeners of its topic, on the current connection and on no other.
    // hint is the decoded topic, or None for a notification that is refused.
    method HandleNotification(g: nat, hint: Option<nat>, topicOf: nat -> nat) returns (woken: Option<set<nat>>)
      requires Inv(View()) && g in slots
      ensures woken.Some? ==> woken.value == set id | id in Woken(View(), g) && hint == Some(topicOf(id))
      ensures activeSlot == Some(g) && !closing && hint.Some? ==>
          woken == Some(set id | id in subscriptions && topicOf(id) == hint.value)
      ensures woken.Some? && woken.value != {} ==>
          slots[g].ended == 0 && slots[g].state == ACTIVE && activeSlot == Some(g) && !closing
      ensures woken == None <==> hint == None && activeSlot == Some(g) && !closing
    {
      assert SlotInv(View(), g);
      if closing || activeSlot != Some(g) || slots[g].state != ACTIVE {
        return Some({});
      }
      if hint == None {
        return None;
      }
      return Some(set id | id in subscriptions && topicOf(id) == hint.value);
    }

    method OnTimer(authority: bool)
      requires Enabled(View(), TimerFires(authority))
      modifies this
      ensures View() == Apply(old(View()), TimerFires(authority))
    {
      reconnectTimer := false;
      if closing || aborted || subscriptions == {} {
        return;
      }
      EnsureConnection(Timer, authority);
    }

    method OnRetry()
      requires Enabled(View(), Retry)
      modifies this
      ensures View() == Apply(old(View()), Retry)
    {
      retries := retries - 1;
      ScheduleAgain();
    }
  }
}
