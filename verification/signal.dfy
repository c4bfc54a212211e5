/**
 * The LISTEN connection behind all signal subscriptions: connection slots, connection attempts
 * that interleave at every await, and the epoch that tells a current attempt from a stale one.
 */
module Signals {
  import opened Options

  datatype SlotState = CONNECTING | ACTIVE | STALE | CLOSED

  // ended counts the calls of client.end; owner is the attempt that created the client.
  datatype Slot = Slot(state: SlotState, ended: nat, owner: nat)

  // Where an attempt is suspended. Settled attempts wait for their promise callback.
  datatype Pc = ReadingCredential | Opening | Listening | Rescanning | Ending(rejects: bool) | Settled(rejected: bool)

  // timers and subscribers are waiting for the attempt's promise.
  datatype Attempt = Attempt(epoch: nat, reconnect: bool, pc: Pc, slot: Option<nat>, timers: nat, subscribers: set<nat>)

  datatype Waiter = Timer | Subscriber(id: nat)

  datatype State = State(
    activeSlot: Option<nat>, connectingSlot: Option<nat>, connectPromise: Option<nat>,
    slots: map<nat, Slot>, attempts: map<nat, Attempt>,
    epoch: nat, generation: nat, nextAttempt: nat,
    closing: bool, aborted: bool, subscriptions: set<nat>,
    timer: bool, reconnectAttempt: nat, retries: nat, failing: set<nat>)

  // authority is the answer of assertActive; g names a slot by its generation, a an attempt.
  datatype Event =
    | Subscribe(id: nat, authority: bool)
    | SubscribeFailed(id: nat)
    | Unsubscribe(id: nat)
    | Abort
    | CredentialRead(a: nat, ok: bool)
    | Opened(a: nat, ok: bool)
    | Listened(a: nat, ok: bool)
    | RescanDone(a: nat)
    | EndSettled(a: nat)
    | PromiseCallback(a: nat)
    | ClientFailure(g: nat)
    | TimerFires(authority: bool)
    | Retry

  // ----- the pieces between awaits -----

  predicate Closed(s: State) {
    s.closing || s.aborted || s.subscriptions == {}
  }

  predicate CanActivate(s: State, epoch: nat, g: nat) {
    !Closed(s) && s.epoch == epoch && s.connectingSlot == Some(g) && g in s.slots && s.slots[g].state == CONNECTING
  }

  // disposeSlot ends a client that was not ended before.
  function Disposed(slot: Slot): Slot {
    if slot.ended > 0 then slot else slot.(state := CLOSED, ended := 1)
  }

  function Retired(slot: Slot): Slot {
    Disposed(slot.(state := STALE))
  }

  function RetiredIn(slots: map<nat, Slot>, g: Option<nat>): map<nat, Slot> {
    if g.Some? && g.value in slots then slots[g.value := Retired(slots[g.value])] else slots
  }

  function CloseClient(s: State): State {
    s.(epoch := s.epoch + 1, timer := false, activeSlot := None, connectingSlot := None,
       slots := RetiredIn(RetiredIn(s.slots, s.activeSlot), s.connectingSlot))
  }

  function Joined(at: Attempt, w: Waiter): Attempt {
    match w
    case Timer => at.(timers := at.timers + 1)
    case Subscriber(id) => at.(subscribers := at.subscribers + {id})
  }

  function JoinAttempt(s: State, a: nat, w: Waiter): State
    requires a in s.attempts
  {
    s.(attempts := s.attempts[a := Joined(s.attempts[a], w)])
  }

  function StartAttempt(s: State, w: Waiter, authority: bool): State {
    var at :=
        Attempt(s.epoch, s.reconnectAttempt > 0, if authority then ReadingCredential else Settled(true), None, 0, {});
    s.(attempts := s.attempts[s.nextAttempt := Joined(at, w)], connectPromise := Some(s.nextAttempt), nextAttempt :=
        s.nextAttempt + 1)
  }

  predicate PromiseIsCurrent(s: State) {
    s.connectPromise.Some? && s.connectPromise.value in s.attempts
        && s.attempts[s.connectPromise.value].epoch == s.epoch
  }

  function EnsureConnected(s: State, w: Waiter, authority: bool): State {
    if s.activeSlot.Some? then s
    else if PromiseIsCurrent(s) then JoinAttempt(s, s.connectPromise.value, w)
    else if Closed(s) then s
    else StartAttempt(s, w, authority)
  }

  function ScheduleReconnect(s: State): State {
    if Closed(s) || s.timer then s else s.(timer := true, reconnectAttempt := s.reconnectAttempt + 1)
  }

  function At(s: State, a: nat, pc: Pc): State
    requires a in s.attempts
  {
    s.(attempts := s.attempts[a := s.attempts[a].(pc := pc)])
  }

  // A new client takes the connecting slot whatever its epoch; an attempt that may not go on disposes it at once.
  function WithClient(s: State, a: nat, slot: Slot, pc: Pc): State
    requires a in s.attempts
  {
    s.(generation := s.generation + 1, connectingSlot := Some(s.generation + 1), slots :=
        s.slots[s.generation + 1 := slot],
       attempts := s.attempts[a := s.attempts[a].(pc := pc, slot := Some(s.generation + 1))])
  }

  function Dropped(current: Option<nat>, g: nat): Option<nat> {
    if current == Some(g) then None else current
  }

  // The catch clause of an attempt that owns slot g.
  function Caught(s: State, a: nat, g: nat): State
    requires a in s.attempts && g in s.slots
  {
    s.(connectingSlot := Dropped(s.connectingSlot, g), activeSlot := Dropped(s.activeSlot, g),
       slots := s.slots[g := Retired(s.slots[g])], attempts := s.attempts[a := s.attempts[a].(pc := Ending(true))])
  }

  // An attempt that may not go on disposes its client and returns.
  function GaveUp(s: State, a: nat, g: nat): State
    requires a in s.attempts && g in s.slots
  {
    s.(slots := s.slots[g := Disposed(s.slots[g])], attempts := s.attempts[a := s.attempts[a].(pc := Ending(false))])
  }

  function Activated(s: State, a: nat, g: nat): State
    requires a in s.attempts && g in s.slots
  {
    s.(connectingSlot := None, activeSlot := Some(g), reconnectAttempt := 0,
       slots := s.slots[g := s.slots[g].(state := ACTIVE)],
       attempts :=
           s.attempts[a := s.attempts[a].(pc := if s.attempts[a].reconnect then Rescanning else Settled(false))])
  }

  // The failed slot is dropped, its epoch is over, and its client is ended.
  function Failed(s: State, g: nat): State
    requires g in s.slots
  {
    s.(connectingSlot := Dropped(s.connectingSlot, g), activeSlot := Dropped(s.activeSlot, g), epoch := s.epoch + 1,
       slots := s.slots[g := Retired(s.slots[g])])
  }

  // ----- events -----

  predicate Suspended(s: State, a: nat, pc: Pc) {
    a in s.attempts && s.attempts[a].pc == pc
  }

  predicate OwnsSlot(s: State, a: nat)
    requires a in s.attempts
  {
    s.attempts[a].slot.Some? && s.attempts[a].slot.value in s.slots
  }

  predicate Enabled(s: State, e: Event) {
    match e
    case Subscribe(id, _) => !s.closing && !s.aborted && id !in s.subscriptions
    case SubscribeFailed(id) => id in s.failing
    case Unsubscribe(id) => id in s.subscriptions
    case Abort => !s.aborted
    case CredentialRead(a, _) => Suspended(s, a, ReadingCredential)
    case Opened(a, _) => Suspended(s, a, Opening) && OwnsSlot(s, a)
    case Listened(a, _) => Suspended(s, a, Listening) && OwnsSlot(s, a)
    case RescanDone(a) => Suspended(s, a, Rescanning)
    case EndSettled(a) => a in s.attempts && s.attempts[a].pc.Ending?
    case PromiseCallback(a) => a in s.attempts && s.attempts[a].pc.Settled?
    case ClientFailure(g) => g in s.slots
    case TimerFires(_) => s.timer
    case Retry => s.retries > 0
  }

  function Apply(s: State, e: Event): State
    requires Enabled(s, e)
  {
    match e
    case Subscribe(id, authority) =>
      EnsureConnected(s.(subscriptions := s.subscriptions + {id}), Subscriber(id), authority)
    case SubscribeFailed(id) =>
      s.(subscriptions := s.subscriptions - {id}, failing := s.failing - {id})
    case Unsubscribe(id) =>
      var s1 := s.(subscriptions := s.subscriptions - {id});
      if s1.subscriptions == {} then CloseClient(s1) else s1
    case Abort =>
      if s.closing then s.(aborted := true) else CloseClient(s.(aborted := true, closing := true, timer := false))
    case CredentialRead(a, ok) =>
      if !ok then At(s, a, Settled(true))
      else if !Closed(s) && s.epoch == s.attempts[a].epoch then WithClient(s, a, Slot(CONNECTING, 0, a), Opening)
      else WithClient(s, a, Slot(CLOSED, 1, a), Ending(false))
    case Opened(a, ok) =>
      var g := s.attempts[a].slot.value;
      if !ok then Caught(s, a, g)
      else if CanActivate(s, s.attempts[a].epoch, g) then At(s, a, Listening)
      else GaveUp(s, a, g)
    case Listened(a, ok) =>
      var g := s.attempts[a].slot.value;
      if !ok then Caught(s, a, g)
      else if CanActivate(s, s.attempts[a].epoch, g) then
        Activated(s, a, g)
      else GaveUp(s, a, g)
    case RescanDone(a) => At(s, a, Settled(false))
    case EndSettled(a) => At(s, a, Settled(s.attempts[a].pc.rejects))
    case PromiseCallback(a) =>
      var at := s.attempts[a];
      s.(attempts := s.attempts - {a},
         connectPromise := if s.connectPromise == Some(a) then None else s.connectPromise,
         retries := s.retries + if at.pc.rejected then at.timers else 0,
         failing := s.failing + if at.pc.rejected then at.subscribers else {})
    case ClientFailure(g) =>
      if FailureCounts(s, g) then ScheduleReconnect(Failed(s, g)) else s
    case TimerFires(authority) =>
      var s1 := s.(timer := false);
      if Closed(s1) then s1 else EnsureConnected(s1, Timer, authority)
    case Retry => ScheduleReconnect(s.(retries := s.retries - 1))
  }

  // handleClientFailure reacts to the current slot only.
  predicate FailureCounts(s: State, g: nat)
    requires g in s.slots
  {
    !s.closing
        && ((s.activeSlot == Some(g) && s.slots[g].state == ACTIVE)
        || (s.connectingSlot == Some(g) && s.slots[g].state == CONNECTING))
  }

  // The listeners a notification from slot g reaches; its topic then picks among them.
  function Woken(s: State, g: nat): set<nat> {
    if s.closing || s.activeSlot != Some(g) || g !in s.slots || s.slots[g].state != ACTIVE then {} else s.subscriptions
  }

  function Initial(aborted: bool): State {
    State(None, None, None, map[], map[], 0, 0, 0, false, aborted, {}, false, 0, 0, {})
  }

  ghost predicate Legal(s: State, es: seq<Event>)
    decreases |es|
  {
    |es| == 0 || (Enabled(s, es[0]) && Legal(Apply(s, es[0]), es[1..]))
  }

  ghost function Run(s: State, es: seq<Event>): State
    requires Legal(s, es)
    decreases |es|
  {
    if |es| == 0 then s else Run(Apply(s, es[0]), es[1..])
  }

  // ----- the invariant -----

  predicate HasClient(at: Attempt) {
    at.pc == Opening || at.pc == Listening
  }

  predicate Live(at: Attempt) {
    at.pc == ReadingCredential || HasClient(at)
  }

  // A client not ended yet is the active one or belongs to an attempt that will decide about it.
  predicate SlotInv(s: State, g: nat)
    requires g in s.slots
  {
    var slot := s.slots[g];
    && 1 <= g <= s.generation && slot.owner < s.nextAttempt
    && slot.ended <= 1
    && (slot.state == ACTIVE <==> s.activeSlot == Some(g))
    && (slot.state == ACTIVE && slot.owner in s.attempts ==> !Live(s.attempts[slot.owner]))
    && (slot.ended == 0 <==> slot.state == ACTIVE || slot.state == CONNECTING)
    && (slot.state == CONNECTING ==>
        slot.owner in s.attempts && HasClient(s.attempts[slot.owner]) && s.attempts[slot.owner].slot == Some(g))
  }

  // One attempt per epoch, the one behind connectPromise; while it lives nothing is active.
  predicate AttemptInv(s: State, a: nat)
    requires a in s.attempts
  {
    var at := s.attempts[a];
    && a < s.nextAttempt && at.epoch <= s.epoch
    && (HasClient(at) ==>
        at.slot.Some? && at.slot.value <= s.generation && at.slot.value in s.slots && s.slots[at.slot.value].owner == a)
    && (HasClient(at) ==> s.activeSlot != at.slot)
    && (at.epoch == s.epoch ==> s.connectPromise == Some(a))
    && (at.epoch == s.epoch && Live(at) ==> s.activeSlot == None)
    && (at.epoch < s.epoch && HasClient(at) ==> s.connectingSlot != at.slot)
    && (at.epoch == s.epoch && HasClient(at) ==> s.slots[at.slot.value].state == CONNECTING && s.connectingSlot.Some?)
  }

  predicate Header(s: State) {
    && (s.activeSlot.Some? ==> s.activeSlot.value in s.slots && s.connectingSlot != s.activeSlot)
    && (s.connectingSlot.Some? ==> s.connectingSlot.value in s.slots && s.connectingSlot.value == s.generation)
    && (s.connectPromise.Some? ==> s.connectPromise.value in s.attempts)
    && (s.closing || s.aborted ==> s.activeSlot == None)
  }

  ghost predicate Inv(s: State) {
    && Header(s)
    && (forall g <- s.slots :: SlotInv(s, g))
    && (forall a <- s.attempts :: AttemptInv(s, a))
  }

  // What the steps look at besides the slot or attempt in question.
  predicate Near(s: State) {
    && Header(s)
    && (s.activeSlot.Some? ==> SlotInv(s, s.activeSlot.value))
    && (s.connectingSlot.Some? ==> SlotInv(s, s.connectingSlot.value))
    && (s.connectPromise.Some? ==> AttemptInv(s, s.connectPromise.value))
  }

  predicate Owner(s: State, b: nat, h: nat) {
    && b in s.attempts && AttemptInv(s, b) && HasClient(s.attempts[b]) && s.attempts[b].slot == Some(h)
    && h in s.slots && SlotInv(s, h)
  }

  // What one piece keeps, said of the header, one slot and one attempt.
  predicate Kept(s: State, s': State, g: nat, a: nat) {
    && Header(s')
    && (g in s'.slots && (g in s.slots ==> SlotInv(s, g)) ==> SlotInv(s', g))
    && (a in s'.attempts && (a in s.attempts ==> AttemptInv(s, a)) ==> AttemptInv(s', a))
  }

  lemma JoinAttemptKeeps(s: State, b: nat, w: Waiter, g: nat, a: nat)
    requires Near(s) && b in s.attempts && AttemptInv(s, b)
    ensures Kept(s, JoinAttempt(s, b, w), g, a)
  {
  }

  lemma StartAttemptKeeps(s: State, w: Waiter, authority: bool, g: nat, a: nat)
    requires Near(s) && s.activeSlot == None && !PromiseIsCurrent(s)
    ensures Kept(s, StartAttempt(s, w, authority), g, a)
  {
  }

  lemma CloseClientKeeps(s: State, s1: State, g: nat, a: nat)
    requires Near(s)
        && s1 == s.(subscriptions := s1.subscriptions, aborted := s1.aborted, closing := s1.closing, timer := s1.timer)
    ensures Kept(s, CloseClient(s1), g, a)
  {
  }

  lemma FailedKeeps(s: State, h: nat, g: nat, a: nat)
    requires Near(s) && h in s.slots && SlotInv(s, h) && FailureCounts(s, h)
    ensures Kept(s, Failed(s, h), g, a)
  {
  }

  lemma WithClientKeeps(s: State, b: nat, ok: bool, g: nat, a: nat)
    requires Near(s) && Suspended(s, b, ReadingCredential) && AttemptInv(s, b)
    requires ok ==> !Closed(s) && s.epoch == s.attempts[b].epoch
    ensures Kept(s, if ok then WithClient(s, b, Slot(CONNECTING, 0, b), Opening)
        else WithClient(s, b, Slot(CLOSED, 1, b), Ending(false)), g, a)
  {
  }

  lemma CredentialReadKeeps(s: State, b: nat, ok: bool, g: nat, a: nat)
    requires Near(s) && Suspended(s, b, ReadingCredential) && AttemptInv(s, b)
    ensures Kept(s, Apply(s, CredentialRead(b, ok)), g, a)
  {
    if ok {
      WithClientKeeps(s, b, !Closed(s) && s.epoch == s.attempts[b].epoch, g, a);
    }
  }

  lemma CaughtKeeps(s: State, b: nat, h: nat, g: nat, a: nat)
    requires Near(s) && Owner(s, b, h)
    ensures Kept(s, Caught(s, b, h), g, a)
  {
  }

  lemma GaveUpKeeps(s: State, b: nat, h: nat, g: nat, a: nat)
    requires Near(s) && Owner(s, b, h) && !CanActivate(s, s.attempts[b].epoch, h)
    ensures Kept(s, GaveUp(s, b, h), g, a)
  {
  }

  lemma ActivatedKeeps(s: State, b: nat, h: nat, g: nat, a: nat)
    requires Near(s) && Owner(s, b, h) && CanActivate(s, s.attempts[b].epoch, h)
    ensures Kept(s, Activated(s, b, h), g, a)
  {
  }

  lemma EnsureConnectedKeeps(s: State, w: Waiter, authority: bool, g: nat, a: nat)
    requires Near(s)
    ensures Kept(s, EnsureConnected(s, w, authority), g, a)
  {
    if s.activeSlot == None {
      if PromiseIsCurrent(s) {
        JoinAttemptKeeps(s, s.connectPromise.value, w, g, a);
      } else {
        StartAttemptKeeps(s, w, authority, g, a);
      }
    }
  }

  // An attempt resumes from client.connect or from LISTEN.
  lemma ResumedKeeps(s: State, b: nat, ok: bool, g: nat, a: nat)
    requires Near(s) && b in s.attempts && s.attempts[b].slot.Some? && Owner(s, b, s.attempts[b].slot.value)
    ensures s.attempts[b].pc == Opening ==> Kept(s, Apply(s, Opened(b, ok)), g, a)
    ensures s.attempts[b].pc == Listening ==> Kept(s, Apply(s, Listened(b, ok)), g, a)
  {
    var h := s.attempts[b].slot.value;
    if !ok {
      CaughtKeeps(s, b, h, g, a);
    } else if !CanActivate(s, s.attempts[b].epoch, h) {
      GaveUpKeeps(s, b, h, g, a);
    } else if s.attempts[b].pc == Listening {
      ActivatedKeeps(s, b, h, g, a);
    }
  }

  lemma MovedKeeps(s: State, b: nat, pc: Pc, g: nat, a: nat)
    requires Near(s) && b in s.attempts && AttemptInv(s, b) && !Live(s.attempts[b]) && pc.Settled?
    ensures Kept(s, At(s, b, pc), g, a)
  {
  }

  lemma PromiseCallbackKeeps(s: State, b: nat, g: nat, a: nat)
    requires Near(s) && Enabled(s, PromiseCallback(b)) && AttemptInv(s, b)
    ensures Kept(s, Apply(s, PromiseCallback(b)), g, a)
  {
  }

  lemma SettlingKeeps(s: State, e: Event, g: nat, a: nat)
    requires Near(s) && Enabled(s, e) && (e.RescanDone? || e.EndSettled? || e.PromiseCallback?) && AttemptInv(s, e.a)
    ensures Kept(s, Apply(s, e), g, a)
  {
    if e.RescanDone? {
      MovedKeeps(s, e.a, Settled(false), g, a);
    } else if e.EndSettled? {
      MovedKeeps(s, e.a, Settled(s.attempts[e.a].pc.rejects), g, a);
    } else {
      PromiseCallbackKeeps(s, e.a, g, a);
    }
  }

  // The invariant does not look at subscriptions, timers and their bookkeeping.
  predicate Alike(s: State, s1: State) {
    s1 == s.(subscriptions := s1.subscriptions, timer := s1.timer, reconnectAttempt := s1.reconnectAttempt, retries :=
        s1.retries, failing := s1.failing)
  }

  lemma AlikeKeeps(s: State, s1: State, s2: State, s': State, g: nat, a: nat)
    requires Alike(s, s1) && Alike(s2, s')
    ensures Near(s) ==> Near(s1)
    ensures Kept(s1, s2, g, a) ==> Kept(s, s', g, a)
  {
  }

  lemma AdmissionKeeps(s: State, e: Event, g: nat, a: nat)
    requires Near(s) && Enabled(s, e) && (e.Subscribe? || e.TimerFires?)
    ensures Kept(s, Apply(s, e), g, a)
  {
    var s1 := if e.Subscribe? then s.(subscriptions := s.subscriptions + {e.id}) else s.(timer := false);
    AlikeKeeps(s, s1, Apply(s, e), Apply(s, e), g, a);
    EnsureConnectedKeeps(s1, if e.Subscribe? then Subscriber(e.id) else Timer, e.authority, g, a);
    AlikeKeeps(s, s1, s1, s1, g, a);
  }

  lemma FailureKeeps(s: State, h: nat, g: nat, a: nat)
    requires Near(s) && h in s.slots && SlotInv(s, h)
    ensures Kept(s, Apply(s, ClientFailure(h)), g, a)
  {
    if FailureCounts(s, h) {
      FailedKeeps(s, h, g, a);
      AlikeKeeps(s, s, Failed(s, h), Apply(s, ClientFailure(h)), g, a);
    }
  }

  lemma UnsubscribeKeeps(s: State, id: nat, g: nat, a: nat)
    requires Near(s) && Enabled(s, Unsubscribe(id))
    ensures Kept(s, Apply(s, Unsubscribe(id)), g, a)
  {
    var s1 := s.(subscriptions := s.subscriptions - {id});
    if s1.subscriptions == {} {
      CloseClientKeeps(s, s1, g, a);
    }
  }

  lemma AbortKeeps(s: State, g: nat, a: nat)
    requires Near(s) && Enabled(s, Abort)
    ensures Kept(s, Apply(s, Abort), g, a)
  {
    if !s.closing {
      CloseClientKeeps(s, s.(aborted := true, closing := true, timer := false), g, a);
    }
  }

  lemma BookkeepingKeeps(s: State, e: Event, g: nat, a: nat)
    requires Near(s) && Enabled(s, e) && (e.SubscribeFailed? || e.Retry?)
    ensures Kept(s, Apply(s, e), g, a)
  {
    AlikeKeeps(s, s, s, Apply(s, e), g, a);
  }

  lemma StepKeeps(s: State, e: Event, g: nat, a: nat)
    requires Inv(s) && Enabled(s, e)
    ensures Kept(s, Apply(s, e), g, a)
  {
    assert Near(s);
    if e.Subscribe? || e.TimerFires? {
      AdmissionKeeps(s, e, g, a);
    } else if e.RescanDone? || e.EndSettled? || e.PromiseCallback? {
      SettlingKeeps(s, e, g, a);
    } else if e.CredentialRead? {
      CredentialReadKeeps(s, e.a, e.ok, g, a);
    } else if e.Opened? || e.Listened? {
      ResumedKeeps(s, e.a, e.ok, g, a);
    } else if e.ClientFailure? {
      FailureKeeps(s, e.g, g, a);
    } else if e.Unsubscribe? {
      UnsubscribeKeeps(s, e.id, g, a);
    } else if e.Abort? {
      AbortKeeps(s, g, a);
    } else {
      BookkeepingKeeps(s, e, g, a);
    }
  }

  lemma StepInv(s: State, e: Event)
    requires Inv(s) && Enabled(s, e)
    ensures Inv(Apply(s, e))
  {
    var s' := Apply(s, e);
    StepKeeps(s, e, 0, 0);
    forall g <- s'.slots ensures SlotInv(s', g) { StepKeeps(s, e, g, 0); }
    forall a <- s'.attempts ensures AttemptInv(s', a) { StepKeeps(s, e, 0, a); }
  }
}
