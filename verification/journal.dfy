/**
 * The per-key promise chain and the journal whose read-append-replace it serializes, at the
 * granularity of promise callbacks, with failures at every point and process restarts.
 */
module Journal {
  import opened Options

  type Entry = nat

  datatype Phase = Waiting | Reading | Writing(existing: seq<Entry>) | Settled(ok: bool)

  // One call of run: prev is the barrier it was chained to, cleaned says its finally callback ran.
  datatype Task = Task(key: nat, entry: Entry, prev: Option<nat>, phase: Phase, published: bool, cleaned: bool)

  // tasks are in call order and named by their index; files maps each boot to its journal.
  datatype State = State(tails: map<nat, nat>, tasks: seq<Task>, files: map<nat, seq<Entry>>)

  // The replace of the journal file: refused or failed before the rename, done, or failed after it.
  datatype Replace = Done | StopsBefore | StopsAfter

  datatype Event =
    | Checkpoint(key: nat, entry: Entry)
    | Start(n: nat)
    | Read(n: nat, ok: bool)
    | Publish(n: nat, r: Replace)
    | Cleanup(n: nat)
    | Restart

  function File(s: State, key: nat): seq<Entry> {
    if key in s.files then s.files[key] else []
  }

  predicate InPhase(s: State, n: nat, p: Phase) {
    n < |s.tasks| && s.tasks[n].phase == p
  }

  predicate Enabled(s: State, e: Event) {
    match e
    case Checkpoint(_, _) => true
    case Start(n) => InPhase(s, n, Waiting)
        && (s.tasks[n].prev.Some? ==>
        s.tasks[n].prev.value < |s.tasks| && s.tasks[s.tasks[n].prev.value].phase.Settled?)
    case Read(n, _) => InPhase(s, n, Reading)
    case Publish(n, _) => n < |s.tasks| && s.tasks[n].phase.Writing?
    case Cleanup(n) => n < |s.tasks| && s.tasks[n].phase.Settled? && !s.tasks[n].cleaned
    case Restart => true
  }

  function Tail(s: State, key: nat): Option<nat> {
    if key in s.tails then Some(s.tails[key]) else None
  }

  function Moved(s: State, n: nat, p: Phase): State
    requires n < |s.tasks|
  {
    s.(tasks := s.tasks[n := s.tasks[n].(phase := p)])
  }

  // A dying process takes its chain with it.
  function Abandoned(t: Task): Task {
    t.(phase := if t.phase.Settled? then t.phase else Settled(false), cleaned := true)
  }

  function Apply(s: State, e: Event): State
    requires Enabled(s, e)
  {
    match e
    case Checkpoint(key, entry) =>
      s.(tasks := s.tasks + [Task(key, entry, Tail(s, key), Waiting, false, false)], tails := s.tails[key := |s.tasks|])
    case Start(n) => Moved(s, n, Reading)
    case Read(n, ok) => Moved(s, n, if ok then Writing(File(s, s.tasks[n].key)) else Settled(false))
    case Publish(n, r) =>
      var t := s.tasks[n];
      if r == StopsBefore then Moved(s, n, Settled(false))
      else s.(files := s.files[t.key := t.phase.existing + [t.entry]], tasks :=
          s.tasks[n := t.(phase := Settled(r == Done), published := true)])
    case Cleanup(n) =>
      s.(tasks := s.tasks[n := s.tasks[n].(cleaned := true)],
         tails := if Tail(s, s.tasks[n].key) == Some(n) then s.tails - {s.tasks[n].key} else s.tails)
    case Restart => s.(tails := map[], tasks := seq(|s.tasks|, i requires 0 <= i < |s.tasks| => Abandoned(s.tasks[i])))
  }

  ghost predicate Legal(s: State, es: seq<Event>)
    decreases |es|
  {
    |es| == 0 || (Enabled(s, es[0]) && Legal(Apply(s, es[0]), es[1..]))
  }

  ghost function Run(s: State, es: seq<Event>): State
    requires Legal(s, es)
    decreases |es|
  {
    if |es| == 0 then s else Run(Apply(s, es[0]), es[1..])
  }

  // ----- what the file must be -----

  function Before(initial: map<nat, seq<Entry>>, key: nat): seq<Entry> {
    if key in initial then initial[key] else []
  }

  // The entries of a key's tasks that were published, in call order.
  ghost function PublishedEntries(ts: seq<Task>, key: nat): seq<Entry> {
    if ts == [] then []
    else
      var t := ts[|ts| - 1];
      PublishedEntries(ts[..|ts| - 1], key) + if t.key == key && t.published then [t.entry] else []
  }

  ghost function SuccessfulEntries(ts: seq<Task>, key: nat): seq<Entry> {
    if ts == [] then []
    else
      var t := ts[|ts| - 1];
      SuccessfulEntries(ts[..|ts| - 1], key) + if t.key == key && t.phase == Settled(true) then [t.entry] else []
  }

  // ----- invariant -----

  // A task is past waiting only when every earlier task of its key has settled.
  predicate Ordered(s: State, i: nat, j: nat)
    requires i < j < |s.tasks|
  {
    s.tasks[i].key == s.tasks[j].key ==>
      && (s.tasks[j].phase != Waiting ==> s.tasks[i].phase.Settled?)
      && (match s.tasks[j].prev case None => s.tasks[i].phase.Settled? case Some(p) => i <= p)
  }

  predicate TaskInv(s: State, n: nat)
    requires n < |s.tasks|
  {
    var t := s.tasks[n];
    && (t.prev.Some? ==> t.prev.value < n && s.tasks[t.prev.value].key == t.key)
    && (t.phase == Settled(true) ==> t.published)
    && (t.published ==> t.phase.Settled?)
    && (t.phase.Writing? ==> t.phase.existing == File(s, t.key))
    && (t.cleaned ==> t.phase.Settled?)
    && (Tail(s, t.key) == None ==> t.phase.Settled?)
    && (Tail(s, t.key).Some? ==> n <= Tail(s, t.key).value)
  }

  predicate TailInv(s: State, key: nat) {
    key in s.tails ==> s.tails[key] < |s.tasks| && s.tasks[s.tails[key]].key == key && !s.tasks[s.tails[key]].cleaned
  }

  ghost predicate Inv(s: State, initial: map<nat, seq<Entry>>) {
    && (forall i, j :: 0 <= i < j < |s.tasks| ==> Ordered(s, i, j))
    && (forall n :: 0 <= n < |s.tasks| ==> TaskInv(s, n))
    && (forall key: nat :: TailInv(s, key))
    && (forall key: nat :: File(s, key) == Before(initial, key) + PublishedEntries(s.tasks, key))
  }

  lemma {:induction false} PublishingAppends(ts: seq<Task>, n: nat, t: Task, key: nat)
    requires n < |ts| && t.key == ts[n].key && t.entry == ts[n].entry
    requires t.key == key && !ts[n].published ==> t.published && forall j :: n < j < |ts| && ts[j].key == key ==>
        !ts[j].published
    requires ts[n].published ==> t.published
    ensures PublishedEntries(ts[n := t], key) ==
              PublishedEntries(ts, key) + if t.published && !ts[n].published && t.key == key then [t.entry] else []
    decreases |ts|
  {
    var last := |ts| - 1;
    if n == last {
      assert ts[n := t][..last] == ts[..last];
    } else {
      assert ts[n := t][..last] == ts[..last][n := t];
      PublishingAppends(ts[..last], n, t, key);
    }
  }

  lemma {:induction false} SameFlags(ts: seq<Task>, ts': seq<Task>, key: nat)
    requires |ts| == |ts'|
    requires forall i :: 0 <= i < |ts| ==>
        ts[i].key == ts'[i].key && ts[i].entry == ts'[i].entry && ts[i].published == ts'[i].published
    ensures PublishedEntries(ts, key) == PublishedEntries(ts', key)
    decreases |ts|
  {
    if ts != [] {
      SameFlags(ts[..|ts| - 1], ts'[..|ts| - 1], key);
    }
  }

  predicate BehindPrev(s: State, i: nat, j: nat)
    requires i < j < |s.tasks|
  {
    s.tasks[j].prev.Some? && i < s.tasks[j].prev.value && s.tasks[i].key == s.tasks[j].key
  }

  lemma StepOrdered(s: State, e: Event, i: nat, j: nat)
    requires Enabled(s, e) && i < j < |Apply(s, e).tasks|
    requires j < |s.tasks| ==> Ordered(s, i, j)
    requires i < |s.tasks| ==> TaskInv(s, i)
    requires e.Start? && i != e.n && j == e.n && BehindPrev(s, i, j) ==>
               s.tasks[i].phase.Settled?
    ensures Ordered(Apply(s, e), i, j)
  {
  }

  lemma StepTask(s: State, e: Event, n: nat)
    requires Enabled(s, e) && n < |Apply(s, e).tasks|
    requires n < |s.tasks| ==> TaskInv(s, n)
    requires n < |s.tasks| ==> TailInv(s, s.tasks[n].key)
    requires e.Checkpoint? ==> TailInv(s, e.key)
    requires e.Publish? ==> n == e.n || s.tasks[n].key != s.tasks[e.n].key || !s.tasks[n].phase.Writing?
    requires e.Cleanup? && n < |s.tasks| && n < e.n && s.tasks[n].key == s.tasks[e.n].key ==> s.tasks[n].phase.Settled?
    ensures TaskInv(Apply(s, e), n)
  {
  }

  lemma StepTail(s: State, e: Event, key: nat)
    requires Enabled(s, e) && TailInv(s, key)
    ensures TailInv(Apply(s, e), key)
  {
  }

  lemma StepFiles(s: State, e: Event, key: nat, initial: seq<Entry>)
    requires Enabled(s, e)
    requires File(s, key) == initial + PublishedEntries(s.tasks, key)
    requires e.Publish? ==> TaskInv(s, e.n)
    requires e.Publish? ==>
        forall j :: e.n < j < |s.tasks| && s.tasks[j].key == s.tasks[e.n].key ==> !s.tasks[j].published
    ensures File(Apply(s, e), key) == initial + PublishedEntries(Apply(s, e).tasks, key)
  {
    var s' := Apply(s, e);
    match e
    case Checkpoint(_, _) => assert s'.tasks[..|s.tasks|] == s.tasks;
    case Publish(n, r) =>
      if r == StopsBefore {
        SameFlags(s.tasks, s'.tasks, key);
      } else {
        PublishingAppends(s.tasks, n, s'.tasks[n], key);
      }
    case _ => SameFlags(s.tasks, s'.tasks, key);
  }

  lemma StepInv(s: State, e: Event, initial: map<nat, seq<Entry>>)
    requires Inv(s, initial) && Enabled(s, e)
    ensures Inv(Apply(s, e), initial)
  {
    var s' := Apply(s, e);
    forall i, j | 0 <= i < j < |s'.tasks| ensures Ordered(s', i, j) {
      if e.Start? && j == e.n && s.tasks[j].prev.Some? && i < s.tasks[j].prev.value {
        assert Ordered(s, i, s.tasks[j].prev.value) && TaskInv(s, j);
      }
      StepOrdered(s, e, i, j);
    }
    forall n | 0 <= n < |s'.tasks| ensures TaskInv(s', n) {
      if e.Publish? && n != e.n {
        assert n < e.n ==> Ordered(s, n, e.n);
        assert e.n < n ==> Ordered(s, e.n, n);
      }
      if e.Cleanup? && n < e.n {
        assert Ordered(s, n, e.n);
      }
      StepTask(s, e, n);
    }
    forall key: nat ensures TailInv(s', key) {
      StepTail(s, e, key);
    }
    forall key: nat ensures File(s', key) == Before(initial, key) + PublishedEntries(s'.tasks, key) {
      if e.Publish? {
        forall j | e.n < j < |s.tasks| && s.tasks[j].key == s.tasks[e.n].key ensures !s.tasks[j].published {
          assert Ordered(s, e.n, j) && TaskInv(s, j);
        }
      }
      StepFiles(s, e, key, Before(initial, key));
    }
  }

  lemma {:induction false} RunInv(s: State, es: seq<Event>, initial: map<nat, seq<Entry>>)
    requires Inv(s, initial) && Legal(s, es)
    ensures Inv(Run(s, es), initial)
    decreases |es|
  {
    if |es| > 0 {
      StepInv(s, es[0], initial);
      RunInv(Apply(s, es[0]), es[1..], initial);
    }
  }

  // ----- theorems -----

  predicate Running(t: Task) {
    t.phase == Reading || t.phase.Writing?
  }

  /**
   * For any interleaving of checkpoints, failures and restarts: operations of one key never
   * overlap and run in call order, and a key is dropped only when nothing of it is queued.
   */
  lemma SameKeyRunsAloneAndInOrder(initial: map<nat, seq<Entry>>, es: seq<Event>)
    requires Legal(State(map[], [], initial), es)
    ensures var s := Run(State(map[], [], initial), es);
      && (forall i, j :: 0 <= i < j < |s.tasks| && s.tasks[i].key == s.tasks[j].key ==>
          !(Running(s.tasks[i]) && Running(s.tasks[j])))
      && (forall i, j :: 0 <= i < j < |s.tasks| && s.tasks[i].key == s.tasks[j].key && s.tasks[j].phase != Waiting ==>
          s.tasks[i].phase.Settled?)
      && (forall n :: 0 <= n < |s.tasks| && s.tasks[n].key !in s.tails ==> s.tasks[n].phase.Settled?)
  {
    RunInv(State(map[], [], initial), es, initial);
    var s := Run(State(map[], [], initial), es);
    forall i, j | 0 <= i < j < |s.tasks| && s.tasks[i].key == s.tasks[j].key && s.tasks[j].phase != Waiting
        ensures s.tasks[i].phase.Settled? {
      assert Ordered(s, i, j);
    }
    forall n | 0 <= n < |s.tasks| && s.tasks[n].key !in s.tails ensures s.tasks[n].phase.Settled? {
      assert TaskInv(s, n);
    }
  }

  // A checkpoint whose caller saw a failure although the entry had reached the file.
  predicate LateFailure(t: Task, key: nat) {
    t.key == key && t.published && t.phase != Settled(true)
  }

  lemma {:induction false} SuccessesAmongPublished(ts: seq<Task>, key: nat)
    requires forall i :: 0 <= i < |ts| && ts[i].phase == Settled(true) ==> ts[i].published
    ensures |SuccessfulEntries(ts, key)| <= |PublishedEntries(ts, key)|
    ensures (forall i :: 0 <= i < |ts| ==> !LateFailure(ts[i], key)) ==>
        SuccessfulEntries(ts, key) == PublishedEntries(ts, key)
    ensures (exists i :: 0 <= i < |ts| && LateFailure(ts[i], key)) ==>
        |SuccessfulEntries(ts, key)| < |PublishedEntries(ts, key)|
    decreases |ts|
  {
    if ts != [] {
      var init, last := ts[..|ts| - 1], ts[|ts| - 1];
      SuccessesAmongPublished(init, key);
      if i :| 0 <= i < |ts| && LateFailure(ts[i], key) {
        assert i < |init| ==> LateFailure(init[i], key);
      } else {
        assert forall k :: 0 <= k < |init| ==> init[k] == ts[k];
        assert !LateFailure(ts[|ts| - 1], key);
      }
    }
  }

  ghost predicate SomeLateFailure(s: State, key: nat) {
    exists n :: 0 <= n < |s.tasks| && LateFailure(s.tasks[n], key)
  }

  // The directory sync fails after the rename of a file of this key.
  predicate LateSync(s: State, e: Event, key: nat) {
    e.Publish? && e.r == StopsAfter && e.n < |s.tasks| && s.tasks[e.n].key == key
  }

  ghost predicate LateSyncIn(s: State, es: seq<Event>, key: nat)
    requires Legal(s, es)
    decreases |es|
  {
    |es| > 0 && (LateSync(s, es[0], key) || LateSyncIn(Apply(s, es[0]), es[1..], key))
  }

  lemma StepLateFailure(s: State, e: Event, n: nat, key: nat)
    requires Enabled(s, e) && n < |Apply(s, e).tasks|
    requires n < |s.tasks| ==> TaskInv(s, n)
    ensures LateFailure(Apply(s, e).tasks[n], key) <==>
              (n < |s.tasks| && LateFailure(s.tasks[n], key)) || (LateSync(s, e, key) && e.n == n)
  {
  }

  lemma StepLateFailures(s: State, e: Event, key: nat, initial: map<nat, seq<Entry>>)
    requires Inv(s, initial) && Enabled(s, e)
    ensures SomeLateFailure(Apply(s, e), key) <==> SomeLateFailure(s, key) || LateSync(s, e, key)
  {
    var s' := Apply(s, e);
    forall n | 0 <= n < |s'.tasks|
      ensures LateFailure(s'.tasks[n], key) <==>
                (n < |s.tasks| && LateFailure(s.tasks[n], key)) || (LateSync(s, e, key) && e.n == n)
    {
      StepLateFailure(s, e, n, key);
    }
    assert |s'.tasks| >= |s.tasks|;
    if SomeLateFailure(s, key) {
      var n :| 0 <= n < |s.tasks| && LateFailure(s.tasks[n], key);
      assert LateFailure(s'.tasks[n], key);
    }
    if LateSync(s, e, key) {
      assert LateFailure(s'.tasks[e.n], key);
    }
  }

  lemma {:induction false} LateFailuresAreLateSyncs(s: State, es: seq<Event>, key: nat, initial: map<nat, seq<Entry>>)
    requires Inv(s, initial) && Legal(s, es)
    ensures SomeLateFailure(Run(s, es), key) <==> SomeLateFailure(s, key) || LateSyncIn(s, es, key)
    decreases |es|
  {
    if |es| > 0 {
      StepLateFailures(s, es[0], key, initial);
      StepInv(s, es[0], initial);
      LateFailuresAreLateSyncs(Apply(s, es[0]), es[1..], key, initial);
    }
  }

  /**
   * The journal of a boot is its old content followed by the published entries in call order. It
   * is the list of the successful checkpoints if and only if no directory sync of that journal
   * failed after the rename, in the whole run.
   */
  lemma JournalsAreLinearizable(initial: map<nat, seq<Entry>>, es: seq<Event>, key: nat)
    requires Legal(State(map[], [], initial), es)
    ensures var s := Run(State(map[], [], initial), es);
      && File(s, key) == Before(initial, key) + PublishedEntries(s.tasks, key)
      && (File(s, key) == Before(initial, key) + SuccessfulEntries(s.tasks, key) <==>
            !LateSyncIn(State(map[], [], initial), es, key))
  {
    RunInv(State(map[], [], initial), es, initial);
    var s := Run(State(map[], [], initial), es);
    forall n | 0 <= n < |s.tasks| ensures s.tasks[n].phase == Settled(true) ==> s.tasks[n].published {
      assert TaskInv(s, n);
    }
    SuccessesAmongPublished(s.tasks, key);
    LateFailuresAreLateSyncs(State(map[], [], initial), es, key, initial);
  }

  ghost predicate Reaches(s: State, es: seq<Event>, s': State) {
    Legal(s, es) && Run(s, es) == s'
  }

  lemma {:induction false} Then(s: State, es: seq<Event>, s1: State, e: Event) returns (es': seq<Event>, s2: State)
    requires Reaches(s, es, s1) && Enabled(s1, e)
    ensures Reaches(s, es', s2) && s2 == Apply(s1, e) && es' == es + [e]
    decreases |es|
  {
    es', s2 := es + [e], Apply(s1, e);
    if |es| > 0 {
      assert es'[0] == es[0] && es'[1..] == es[1..] + [e];
      var tail, end := Then(Apply(s, es[0]), es[1..], s1, e);
    }
  }

  /** A concrete run: the directory sync after the rename fails, the caller sees a rejection, and the entry stays. */
  lemma RejectedCheckpointPersists() returns (es: seq<Event>, s: State)
    ensures Reaches(State(map[], [], map[]), es, s)
    ensures s.tasks == [Task(1, 7, None, Settled(false), true, false)] && File(s, 1) == [7]
  {
    es, s := [], State(map[], [], map[]);
    es, s := Then(State(map[], [], map[]), es, s, Checkpoint(1, 7));
    es, s := Then(State(map[], [], map[]), es, s, Start(0));
    assert s.tasks == [Task(1, 7, None, Reading, false, false)];
    es, s := Then(State(map[], [], map[]), es, s, Read(0, true));
    assert s.tasks == [Task(1, 7, None, Writing([]), false, false)];
    es, s := Then(State(map[], [], map[]), es, s, Publish(0, StopsAfter));
    assert s.tasks == [Task(1, 7, None, Settled(false), true, false)];
  }

  /** Nothing is stuck: the oldest unsettled operation of a key can always take its next step. */
  lemma OldestCanMove(s: State, n: nat, initial: map<nat, seq<Entry>>)
    requires Inv(s, initial) && n < |s.tasks| && !s.tasks[n].phase.Settled?
    requires forall i :: 0 <= i < n && s.tasks[i].key == s.tasks[n].key ==> s.tasks[i].phase.Settled?
    ensures Enabled(s, Start(n)) || Enabled(s, Read(n, true)) || Enabled(s, Publish(n, Done))
  {
    assert TaskInv(s, n);
  }

  // ----- what a checkpoint comes to, told by what happened to it -----

  // The operation still has its own way to go.
  predicate Pending(s: State, n: nat) {
    n < |s.tasks| && !s.tasks[n].phase.Settled? && !s.tasks[n].published
  }

  predicate Ended(s: State, n: nat) {
    n < |s.tasks| && s.tasks[n].phase.Settled?
  }

  lemma {:induction false} SettledForGood(s: State, es: seq<Event>, n: nat)
    requires Legal(s, es) && Ended(s, n)
    ensures Ended(Run(s, es), n) && Run(s, es).tasks[n].phase == s.tasks[n].phase
    ensures Run(s, es).tasks[n].published == s.tasks[n].published
    ensures forall e <- es :: !(e.Publish? && e.n == n)
    decreases |es|
  {
    if |es| > 0 {
      assert Ended(Apply(s, es[0]), n) && Apply(s, es[0]).tasks[n].phase == s.tasks[n].phase;
      SettledForGood(Apply(s, es[0]), es[1..], n);
    }
  }

  /**
   * A checkpoint resolves exactly if its file was renamed and synced, and its entry is in the file
   * exactly if it was renamed.
   */
  lemma {:induction false} CheckpointsResolveIff(s: State, es: seq<Event>, n: nat)
    requires Legal(s, es) && Pending(s, n)
    ensures n < |Run(s, es).tasks|
    ensures Run(s, es).tasks[n].phase == Settled(true) <==> Publish(n, Done) in es
    ensures Run(s, es).tasks[n].published <==> Publish(n, Done) in es || Publish(n, StopsAfter) in es
    decreases |es|
  {
    if |es| > 0 {
      var s1 := Apply(s, es[0]);
      assert forall e :: e in es <==> e == es[0] || e in es[1..];
      if Pending(s1, n) {
        CheckpointsResolveIff(s1, es[1..], n);
      } else {
        SettledForGood(s1, es[1..], n);
      }
    }
  }

  /** A restart leaves nothing running: whatever had not settled is rejected, and no key has a queue. */
  lemma RestartsAbandon(s: State, n: nat)
    requires n < |s.tasks|
    ensures var s' := Apply(s, Restart);
      && s'.tails == map[] && s'.files == s.files && |s'.tasks| == |s.tasks|
      && s'.tasks[n].phase == (if s.tasks[n].phase.Settled? then s.tasks[n].phase else Settled(false))
      && s'.tasks[n].published == s.tasks[n].published
  {
  }

  // Nothing of the key is queued or running.
  ghost predicate Idle(s: State, key: nat) {
    key !in s.tails && forall n :: 0 <= n < |s.tasks| && s.tasks[n].key == key ==> s.tasks[n].phase.Settled?
  }

  /** A checkpoint of an idle journal that nothing disturbs resolves with its entry at the end of the file. */
  lemma UndisturbedCheckpointsAreRecorded(s: State, key: nat, entry: Entry) returns (es: seq<Event>, s': State)
    requires Idle(s, key)
    ensures Reaches(s, es, s') && Idle(s', key)
    ensures |s'.tasks| == |s.tasks| + 1 && s'.tasks[|s.tasks|].entry == entry
    ensures s'.tasks[|s.tasks|].phase == Settled(true) && File(s', key) == File(s, key) + [entry]
  {
    var n := |s.tasks|;
    es, s' := [], s;
    es, s' := Then(s, es, s', Checkpoint(key, entry));
    es, s' := Then(s, es, s', Start(n));
    es, s' := Then(s, es, s', Read(n, true));
    es, s' := Then(s, es, s', Publish(n, Done));
    es, s' := Then(s, es, s', Cleanup(n));
  }

  // ----- the journal object -----

  class BootstrapJournal {
    var tails: map<nat, nat>
    var tasks: seq<Task>
    var files: map<nat, seq<Entry>>

    function View(): State
      reads this
    {
      State(tails, tasks, files)
    }

    constructor (files: map<nat, seq<Entry>>)
      ensures View() == State(map[], [], files)
    {
      tails, tasks := map[], [];
      this.files := files;
    }

    // run: chain the operation behind the key's tail and become the tail.
    method AddCheckpoint(key: nat, entry: Entry) returns (n: nat)
      modifies `tails, `tasks
      ensures View() == Apply(old(View()), Checkpoint(key, entry)) && n == |old(tasks)|
    {
      var previous := if key in tails then Some(tails[key]) else None;
      n := |tasks|;
      tasks := tasks + [Task(key, entry, previous, Waiting, false, false)];
      tails := tails[key := n];
    }

    method Begin(n: nat)
      requires Enabled(View(), Start(n))
      modifies `tasks
      ensures View() == Apply(old(View()), Start(n))
    {
      tasks := tasks[n := tasks[n].(phase := Reading)];
    }

    method ReadEntries(n: nat, ok: bool)
      requires Enabled(View(), Read(n, ok))
      modifies `tasks
      ensures View() == Apply(old(View()), Read(n, ok))
    {
      if !ok {
        tasks := tasks[n := tasks[n].(phase := Settled(false))];
        return;
      }
      var existing := if tasks[n].key in files then files[tasks[n].key] else [];
      tasks := tasks[n := tasks[n].(phase := Writing(existing))];
    }

    method ReplaceFile(n: nat, r: Replace)
      requires Enabled(View(), Publish(n, r))
      modifies `tasks, `files
      ensures View() == Apply(old(View()), Publish(n, r))
    {
      if r == StopsBefore {
        tasks := tasks[n := tasks[n].(phase := Settled(false))];
        return;
      }
      var entries := tasks[n].phase.existing + [tasks[n].entry];
      files := files[tasks[n].key := entries];
      tasks := tasks[n := tasks[n].(phase := Settled(r == Done), published := true)];
    }

    // The finally callback drops the key only if this operation is still its tail.
    method Finally(n: nat)
      requires Enabled(View(), Cleanup(n))
      modifies `tails, `tasks
      ensures View() == Apply(old(View()), Cleanup(n))
    {
      var key := tasks[n].key;
      if key in tails && tails[key] == n {
        tails := tails - {key};
      }
      tasks := tasks[n := tasks[n].(cleaned := true)];
    }
  }
}
