/**
 * The private PostgreSQL lifecycle: its transition table, and the controller that drives it
 * against a process whose commands and probes may fail, time out or take effect late.
 */
module PrivatePostgres {
  import opened Options

  datatype Detail =
    | Stopped | StartCommandPending | StartedPendingReady | Ready | Stopping
    | StartOutcomeUncertain | RunningObservedUncertain | ProcessUncertain

  datatype Event =
    | START_COMMAND_ISSUED | RESTART_COMMAND_ISSUED | START_COMMAND_SUCCEEDED | START_OUTCOME_UNCERTAIN
    | READY_PROVEN | READY_OBSERVED | POST_START_PROOF_FAILED
    | STATUS_RUNNING_PROVEN | STATUS_STOPPED_PROVEN
    | STOP_COMMAND_ISSUED | STOP_OUTCOME_UNCERTAIN | UNEXPECTED_PROCESS_EXIT

  // The table; None is an event the tracker rejects.
  function Next(d: Detail, e: Event): Option<Detail> {
    match (d, e)
    case (Stopped, START_COMMAND_ISSUED) => Some(StartCommandPending)
    case (Stopped, READY_OBSERVED) => Some(Ready)
    case (StartCommandPending, START_COMMAND_SUCCEEDED) => Some(StartedPendingReady)
    case (StartCommandPending, START_OUTCOME_UNCERTAIN) => Some(StartOutcomeUncertain)
    case (StartedPendingReady, READY_PROVEN) => Some(Ready)
    case (StartedPendingReady, POST_START_PROOF_FAILED) => Some(ProcessUncertain)
    case (Ready, RESTART_COMMAND_ISSUED) => Some(StartCommandPending)
    case (Ready, STOP_COMMAND_ISSUED) => Some(Stopping)
    case (Ready, UNEXPECTED_PROCESS_EXIT) => Some(ProcessUncertain)
    case (Stopping, STATUS_STOPPED_PROVEN) => Some(Stopped)
    case (Stopping, STOP_OUTCOME_UNCERTAIN) => Some(ProcessUncertain)
    case (StartOutcomeUncertain, STATUS_RUNNING_PROVEN) => Some(RunningObservedUncertain)
    case (RunningObservedUncertain, STOP_COMMAND_ISSUED) => Some(Stopping)
    case (ProcessUncertain, STATUS_RUNNING_PROVEN) => Some(RunningObservedUncertain)
    case (ProcessUncertain, STATUS_STOPPED_PROVEN) => Some(Stopped)
    case _ => None
  }

  function Track(d: Detail, es: seq<Event>): Option<Detail>
    decreases |es|
  {
    if es == [] then Some(d)
    else if Next(d, es[0]) == None then None
    else Track(Next(d, es[0]).value, es[1..])
  }

  /**
   * After an ambiguous start, a status probe alone never proves a stop: the process must be seen
   * running and then stopped.
   */
  lemma {:induction false} AmbiguousStartsNeedARunningProof(es: seq<Event>)
    requires Track(StartOutcomeUncertain, es) == Some(Stopped)
    ensures |es| >= 3 && es[0] == STATUS_RUNNING_PROVEN && es[1] == STOP_COMMAND_ISSUED && STATUS_STOPPED_PROVEN in es
  {
    var rest := es[1..];
    assert Track(RunningObservedUncertain, rest) == Some(Stopped);
    assert Track(Stopping, rest[1..]) == Some(Stopped);
    LeavingStoppingNeedsProof(Stopping, rest[1..]);
    assert rest[1..] == es[2..];
  }

  lemma {:induction false} LeavingStoppingNeedsProof(d: Detail, es: seq<Event>)
    requires d != Stopped && Track(d, es) == Some(Stopped)
    ensures STATUS_STOPPED_PROVEN in es
    decreases |es|
  {
    if Next(d, es[0]).value != Stopped {
      LeavingStoppingNeedsProof(Next(d, es[0]).value, es[1..]);
    }
  }

  // ----- the process -----

  // StartInFlight: nothing is visible, but a start that was issued may still bring the process up.
  datatype Process = Down | StartInFlight | Up

  datatype Status = RUNNING | STOPPED

  // One await on the process: whether it moves by itself meanwhile, a late start up or down, and whether pg_ctl
  // answers.
  datatype Turn = Turn(moves: bool, comesUp: bool, answers: bool)

  // How a start or restart command ends: exit code zero, or a failure after which anything is possible.
  datatype Launch = Succeeds | FailsUp | FailsPending | FailsDown

  // What may happen by itself: a late start takes effect or dies, a running process exits.
  function Drifted(p: Process, t: Turn): Process {
    if !t.moves || p == Down then p
    else if p == StartInFlight && t.comesUp then Up
    else Down
  }

  // pg_ctl status proves a running process, or that none is visible, or nothing.
  function Answer(p: Process, t: Turn): Option<Status> {
    if !t.answers then None else if Drifted(p, t) == Up then Some(RUNNING) else Some(STOPPED)
  }

  function Launched(l: Launch): Process {
    match l
    case Succeeds => Up
    case FailsUp => Up
    case FailsPending => StartInFlight
    case FailsDown => Down
  }

  class ServerProcess {
    var state: Process

    constructor (up: bool)
      ensures state == if up then Up else Down
    {
      state := if up then Up else Down;
    }

    method Drift(t: Turn)
      modifies this
      ensures state == Drifted(old(state), t)
    {
      if t.moves && state != Down {
        state := if state == StartInFlight && t.comesUp then Up else Down;
      }
    }

    method Probe(t: Turn) returns (s: Option<Status>)
      modifies this
      ensures state == Drifted(old(state), t) && s == Answer(old(state), t)
    {
      Drift(t);
      if t.answers {
        s := Some(if state == Up then RUNNING else STOPPED);
      } else {
        s := None;
      }
    }

    method Run(l: Launch) returns (ok: bool)
      modifies this
      ensures state == Launched(l) && (ok <==> l == Succeeds)
    {
      state := match l case Succeeds => Up case FailsUp => Up case FailsPending => StartInFlight case FailsDown => Down;
      ok := l == Succeeds;
    }
  }

  // ----- the controller's operations, as functions -----

  datatype Problem =
    | AuthorityLost | InvalidOptions | ClusterInvalid | StatusUncertain | StartFailed | NotReady
    | StartCleanupUncertain | StopUncertain | ControlDenied | OperationInProgress | RestartUncertain | RestartRefused
    | RestartFailed

  datatype Result = Done | Threw(problem: Problem)

  // startedHere is the disposition STARTED_BY_THIS_BOOTSTRAP.
  datatype Handle = Handle(detail: Detail, process: Process, startedHere: bool)

  predicate Quiet(d: Detail) {
    d != StartCommandPending && d != StartedPendingReady && d != Stopping
  }

  // What the detail says about the process of a cluster this bootstrap started.
  predicate Honest(d: Detail, p: Process) {
    && (d == Stopped ==> p == Down)
    && (p == StartInFlight ==> d == StartCommandPending || d == StartOutcomeUncertain)
  }

  predicate Valid(h: Handle) {
    Quiet(h.detail) && (h.startedHere ==> Honest(h.detail, h.process))
  }

  // Two control checks, and the awaits of the first probe, the stop command and the second probe.
  datatype StopScript = StopScript(authority1: bool, authority2: bool, before: Turn, command: Turn, after: Turn)

  function After(d: Detail, e: Event): Detail {
    if Next(d, e) == None then d else Next(d, e).value
  }

  // stopWithProof, from a quiet detail.
  function StopProof(d: Detail, p: Process, s: StopScript): (Detail, Process, bool) {
    var p1 := Drifted(p, s.before);
    var seen := Answer(p, s.before);
    if d == Stopped then (d, p, true)
    else if seen == None then (d, p1, false)
    else if seen == Some(STOPPED) then
      if d == ProcessUncertain || d == Ready then (Stopped, p1, true) else (d, p1, false)
    else if !s.authority1 then (After(d, STATUS_RUNNING_PROVEN), p1, false)
    else
      var p2 := if s.authority2 then Drifted(p1, s.command) else p1;
      if Answer(p2, s.after) == Some(STOPPED) then (Stopped, Drifted(p2, s.after), true)
      else (ProcessUncertain, Drifted(p2, s.after), false)
  }

  datatype BringScript = BringScript(authority: bool, launch: Launch, readiness: Turn, ready: bool)

  // The pieces of a start or restart command and of the proofs after it; the detail is already out of its pending
  // states.
  function Brought(d: Detail, p: Process, s: BringScript): (Detail, Process, Result) {
    if !s.authority then (d, p, Threw(AuthorityLost))
    else if s.launch != Succeeds then (StartOutcomeUncertain, Launched(s.launch), Threw(StartFailed))
    else if !s.ready then (ProcessUncertain, Drifted(Up, s.readiness), Threw(NotReady))
    else (Ready, Drifted(Up, s.readiness), Done)
  }

  // One use of the handle, and what the process did before it.
  datatype Request =
    | StopRequest(idle: Turn, authority: bool, stop: StopScript)
    | RestartRequest(idle: Turn, authority: bool, probe: Turn, bring: BringScript)

  function StopRequested(h: Handle, authority: bool, s: StopScript): (Handle, Result) {
    if !authority then (h, Threw(AuthorityLost))
    else if !h.startedHere then (h, Threw(ControlDenied))
    else
      var (d, p, proven) := StopProof(h.detail, h.process, s);
      (Handle(d, p, true), if proven then Done else Threw(StopUncertain))
  }

  function RestartRequested(h: Handle, authority: bool, probe: Turn, s: BringScript): (Handle, Result) {
    if !authority then (h, Threw(AuthorityLost))
    else if !h.startedHere then (h, Threw(ControlDenied))
    else if h.detail != Stopped && h.detail != Ready then (h, Threw(RestartUncertain))
    else if h.detail == Ready && Answer(h.process, probe) != Some(RUNNING) then
      (Handle(ProcessUncertain, Drifted(h.process, probe), true), Threw(RestartRefused))
    else
      var (d, p, r) := Brought(h.detail, if h.detail == Ready then Drifted(h.process, probe) else h.process, s);
      (Handle(d, p, true), r)
  }

  function Serve1(h: Handle, q: Request): (Handle, Result) {
    match q
    case StopRequest(idle, authority, stop) => StopRequested(h.(process := Drifted(h.process, idle)), authority, stop)
    case RestartRequest(idle, authority, probe, bring) =>
        RestartRequested(h.(process := Drifted(h.process, idle)), authority, probe, bring)
  }

  ghost function Served(h: Handle, qs: seq<Request>): Handle
    decreases |qs|
  {
    if qs == [] then h else Served(Serve1(h, qs[0]).0, qs[1..])
  }

  // Some stop of the run returns normally.
  ghost predicate ProvenIn(h: Handle, qs: seq<Request>)
    decreases |qs|
  {
    qs != [] && ((qs[0].StopRequest? && Serve1(h, qs[0]).1 == Done) || ProvenIn(Serve1(h, qs[0]).0, qs[1..]))
  }

  // ----- what the handle promises -----

  /** One request keeps the tracker honest, and a normal stop means down with nothing in flight. */
  lemma RequestsAreHonest(h: Handle, q: Request)
    requires Valid(h)
    ensures Valid(Serve1(h, q).0) && Serve1(h, q).0.startedHere == h.startedHere
    ensures q.StopRequest? && Serve1(h, q).1 == Done ==>
        h.startedHere && Serve1(h, q).0.detail == Stopped && Serve1(h, q).0.process == Down
  {
  }

  /** Over any sequence of stops and restarts, with whatever outcomes, a tracker that reads stopped tells the truth. */
  lemma {:induction false} StoppedMeansDown(h: Handle, qs: seq<Request>)
    requires Valid(h)
    ensures Valid(Served(h, qs)) && Served(h, qs).startedHere == h.startedHere
    ensures h.startedHere && Served(h, qs).detail == Stopped ==> Served(h, qs).process == Down
    decreases |qs|
  {
    if qs != [] {
      RequestsAreHonest(h, qs[0]);
      StoppedMeansDown(Serve1(h, qs[0]).0, qs[1..]);
    }
  }

  // ----- when a request returns -----

  predicate SeesUp(p: Process, t: Turn) {
    t.answers && Drifted(p, t) == Up
  }

  predicate SeesNone(p: Process, t: Turn) {
    t.answers && Drifted(p, t) != Up
  }

  // Nobody knows what the last start command has done, or will do.
  predicate InDoubt(d: Detail) {
    d == StartOutcomeUncertain || d == RunningObservedUncertain
  }

  // The process once the stop command has run, if its own authority check let it.
  function Commanded(p: Process, s: StopScript): Process {
    var p1 := Drifted(p, s.before);
    if s.authority2 then Drifted(p1, s.command) else p1
  }

  // The stop command is issued: the process was seen running, and authority still held.
  predicate StopIssued(d: Detail, p: Process, s: StopScript) {
    d != Stopped && SeesUp(p, s.before) && s.authority1
  }

  // Nothing was left to stop; or no process was seen, and none can be starting; or one was stopped.
  predicate ProvenDown(d: Detail, p: Process, s: StopScript) {
    || d == Stopped
    || (SeesNone(p, s.before) && !InDoubt(d))
    || (StopIssued(d, p, s) && SeesNone(Commanded(p, s), s.after))
  }

  /**
   * A stop is proven exactly if the process is seen to be down while no start is in doubt, or is
   * seen running and then, after the command, gone. An unproven stop leaves the tracker uncertain
   * if the command was issued, and otherwise notes at most that the process was seen.
   */
  lemma StopIsProvenIff(d: Detail, p: Process, s: StopScript)
    requires Quiet(d) && Honest(d, p)
    ensures var (d', p', proven) := StopProof(d, p, s);
      && (proven <==> ProvenDown(d, p, s))
      && (proven ==> d' == Stopped && p' == Down)
      && (!proven && StopIssued(d, p, s) ==> d' == ProcessUncertain)
      && (!proven && !StopIssued(d, p, s) ==>
            d' == (if SeesUp(p, s.before) && d != Ready then RunningObservedUncertain else d))
  {
  }

  /** When a stop request returns, with the exact reason for each refusal. */
  lemma StopReturnsIff(h: Handle, authority: bool, s: StopScript)
    requires Valid(h)
    ensures var (h', r) := StopRequested(h, authority, s);
      && (r == Done <==>
            && authority && h.startedHere
            && (|| h.detail == Stopped
                || (SeesNone(h.process, s.before) && !InDoubt(h.detail))
                || (SeesUp(h.process, s.before) && s.authority1 && SeesNone(Commanded(h.process, s), s.after))))
      && (r == Done ==> h'.detail == Stopped && h'.process == Down)
      && (r == Threw(AuthorityLost) <==> !authority)
      && (r == Threw(ControlDenied) <==> authority && !h.startedHere)
      && (r.Threw? && r.problem != StopUncertain ==> h' == h)
  {
    if h.startedHere {
      StopIsProvenIff(h.detail, h.process, s);
    }
  }

  // The command is issued, exits with zero, and the cluster proves ready.
  predicate BroughtUp(s: BringScript) {
    s.authority && s.launch == Succeeds && s.ready
  }

  /** When a restart request returns, with the exact reason for each refusal. */
  lemma RestartReturnsIff(h: Handle, authority: bool, probe: Turn, s: BringScript)
    requires Valid(h)
    ensures var (h', r) := RestartRequested(h, authority, probe, s);
      && (r == Done <==>
            && authority && h.startedHere && BroughtUp(s)
            && (h.detail == Stopped || (h.detail == Ready && SeesUp(h.process, probe))))
      && (r == Done ==> h'.detail == Ready)
      && (r == Threw(RestartUncertain) <==>
            authority && h.startedHere && h.detail != Stopped && h.detail != Ready)
      && (r == Threw(RestartRefused) <==>
            authority && h.startedHere && h.detail == Ready && !SeesUp(h.process, probe))
      && (r == Threw(RestartRefused) || r == Threw(NotReady) ==> h'.detail == ProcessUncertain)
      && (r == Threw(StartFailed) ==> InDoubt(h'.detail) && s.launch != Succeeds)
  {
  }

  // ----- the exit that cannot be proven -----

  // The process is gone, and its last start was in doubt.
  predicate GoneInDoubt(h: Handle) {
    h.startedHere && h.process == Down && InDoubt(h.detail)
  }

  /**
   * A stop of a process that is already down is proven exactly if its probe answers and the last
   * start was not in doubt.
   */
  lemma DownIsProvenIff(h: Handle, authority: bool, s: StopScript)
    requires Valid(h) && h.process == Down
    ensures StopRequested(h, authority, s).1 == Done <==>
              authority && h.startedHere && !GoneInDoubt(h) && (h.detail == Stopped || s.before.answers)
  {
  }

  lemma {:induction false} GoneInDoubtForever(h: Handle, qs: seq<Request>)
    requires GoneInDoubt(h)
    ensures Served(h, qs) == h && !ProvenIn(h, qs)
    decreases |qs|
  {
    if qs != [] {
      assert Serve1(h, qs[0]).0 == h && Serve1(h, qs[0]).1 != Done;
      GoneInDoubtForever(h, qs[1..]);
    }
  }

  /**
   * A process that is down can be proven stopped by some sequence of requests if and only if its
   * last start was not in doubt: otherwise every request, forever, leaves the handle as it is.
   */
  lemma DownCanBeProvenIffNotInDoubt(h: Handle) returns (qs: seq<Request>)
    requires Valid(h) && h.startedHere && h.process == Down
    ensures ProvenIn(h, qs) <==> !GoneInDoubt(h)
    ensures GoneInDoubt(h) ==> forall rs: seq<Request> :: !ProvenIn(h, rs) && Served(h, rs) == h
  {
    var answers := Turn(false, false, true);
    var q := StopRequest(answers, true, StopScript(true, true, answers, answers, answers));
    qs := [q];
    if GoneInDoubt(h) {
      forall rs: seq<Request>
        ensures !ProvenIn(h, rs) && Served(h, rs) == h
      {
        GoneInDoubtForever(h, rs);
      }
    } else {
      DownIsProvenIff(h, true, q.stop);
      assert qs[0] == q && Serve1(h, q).1 == Done;
    }
  }

  // ----- the start -----

  datatype StartScript = StartScript(
    admitted: bool, validBefore: bool, probe: Turn, waiting: Turn, readyThere: bool, bring: BringScript,
        cleanup: StopScript)

  // startPrivatePostgresCluster; the last component says that a start command was issued.
  function Started(p: Process, s: StartScript): (Handle, Result, bool) {
    var p1 := Drifted(p, s.probe);
    if !s.admitted then (Handle(Stopped, p, false), Threw(InvalidOptions), false)
    else if !s.validBefore then (Handle(Stopped, p, false), Threw(ClusterInvalid), false)
    else if Answer(p, s.probe) == None then (Handle(Stopped, p1, false), Threw(StatusUncertain), false)
    else if Answer(p, s.probe) == Some(RUNNING) then
      (Handle(Stopped, Drifted(p1, s.waiting), false), if s.readyThere then Done else Threw(NotReady), false)
    else
      var (d, p2, r) := Brought(Stopped, p1, s.bring);
      if r == Done || !s.bring.authority then (Handle(d, p2, true), r, s.bring.authority)
      else
        var (d3, p3, proven) := StopProof(d, p2, s.cleanup);
        (Handle(d3, p3, true), if proven then r else Threw(StartCleanupUncertain), true)
  }

  /**
   * A start returns exactly if the cluster was there already and proved ready, or was not and was
   * brought up by this very start.
   */
  lemma StartReturnsIff(p: Process, s: StartScript)
    requires p != StartInFlight
    ensures var (h, r, issued) := Started(p, s);
      && (r == Done <==>
            && s.admitted && s.validBefore
            && ((SeesUp(p, s.probe) && s.readyThere) || (SeesNone(p, s.probe) && BroughtUp(s.bring))))
      && (r == Done && SeesUp(p, s.probe) ==> !h.startedHere && !issued)
      && (r == Done && SeesNone(p, s.probe) ==> h.startedHere && issued && h.detail == Ready)
      && (issued <==> s.admitted && s.validBefore && SeesNone(p, s.probe) && s.bring.authority)
  {
  }

  /** A start whose command or proofs failed says so exactly if its cleanup proved the process down. */
  lemma FailedStartsSayWhy(p: Process, s: StartScript)
    requires p != StartInFlight && Started(p, s).2 && !BroughtUp(s.bring)
    ensures var failed := s.bring.launch != Succeeds;
      var d := if failed then StartOutcomeUncertain else ProcessUncertain;
      var p2 := if failed then Launched(s.bring.launch) else Drifted(Up, s.bring.readiness);
      Started(p, s).1 == Threw(if !ProvenDown(d, p2, s.cleanup) then StartCleanupUncertain
                               else if failed then StartFailed else NotReady)
  {
    var failed := s.bring.launch != Succeeds;
    StopIsProvenIff(if failed then StartOutcomeUncertain else ProcessUncertain,
                    if failed then Launched(s.bring.launch) else Drifted(Up, s.bring.readiness), s.cleanup);
  }

  /**
   * A start that throws after it issued its command leaves the process proven down, or says that
   * the cleanup is uncertain.
   */
  lemma FailedStartsAreCleanedUp(p: Process, s: StartScript)
    requires p != StartInFlight
    ensures var (h, r, issued) := Started(p, s);
      && Valid(h)
      && (r.Threw? && issued ==> r.problem == StartCleanupUncertain || (h.detail == Stopped && h.process == Down))
      && (r == Threw(StartCleanupUncertain) ==> issued && h.detail != Stopped)
      && (r == Done && h.startedHere ==> issued && h.detail == Ready)
      && (!issued ==> h.detail == Stopped)
  {
  }

  /**
   * A concrete run into the state that can never be proven: a restart command fails while the
   * process comes up, a stop proves it running but loses its control authority, and it exits.
   */
  lemma ExitInDoubtIsReachable() returns (s: StartScript, qs: seq<Request>)
    ensures Started(Down, s).1 == Done && Started(Down, s).0.startedHere
    ensures Served(Started(Down, s).0, qs).detail == RunningObservedUncertain
        && GoneInDoubt(Served(Started(Down, s).0, qs))
  {
    var still, leaves := Turn(false, false, true), Turn(true, false, false);
    var stop := StopScript(false, false, still, still, still);
    s := StartScript(true, true, still, still, true, BringScript(true, Succeeds, still, true), stop);
    var q1 := RestartRequest(still, true, still, BringScript(true, FailsUp, still, true));
    var q2 := StopRequest(still, true, stop);
    var q3 := StopRequest(leaves, false, stop);
    qs := [q1, q2, q3];
    var h0 := Started(Down, s).0;
    var h1 := Serve1(h0, q1).0;
    var h2 := Serve1(h1, q2).0;
    var h3 := Serve1(h2, q3).0;
    assert h1 == Handle(StartOutcomeUncertain, Up, true) && h2 == Handle(RunningObservedUncertain, Up, true);
    assert qs[1..] == [q2, q3] && qs[1..][1..] == [q3] && qs[1..][1..][1..] == [];
    assert Served(h2, [q3]) == h3;
    assert Served(h1, [q2, q3]) == h3;
  }

  // ----- the controller -----

  class Cluster {
    const process: ServerProcess
    var detail: Detail
    var startedHere: bool
    var issued: bool

    function View(): Handle
      reads this, process
    {
      Handle(detail, process.state, startedHere)
    }

    constructor (process: ServerProcess)
      ensures this.process == process && detail == Stopped && !startedHere && !issued
    {
      this.process := process;
      detail, startedHere, issued := Stopped, false, false;
    }

    method Send(e: Event) returns (accepted: bool)
      modifies `detail
      ensures accepted <==> Next(old(detail), e).Some?
      ensures detail == After(old(detail), e)
    {
      var next := Next(detail, e);
      if next.Some? {
        detail := next.value;
      }
      return next.Some?;
    }

    // Every send of the source that is not behind `can` is accepted here: none is illegal.
    method StopWithProof(s: StopScript) returns (proven: bool)
      requires Quiet(detail)
      modifies `detail, process
      ensures (detail, process.state, proven) == StopProof(old(detail), old(process.state), s)
    {
      if detail == Stopped {
        return true;
      }
      var before := process.Probe(s.before);
      if before == None {
        return false;
      }
      if before.value.STOPPED? {
        if Next(detail, STATUS_STOPPED_PROVEN).Some? {
          var accepted := Send(STATUS_STOPPED_PROVEN);
          return true;
        }
        if Next(detail, UNEXPECTED_PROCESS_EXIT).Some? {
          var accepted := Send(UNEXPECTED_PROCESS_EXIT);
          accepted := Send(STATUS_STOPPED_PROVEN);
          assert accepted;
          return true;
        }
        return false;
      }
      if Next(detail, STATUS_RUNNING_PROVEN).Some? {
        var accepted := Send(STATUS_RUNNING_PROVEN);
      }
      if Next(detail, STOP_COMMAND_ISSUED) == None || !s.authority1 {
        return false;
      }
      var accepted := Send(STOP_COMMAND_ISSUED);
      assert accepted;
      if s.authority2 {
        process.Drift(s.command);
      }
      var after := process.Probe(s.after);
      if after != Some(STOPPED) {
        accepted := Send(STOP_OUTCOME_UNCERTAIN);
        assert accepted;
        return false;
      }
      accepted := Send(STATUS_STOPPED_PROVEN);
      assert accepted;
      return true;
    }

    // A start or restart command and the proofs after it, as far as the first failure.
    method Bring(e: Event, s: BringScript) returns (r: Result)
      requires (e == START_COMMAND_ISSUED && detail == Stopped) || (e == RESTART_COMMAND_ISSUED && detail == Ready)
      modifies `detail, `issued, process
      ensures issued == (old(issued) || s.authority)
      ensures r == Brought(old(detail), old(process.state), s).2
          && process.state == Brought(old(detail), old(process.state), s).1
      ensures detail == (if r == Threw(StartFailed) then StartCommandPending
                         else if r == Threw(NotReady) then StartedPendingReady
                         else Brought(old(detail), old(process.state), s).0)
    {
      if !s.authority {
        return Threw(AuthorityLost);
      }
      var accepted := Send(e);
      assert accepted;
      issued := true;
      var launched := process.Run(s.launch);
      if !launched {
        return Threw(StartFailed);
      }
      accepted := Send(START_COMMAND_SUCCEEDED);
      assert accepted;
      process.Drift(s.readiness);
      if !s.ready {
        return Threw(NotReady);
      }
      accepted := Send(READY_PROVEN);
      assert accepted;
      return Done;
    }

    // The tracker after a start or restart that failed half way.
    method LeavePending()
      requires detail == StartCommandPending || detail == StartedPendingReady
      modifies `detail
      ensures detail == if old(detail) == StartCommandPending then StartOutcomeUncertain else ProcessUncertain
    {
      var accepted := Send(if detail == StartCommandPending then START_OUTCOME_UNCERTAIN else POST_START_PROOF_FAILED);
      assert accepted;
    }

    method Start(s: StartScript) returns (r: Result)
      requires detail == Stopped && !startedHere && !issued
      modifies this, process
      ensures (View(), r, issued) == Started(old(process.state), s)
    {
      if !s.admitted {
        return Threw(InvalidOptions);
      }
      if !s.validBefore {
        return Threw(ClusterInvalid);
      }
      var status := process.Probe(s.probe);
      if status == None {
        return Threw(StatusUncertain);
      }
      if status.value.RUNNING? {
        process.Drift(s.waiting);
        return if s.readyThere then Done else Threw(NotReady);
      }
      startedHere := true;
      r := Bring(START_COMMAND_ISSUED, s.bring);
      if r == Done || r == Threw(AuthorityLost) {
        return r;
      }
      LeavePending();
      var proven := StopWithProof(s.cleanup);
      if !proven {
        return Threw(StartCleanupUncertain);
      }
    }

    method Stop(authority: bool, s: StopScript) returns (r: Result)
      requires Valid(View())
      modifies this, process
      ensures (View(), r) == StopRequested(old(View()), authority, s)
      ensures r != Threw(OperationInProgress)
    {
      if !authority {
        return Threw(AuthorityLost);
      }
      if !startedHere {
        return Threw(ControlDenied);
      }
      if !Quiet(detail) {
        return Threw(OperationInProgress);
      }
      var proven := StopWithProof(s);
      return if proven then Done else Threw(StopUncertain);
    }

    method Restart(authority: bool, probe: Turn, s: BringScript) returns (r: Result)
      requires Valid(View())
      modifies this, process
      ensures (View(), r) == RestartRequested(old(View()), authority, probe, s)
      ensures r != Threw(OperationInProgress)
    {
      if !authority {
        return Threw(AuthorityLost);
      }
      if !startedHere {
        return Threw(ControlDenied);
      }
      if !Quiet(detail) {
        return Threw(OperationInProgress);
      }
      if detail == StartOutcomeUncertain || detail == RunningObservedUncertain || detail == ProcessUncertain {
        return Threw(RestartUncertain);
      }
      var wasStopped := detail == Stopped;
      if !wasStopped {
        var status := process.Probe(probe);
        if status != Some(RUNNING) {
          var accepted := Send(UNEXPECTED_PROCESS_EXIT);
          assert accepted;
          return Threw(RestartRefused);
        }
      }
      r := Bring(if wasStopped then START_COMMAND_ISSUED else RESTART_COMMAND_ISSUED, s);
      if detail == StartCommandPending || detail == StartedPendingReady {
        LeavePending();
      }
    }
  }
}
