/**
 * The HostOwnershipFence row and the transactions of every Host that touch it.
 *
 * One PostgreSQL row names the owning Host. Publication and revocation take it FOR UPDATE,
 * every normal mutation takes it FOR SHARE and verifies it, and PostgreSQL keeps both locks
 * to the end of the transaction. A step below is one piece between two awaits of one client,
 * or one step of the database server. Crashes, timeouts and lost connections are Abort
 * steps; a lost commit acknowledgement is a client that stops listening after Issue.
 * Nothing here consults a lease, an abort signal or a clock.
 */
module HostFence {
  import opened Options

  type InstanceId = nat
  type BootId = nat
  type Token = nat

  datatype Authority = Authority(instance: InstanceId, token: Token, boot: BootId)

  datatype FenceRow = FenceRow(instance: InstanceId, revision: nat, token: Option<Token>, boot: Option<BootId>)

  // One client call may run several transactions, one after the other.
  datatype TxId = TxId(call: nat, leg: nat)

  datatype Kind = Mutate | Publish | Revoke

  datatype Phase = Began | Locked | Ready | Issued | Committed | Aborted

  // What the client's promise settled with.
  datatype Report = Returned | NotCommitted | CommitUncertain | CommittedUnverified

  // base is the row read under the lock. inDoubt is `operationCompleted` of a mutation and
  // `commitIssued` of a publication or revocation: from then on no error may deny the commit.
  datatype Tx = Tx(kind: Kind, authority: Authority, phase: Phase, base: FenceRow, inDoubt: bool,
      report: Option<Report>)

  datatype Entry = Entry(tx: TxId, kind: Kind, authority: Authority)

  // sharers and owner are the row locks; log lists the committed transactions in commit order.
  datatype Db = Db(row: FenceRow, sharers: set<TxId>, owner: Option<TxId>, txs: map<TxId, Tx>, log: seq<Entry>)

  datatype Event =
    | Begin(t: TxId, kind: Kind, authority: Authority)
    | Lock(t: TxId)
    | Reject(t: TxId)
    | Finish(t: TxId)
    | Issue(t: TxId)
    | Commit(t: TxId)
    | Abort(t: TxId)
    | Settle(t: TxId, report: Report)

  predicate Owns(row: FenceRow, a: Authority) {
    row.instance == a.instance && row.token == Some(a.token) && row.boot == Some(a.boot)
  }

  // What each transaction demands of the row it locked.
  predicate Accepts(kind: Kind, row: FenceRow, a: Authority) {
    match kind
    case Mutate => Owns(row, a)
    case Publish => row.instance == a.instance
    case Revoke => Owns(row, a)
  }

  // The committed effect of one log entry on the fence row.
  function Rewrite(row: FenceRow, e: Entry): FenceRow {
    match e.kind
    case Mutate => row
    case Publish => row.(revision := row.revision + 1, token := Some(e.authority.token), boot := Some(e.authority.boot))
    case Revoke => row.(revision := row.revision + 1, token := None, boot := None)
  }

  function Replay(row: FenceRow, log: seq<Entry>): FenceRow {
    if |log| == 0 then row else Rewrite(Replay(row, log[..|log| - 1]), log[|log| - 1])
  }

  // The number of publications and revocations in a log.
  function Transfers(log: seq<Entry>): nat {
    if |log| == 0 then 0 else Transfers(log[..|log| - 1]) + (if log[|log| - 1].kind == Mutate then 0 else 1)
  }

  predicate Open(p: Phase) {
    p == Began || p == Locked || p == Ready || p == Issued
  }

  predicate Holding(p: Phase) {
    p == Locked || p == Ready || p == Issued
  }

  predicate LockFree(s: Db, kind: Kind) {
    s.owner == None && (kind == Mutate || s.sharers == {})
  }

  // The steps a client still takes are those of a client that has not settled.
  predicate Working(s: Db, t: TxId, p: Phase) {
    t in s.txs && s.txs[t].phase == p && s.txs[t].report == None
  }

  // After commit the publisher and the revoker read the row again and compare it.
  predicate Verified(s: Db, tx: Tx) {
    s.row == Rewrite(tx.base, Entry(TxId(0, 0), tx.kind, tx.authority))
  }

  predicate MaySettle(s: Db, tx: Tx, r: Report) {
    match r
    case Returned => tx.phase == Committed && (tx.kind == Mutate || Verified(s, tx))
    case NotCommitted => !tx.inDoubt
    case CommitUncertain => tx.inDoubt
    case CommittedUnverified => tx.kind != Mutate && tx.phase == Committed
  }

  predicate Enabled(s: Db, e: Event) {
    match e
    case Begin(t, _, _) => t !in s.txs
    case Lock(t) => Working(s, t, Began) && LockFree(s, s.txs[t].kind)
        && Accepts(s.txs[t].kind, s.row, s.txs[t].authority)
    case Reject(t) => Working(s, t, Began) && LockFree(s, s.txs[t].kind)
        && !Accepts(s.txs[t].kind, s.row, s.txs[t].authority)
    case Finish(t) => Working(s, t, Locked)
    case Issue(t) => Working(s, t, Ready)
    case Commit(t) => t in s.txs && s.txs[t].phase == Issued
    case Abort(t) => t in s.txs && Open(s.txs[t].phase)
    case Settle(t, r) => t in s.txs && s.txs[t].report == None && MaySettle(s, s.txs[t], r)
  }

  function Unlocked(s: Db, t: TxId): Db {
    s.(sharers := s.sharers - {t}, owner := if s.owner == Some(t) then None else s.owner)
  }

  function Apply(s: Db, e: Event): Db
    requires Enabled(s, e)
  {
    match e
    case Begin(t, kind, a) => s.(txs := s.txs[t := Tx(kind, a, Began, s.row, false, None)])
    case Lock(t) =>
      var tx := s.txs[t];
      var s1 := s.(txs := s.txs[t := tx.(phase := Locked, base := s.row)]);
      if tx.kind == Mutate then s1.(sharers := s.sharers + {t}) else s1.(owner := Some(t))
    case Reject(t) => s.(txs := s.txs[t := s.txs[t].(phase := Aborted, report := Some(NotCommitted))])
    case Finish(t) => s.(txs := s.txs[t := s.txs[t].(phase := Ready, inDoubt := s.txs[t].kind == Mutate)])
    case Issue(t) => s.(txs := s.txs[t := s.txs[t].(phase := Issued, inDoubt := true)])
    case Commit(t) =>
      var entry := Entry(t, s.txs[t].kind, s.txs[t].authority);
      Unlocked(s, t).(row := Rewrite(s.row, entry), txs := s.txs[t := s.txs[t].(phase := Committed)], log :=
          s.log + [entry])
    case Abort(t) => Unlocked(s, t).(txs := s.txs[t := s.txs[t].(phase := Aborted)])
    case Settle(t, r) => s.(txs := s.txs[t := s.txs[t].(report := Some(r))])
  }

  function Init(row: FenceRow): Db {
    Db(row, {}, None, map[], [])
  }

  ghost predicate Legal(s: Db, es: seq<Event>)
    decreases |es|
  {
    |es| == 0 || (Enabled(s, es[0]) && Legal(Apply(s, es[0]), es[1..]))
  }

  ghost function Run(s: Db, es: seq<Event>): Db
    requires Legal(s, es)
    decreases |es|
  {
    if |es| == 0 then s else Run(Apply(s, es[0]), es[1..])
  }

  // ----- the invariant -----

  // A transaction holds its lock exactly while it is between Lock and its end.
  ghost predicate LockHeld(s: Db, t: TxId, tx: Tx) {
    && (tx.kind == Mutate ==> s.owner != Some(t) && (t in s.sharers <==> Holding(tx.phase)))
    && (tx.kind != Mutate ==> t !in s.sharers && (s.owner == Some(t) <==> Holding(tx.phase)))
  }

  ghost predicate LocksMatch(s: Db) {
    && (s.owner.Some? ==> s.owner.value in s.txs && s.sharers == {})
    && s.sharers <= s.txs.Keys
    && forall t :: t in s.txs ==> LockHeld(s, t, s.txs[t])
  }

  // While a lock is held the row is still the one that was read and accepted under it.
  ghost predicate Pinned(s: Db, tx: Tx) {
    Holding(tx.phase) ==> tx.base == s.row && Accepts(tx.kind, s.row, tx.authority)
  }

  ghost predicate RowPinned(s: Db) {
    forall t :: t in s.txs ==> Pinned(s, s.txs[t])
  }

  predicate InLog(log: seq<Entry>, t: TxId) {
    exists i :: 0 <= i < |log| && log[i].tx == t
  }

  ghost predicate EntryOk(s: Db, e: Entry) {
    && e.tx in s.txs
    && s.txs[e.tx].phase == Committed
    && s.txs[e.tx].kind == e.kind
    && s.txs[e.tx].authority == e.authority
  }

  ghost predicate LogMatches(s: Db) {
    && (forall i :: 0 <= i < |s.log| ==> EntryOk(s, s.log[i]))
    && (forall i, j :: 0 <= i < j < |s.log| ==> s.log[i].tx != s.log[j].tx)
    && (forall t :: t in s.txs && s.txs[t].phase == Committed ==> InLog(s.log, t))
  }

  // Every entry was accepted by the row that all earlier entries had produced.
  ghost predicate LogAccepted(row0: FenceRow, log: seq<Entry>) {
    forall i :: 0 <= i < |log| ==> Accepts(log[i].kind, Replay(row0, log[..i]), log[i].authority)
  }

  // The row a committed transaction read under its lock is the one its entry rewrote.
  ghost predicate BaseExact(row0: FenceRow, s: Db, i: int)
    requires 0 <= i < |s.log|
  {
    s.log[i].tx in s.txs && s.txs[s.log[i].tx].base == Replay(row0, s.log[..i])
  }

  ghost predicate BasesExact(row0: FenceRow, s: Db) {
    forall i :: 0 <= i < |s.log| ==> BaseExact(row0, s, i)
  }

  ghost predicate ReportOk(tx: Tx) {
    && (tx.phase == Issued || tx.phase == Committed ==> tx.inDoubt)
    && (tx.phase == Began || tx.phase == Locked ==> !tx.inDoubt)
    && (tx.report == Some(NotCommitted) ==> !tx.inDoubt)
    && (tx.report == Some(Returned) || tx.report == Some(CommittedUnverified) ==> tx.phase == Committed)
  }

  ghost predicate ReportsSound(s: Db) {
    forall t :: t in s.txs ==> ReportOk(s.txs[t])
  }

  ghost predicate Inv(row0: FenceRow, s: Db) {
    && LocksMatch(s)
    && RowPinned(s)
    && LogMatches(s)
    && s.row == Replay(row0, s.log)
    && LogAccepted(row0, s.log)
    && BasesExact(row0, s)
    && ReportsSound(s)
  }

  lemma InitInv(row0: FenceRow)
    ensures Inv(row0, Init(row0))
  {
  }

  lemma StepLocks(s: Db, e: Event)
    requires LocksMatch(s) && Enabled(s, e)
    ensures LocksMatch(Apply(s, e))
  {
    var s' := Apply(s, e);
    forall t | t in s'.txs
      ensures LockHeld(s', t, s'.txs[t])
    {
      if t in s.txs {
        assert LockHeld(s, t, s.txs[t]);
      }
    }
  }

  lemma StepPinned(s: Db, e: Event)
    requires LocksMatch(s) && RowPinned(s) && Enabled(s, e)
    ensures RowPinned(Apply(s, e))
  {
    var s' := Apply(s, e);
    forall t | t in s'.txs
      ensures Pinned(s', s'.txs[t])
    {
      if t in s.txs {
        assert LockHeld(s, t, s.txs[t]);
        assert e.Begin? || LockHeld(s, e.t, s.txs[e.t]);
        assert Pinned(s, s.txs[t]);
      }
    }
  }

  lemma StepLogEntries(s: Db, e: Event, i: nat)
    requires Enabled(s, e) && i < |Apply(s, e).log|
    requires i < |s.log| ==> EntryOk(s, s.log[i])
    ensures EntryOk(Apply(s, e), Apply(s, e).log[i])
  {
  }

  lemma StepLogDistinct(s: Db, e: Event)
    requires LogMatches(s) && Enabled(s, e)
    ensures var log := Apply(s, e).log; forall i, j :: 0 <= i < j < |log| ==> log[i].tx != log[j].tx
  {
    var log := Apply(s, e).log;
    forall i, j | 0 <= i < j < |log|
      ensures log[i].tx != log[j].tx
    {
      assert EntryOk(s, s.log[i]);
    }
  }

  lemma StepInLog(s: Db, e: Event, t: TxId)
    requires Enabled(s, e) && t in Apply(s, e).txs && Apply(s, e).txs[t].phase == Committed
    requires t in s.txs && s.txs[t].phase == Committed ==> InLog(s.log, t)
    ensures InLog(Apply(s, e).log, t)
  {
    var log := Apply(s, e).log;
    if e.Commit? && e.t == t {
      assert log[|s.log|].tx == t;
    } else {
      var i :| 0 <= i < |s.log| && s.log[i].tx == t;
      assert log[i].tx == t;
    }
  }

  lemma StepLogMatches(s: Db, e: Event)
    requires LogMatches(s) && Enabled(s, e)
    ensures LogMatches(Apply(s, e))
  {
    var s' := Apply(s, e);
    forall i | 0 <= i < |s'.log|
      ensures EntryOk(s', s'.log[i])
    {
      StepLogEntries(s, e, i);
    }
    StepLogDistinct(s, e);
    forall t | t in s'.txs && s'.txs[t].phase == Committed
      ensures InLog(s'.log, t)
    {
      StepInLog(s, e, t);
    }
  }

  lemma LogExtends(row0: FenceRow, log: seq<Entry>, e: Entry)
    requires LogAccepted(row0, log) && Accepts(e.kind, Replay(row0, log), e.authority)
    ensures LogAccepted(row0, log + [e]) && Replay(row0, log + [e]) == Rewrite(Replay(row0, log), e)
  {
    assert (log + [e])[..|log|] == log;
    forall i | 0 <= i < |log + [e]|
      ensures Accepts((log + [e])[i].kind, Replay(row0, (log + [e])[..i]), (log + [e])[i].authority)
    {
      if i < |log| {
        assert (log + [e])[..i] == log[..i];
      }
    }
  }

  // A step leaves a committed transaction's base alone.
  lemma BaseStays(s: Db, e: Event, t: TxId)
    requires Enabled(s, e) && t in s.txs && s.txs[t].phase == Committed
    ensures t in Apply(s, e).txs && Apply(s, e).txs[t].base == s.txs[t].base
  {
  }

  lemma StepBases(row0: FenceRow, s: Db, e: Event)
    requires LogMatches(s) && RowPinned(s) && s.row == Replay(row0, s.log) && BasesExact(row0, s) && Enabled(s, e)
    ensures BasesExact(row0, Apply(s, e))
  {
    var s' := Apply(s, e);
    assert |s.log| <= |s'.log| && s'.log[..|s.log|] == s.log;
    forall i | 0 <= i < |s'.log|
      ensures BaseExact(row0, s', i)
    {
      if i < |s.log| {
        assert EntryOk(s, s.log[i]) && BaseExact(row0, s, i);
        BaseStays(s, e, s.log[i].tx);
        assert s'.log[i] == s.log[i] && s'.log[..i] == s.log[..i];
      } else {
        assert e.Commit? && Pinned(s, s.txs[e.t]);
        assert s'.log[..i] == s.log;
      }
    }
  }

  lemma StepReports(s: Db, e: Event)
    requires ReportsSound(s) && Enabled(s, e)
    ensures ReportsSound(Apply(s, e))
  {
    var s' := Apply(s, e);
    forall t | t in s'.txs
      ensures ReportOk(s'.txs[t])
    {
      if t in s.txs {
        assert ReportOk(s.txs[t]);
      }
    }
  }

  lemma StepInv(row0: FenceRow, s: Db, e: Event)
    requires Inv(row0, s) && Enabled(s, e)
    ensures Inv(row0, Apply(s, e))
  {
    StepLocks(s, e);
    StepPinned(s, e);
    StepLogMatches(s, e);
    StepReports(s, e);
    StepBases(row0, s, e);
    if e.Commit? {
      assert Pinned(s, s.txs[e.t]);
      LogExtends(row0, s.log, Entry(e.t, s.txs[e.t].kind, s.txs[e.t].authority));
    }
  }

  lemma {:induction false} RunInv(row0: FenceRow, s: Db, es: seq<Event>)
    requires Inv(row0, s) && Legal(s, es)
    ensures Inv(row0, Run(s, es))
    decreases |es|
  {
    if |es| > 0 {
      StepInv(row0, s, es[0]);
      RunInv(row0, Apply(s, es[0]), es[1..]);
    }
  }
}
