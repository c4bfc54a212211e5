/**
 * What the fence guarantees over every run of every Host, stated about the committed log.
 */
module FenceSafety {
  import opened Options
  import opened HostFence

  lemma LegalSplit(s: Db, es: seq<Event>, fs: seq<Event>)
    requires Legal(s, es + fs)
    ensures Legal(s, es) && Legal(Run(s, es), fs) && Run(s, es + fs) == Run(Run(s, es), fs)
    decreases |es|
  {
    if |es| == 0 {
      assert es + fs == fs;
    } else {
      assert (es + fs)[1..] == es[1..] + fs;
      LegalSplit(Apply(s, es[0]), es[1..], fs);
    }
  }

  /** Every mutation commits while the fence row holds exactly its own instance, token and boot. */
  lemma MutationsCommitUnderTheirOwnToken(row0: FenceRow, es: seq<Event>, i: nat)
    requires Legal(Init(row0), es)
    requires i < |Run(Init(row0), es).log|
    ensures var log := Run(Init(row0), es).log;
            log[i].kind == Mutate ==> Owns(Replay(row0, log[..i]), log[i].authority)
  {
    InitInv(row0);
    RunInv(row0, Init(row0), es);
  }

  // Tokens are fresh identifiers: no publication repeats one, nor the token found at the start.
  ghost predicate FreshTokens(row0: FenceRow, log: seq<Entry>) {
    && (forall i, j :: 0 <= i < j < |log| && log[i].kind == Publish && log[j].kind == Publish
          ==> log[i].authority.token != log[j].authority.token)
    && (forall i :: 0 <= i < |log| && log[i].kind == Publish ==> row0.token != Some(log[i].authority.token))
  }

  lemma {:induction false} TokenOrigin(row0: FenceRow, log: seq<Entry>, i: nat)
    requires i <= |log| && Replay(row0, log[..i]).token.Some?
    ensures var token := Replay(row0, log[..i]).token;
            row0.token == token
            || exists m :: 0 <= m < i && log[m].kind == Publish && Some(log[m].authority.token) == token
  {
    if i > 0 {
      assert log[..i][..i - 1] == log[..i - 1];
      if log[i - 1].kind == Mutate {
        TokenOrigin(row0, log, i - 1);
      }
    }
  }

  lemma {:induction false} TokenNeverReturns(row0: FenceRow, log: seq<Entry>, i: nat, j: nat, k: nat)
    requires FreshTokens(row0, log)
    requires i <= j <= k <= |log|
    requires Replay(row0, log[..i]).token.Some?
    requires Replay(row0, log[..j]).token != Replay(row0, log[..i]).token
    ensures Replay(row0, log[..k]).token != Replay(row0, log[..i]).token
    decreases k
  {
    if j < k {
      TokenNeverReturns(row0, log, i, j, k - 1);
      assert log[..k][..k - 1] == log[..k - 1];
      TokenOrigin(row0, log, i);
    }
  }

  lemma TransferChangesToken(row0: FenceRow, log: seq<Entry>, i: nat, j: nat)
    requires FreshTokens(row0, log) && i <= j < |log| && log[j].kind != Mutate && Replay(row0, log[..i]).token.Some?
    ensures Replay(row0, log[..j + 1]).token != Replay(row0, log[..i]).token
  {
    TokenOrigin(row0, log, i);
    assert log[..j + 1][..j] == log[..j];
  }

  lemma FencedInLog(row0: FenceRow, log: seq<Entry>, i: nat, j: nat, k: nat)
    requires LogAccepted(row0, log) && FreshTokens(row0, log)
    requires i <= j < k < |log| && log[j].kind != Mutate && log[k].kind != Publish && Replay(row0, log[..i]).token.Some?
    ensures Some(log[k].authority.token) != Replay(row0, log[..i]).token
  {
    TransferChangesToken(row0, log, i, j);
    TokenNeverReturns(row0, log, i, j + 1, k);
    assert Accepts(log[k].kind, Replay(row0, log[..k]), log[k].authority);
  }

  /**
   * Once a publication or revocation commits behind a token's reign, no mutation or revocation
   * of that token ever commits again: the row holds the token after i entries, entry j transfers
   * the fence, and entry k is any later one.
   */
  lemma OldTokensAreFenced(row0: FenceRow, es: seq<Event>, i: nat, j: nat, k: nat)
    requires Legal(Init(row0), es)
    requires var log := Run(Init(row0), es).log;
             FreshTokens(row0, log) && i <= j < k < |log| && log[j].kind != Mutate && log[k].kind != Publish
    requires Replay(row0, Run(Init(row0), es).log[..i]).token.Some?
    ensures var log := Run(Init(row0), es).log;
            Some(log[k].authority.token) != Replay(row0, log[..i]).token
  {
    InitInv(row0);
    RunInv(row0, Init(row0), es);
    FencedInLog(row0, Run(Init(row0), es).log, i, j, k);
  }

  /** The fence revision counts the committed publications and revocations, and nothing else. */
  lemma RevisionCountsTransfers(row0: FenceRow, es: seq<Event>)
    requires Legal(Init(row0), es)
    ensures var s := Run(Init(row0), es);
            s.row.revision == row0.revision + Transfers(s.log) && s.row.instance == row0.instance
  {
    InitInv(row0);
    RunInv(row0, Init(row0), es);
    ReplayRevision(row0, Run(Init(row0), es).log);
  }

  lemma {:induction false} ReplayRevision(row0: FenceRow, log: seq<Entry>)
    ensures Replay(row0, log).revision == row0.revision + Transfers(log) && Replay(row0, log).instance == row0.instance
  {
    if |log| > 0 {
      ReplayRevision(row0, log[..|log| - 1]);
    }
  }

  // ----- what a client may conclude from its answer -----

  lemma {:induction false} ReportsStick(s: Db, es: seq<Event>, t: TxId)
    requires Legal(s, es) && t in s.txs && s.txs[t].report.Some?
    ensures t in Run(s, es).txs && Run(s, es).txs[t].report == s.txs[t].report
    decreases |es|
  {
    if |es| > 0 {
      ReportsStick(Apply(s, es[0]), es[1..], t);
    }
  }

  /** A transaction reported as not committed is in no later log, whatever the server still does. */
  lemma NotCommittedIsFinal(row0: FenceRow, es: seq<Event>, fs: seq<Event>, t: TxId)
    requires Legal(Init(row0), es + fs)
    requires Legal(Init(row0), es) && t in Run(Init(row0), es).txs
        && Run(Init(row0), es).txs[t].report == Some(NotCommitted)
    ensures !InLog(Run(Init(row0), es + fs).log, t)
  {
    LegalSplit(Init(row0), es, fs);
    InitInv(row0);
    RunInv(row0, Init(row0), es + fs);
    ReportsStick(Run(Init(row0), es), fs, t);
    var s := Run(Init(row0), es + fs);
    assert ReportOk(s.txs[t]);
    forall i | 0 <= i < |s.log|
      ensures s.log[i].tx != t
    {
      assert EntryOk(s, s.log[i]);
    }
  }

  // Entry i of the log is t's, and it rewrote exactly the row that t had read.
  ghost predicate CommittedAt(row0: FenceRow, s: Db, t: TxId, i: int) {
    && 0 <= i < |s.log|
    && t in s.txs
    && s.log[i] == Entry(t, s.txs[t].kind, s.txs[t].authority)
    && Replay(row0, s.log[..i]) == s.txs[t].base
    && Replay(row0, s.log[..i + 1]) == Rewrite(s.txs[t].base, s.log[i])
  }

  lemma EntryIsCommittedAt(row0: FenceRow, s: Db, t: TxId, i: nat)
    requires i < |s.log| && s.log[i].tx == t && EntryOk(s, s.log[i]) && BaseExact(row0, s, i)
    ensures CommittedAt(row0, s, t, i)
  {
    assert s.log[..i + 1][..i] == s.log[..i];
  }

  lemma CommittedStandsInLog(row0: FenceRow, s: Db, t: TxId)
    requires LogMatches(s) && BasesExact(row0, s) && t in s.txs && s.txs[t].phase == Committed
    ensures exists i :: CommittedAt(row0, s, t, i)
  {
    var i :| 0 <= i < |s.log| && s.log[i].tx == t;
    EntryIsCommittedAt(row0, s, t, i);
  }

  /**
   * A normal return and "committed but unverified" are both given only after the commit, and
   * the row the transaction read first is the one right before its own entry.
   */
  lemma AnsweredCommitsAreInTheLog(row0: FenceRow, es: seq<Event>, t: TxId)
    requires Legal(Init(row0), es) && t in Run(Init(row0), es).txs
    requires Run(Init(row0), es).txs[t].report in {Some(Returned), Some(CommittedUnverified)}
    ensures exists i :: CommittedAt(row0, Run(Init(row0), es), t, i)
  {
    InitInv(row0);
    RunInv(row0, Init(row0), es);
    assert ReportOk(Run(Init(row0), es).txs[t]);
    CommittedStandsInLog(row0, Run(Init(row0), es), t);
  }

  lemma {:induction false} TransfersGrow(log: seq<Entry>, n: nat)
    requires n <= |log|
    ensures Transfers(log[..n]) <= Transfers(log)
    decreases |log|
  {
    if n < |log| {
      assert log[..|log| - 1][..n] == log[..n];
      TransfersGrow(log[..|log| - 1], n);
    } else {
      assert log[..n] == log;
    }
  }

  // Nobody has taken the fence over since entry i.
  ghost predicate LastTransfer(log: seq<Entry>, i: int) {
    forall j :: 0 <= i < j < |log| ==> log[j].kind == Mutate
  }

  lemma NoTransferBetween(log: seq<Entry>, i: nat, j: nat)
    requires i < j < |log| && Transfers(log) == Transfers(log[..i + 1])
    ensures log[j].kind == Mutate
  {
    assert log[..j][..i + 1] == log[..i + 1] && log[..j + 1][..j] == log[..j];
    TransfersGrow(log[..j], i + 1);
    TransfersGrow(log, j + 1);
  }

  lemma SameRevisionMeansLast(row0: FenceRow, log: seq<Entry>, i: nat)
    requires i < |log| && Replay(row0, log).revision == Replay(row0, log[..i + 1]).revision
    ensures LastTransfer(log, i)
  {
    ReplayRevision(row0, log);
    ReplayRevision(row0, log[..i + 1]);
    forall j | i < j < |log|
      ensures log[j].kind == Mutate
    {
      NoTransferBetween(log, i, j);
    }
  }

  /**
   * When a publication or revocation may return normally, its own entry is the last transfer in
   * the log: no other Host has taken the fence since, and a publisher still owns the row.
   */
  lemma ReturnsWhileStillLast(row0: FenceRow, es: seq<Event>, t: TxId)
    requires Legal(Init(row0), es) && Enabled(Run(Init(row0), es), Settle(t, Returned))
    requires Run(Init(row0), es).txs[t].kind != Mutate
    ensures var s := Run(Init(row0), es);
            && (exists i :: CommittedAt(row0, s, t, i) && LastTransfer(s.log, i))
            && (s.txs[t].kind == Publish ==> Owns(s.row, s.txs[t].authority))
  {
    var s := Run(Init(row0), es);
    InitInv(row0);
    RunInv(row0, Init(row0), es);
    LastWhenVerified(row0, s, t);
  }

  lemma LastWhenVerified(row0: FenceRow, s: Db, t: TxId)
    requires LogMatches(s) && BasesExact(row0, s) && LogAccepted(row0, s.log) && s.row == Replay(row0, s.log)
    requires t in s.txs && s.txs[t].phase == Committed && s.txs[t].kind != Mutate && Verified(s, s.txs[t])
    ensures exists i :: CommittedAt(row0, s, t, i) && LastTransfer(s.log, i)
    ensures s.txs[t].kind == Publish ==> Owns(s.row, s.txs[t].authority)
  {
    CommittedStandsInLog(row0, s, t);
    var i :| CommittedAt(row0, s, t, i);
    assert Accepts(s.log[i].kind, Replay(row0, s.log[..i]), s.log[i].authority);
    SameRevisionMeansLast(row0, s.log, i);
  }

  function UncertainSteps(t: TxId, a: Authority): seq<Event> {
    [Begin(t, Mutate, a), Lock(t), Finish(t), Issue(t), Settle(t, CommitUncertain)]
  }

  function UncertainState(row0: FenceRow, t: TxId, a: Authority): Db {
    Db(row0, {t}, None, map[t := Tx(Mutate, a, Issued, row0, true, Some(CommitUncertain))], [])
  }

  function ReadySteps(t: TxId, a: Authority): seq<Event> {
    [Begin(t, Mutate, a), Lock(t), Finish(t)]
  }

  lemma ReadyStepsRun(row0: FenceRow, a: Authority, t: TxId)
    requires Owns(row0, a)
    ensures Legal(Init(row0), ReadySteps(t, a))
    ensures Run(Init(row0), ReadySteps(t, a)) == Db(row0, {t}, None, map[t := Tx(Mutate, a, Ready, row0, true, None)],
        [])
  {
    var es := ReadySteps(t, a);
    var s1 := Apply(Init(row0), es[0]);
    var s2 := Apply(s1, es[1]);
    assert s2.sharers == {t};
    LegalCons(s2, es[2], []);
    LegalCons(s1, es[1], [es[2]]);
    LegalCons(Init(row0), es[0], es[1..]);
    assert es[1..] == [es[1]] + [es[2]] && es == [es[0]] + es[1..];
  }

  lemma UncertainStepsRun(row0: FenceRow, a: Authority, t: TxId)
    requires Owns(row0, a)
    ensures Legal(Init(row0), UncertainSteps(t, a))
        && Run(Init(row0), UncertainSteps(t, a)) == UncertainState(row0, t, a)
  {
    var es := ReadySteps(t, a);
    ReadyStepsRun(row0, a, t);
    LegalAppend(Init(row0), es, Issue(t));
    LegalAppend(Init(row0), es + [Issue(t)], Settle(t, CommitUncertain));
    assert UncertainSteps(t, a) == es + [Issue(t)] + [Settle(t, CommitUncertain)];
  }

  /** Commit uncertainty decides nothing: the same client steps and answer precede a commit and an abort. */
  lemma UncertainMeansUnknown(row0: FenceRow, a: Authority, t: TxId)
    requires Owns(row0, a)
    ensures var es := UncertainSteps(t, a);
            && Legal(Init(row0), es)
                && Run(Init(row0), es).txs == map[t := Tx(Mutate, a, Issued, row0, true, Some(CommitUncertain))]
            && Legal(Init(row0), es + [Commit(t)]) && InLog(Run(Init(row0), es + [Commit(t)]).log, t)
            && Legal(Init(row0), es + [Abort(t)]) && !InLog(Run(Init(row0), es + [Abort(t)]).log, t)
  {
    var es := UncertainSteps(t, a);
    UncertainStepsRun(row0, a, t);
    LegalAppend(Init(row0), es, Commit(t));
    LegalAppend(Init(row0), es, Abort(t));
    assert Run(Init(row0), es + [Commit(t)]).log == [Entry(t, Mutate, a)];
    assert Run(Init(row0), es + [Commit(t)]).log[0].tx == t;
  }

  lemma LegalCons(s: Db, e: Event, es: seq<Event>)
    requires Enabled(s, e) && Legal(Apply(s, e), es)
    ensures Legal(s, [e] + es) && Run(s, [e] + es) == Run(Apply(s, e), es)
  {
    assert ([e] + es)[1..] == es;
  }

  lemma {:induction false} LegalAppend(s: Db, es: seq<Event>, e: Event)
    requires Legal(s, es) && Enabled(Run(s, es), e)
    ensures Legal(s, es + [e]) && Run(s, es + [e]) == Apply(Run(s, es), e)
    decreases |es|
  {
    if |es| == 0 {
      LegalCons(s, e, []);
      assert es + [e] == [e] + [];
    } else {
      LegalAppend(Apply(s, es[0]), es[1..], e);
      LegalCons(s, es[0], es[1..] + [e]);
      assert es + [e] == [es[0]] + (es[1..] + [e]);
    }
  }

  // ----- a transaction nobody is in the way of -----

  function WholeTransaction(t: TxId, kind: Kind, a: Authority): seq<Event> {
    [Begin(t, kind, a), Lock(t), Finish(t), Issue(t), Commit(t), Settle(t, Returned)]
  }

  // The transaction t once it stands in this phase, alone with its lock.
  function Standing(s: Db, t: TxId, kind: Kind, a: Authority, p: Phase, inDoubt: bool): Db {
    s.(txs := s.txs[t := Tx(kind, a, p, s.row, inDoubt, None)],
       sharers := if Holding(p) && kind == Mutate then {t} else {},
       owner := if Holding(p) && kind != Mutate then Some(t) else None)
  }

  lemma ReachesCommit(s: Db, t: TxId, kind: Kind, a: Authority)
    requires t !in s.txs && s.owner == None && s.sharers == {} && Accepts(kind, s.row, a)
    ensures var es := WholeTransaction(t, kind, a)[..4];
            Legal(s, es) && Run(s, es) == Standing(s, t, kind, a, Issued, true)
  {
    var s1 := Standing(s, t, kind, a, Began, false);
    var s2 := Standing(s, t, kind, a, Locked, false);
    var s3 := Standing(s, t, kind, a, Ready, kind == Mutate);
    assert Apply(s, Begin(t, kind, a)) == s1;
    assert Apply(s1, Lock(t)) == s2;
    assert Apply(s2, Finish(t)) == s3;
    assert Apply(s3, Issue(t)) == Standing(s, t, kind, a, Issued, true);
    LegalCons(s3, Issue(t), []);
    LegalCons(s2, Finish(t), [Issue(t)]);
    LegalCons(s1, Lock(t), [Finish(t)] + [Issue(t)]);
    LegalCons(s, Begin(t, kind, a), [Lock(t)] + ([Finish(t)] + [Issue(t)]));
    assert WholeTransaction(t, kind, a)[..4] == [Begin(t, kind, a)] + ([Lock(t)] + ([Finish(t)] + [Issue(t)]));
  }

  /**
   * Over an unlocked row the transaction of an authority the row accepts runs through, returns, and
   * leaves the row as it must be: one revision later under the published identities, one revision
   * later without any, or untouched by a mutation.
   */
  lemma UnimpededTransactionsReturn(s: Db, t: TxId, kind: Kind, a: Authority)
    requires t !in s.txs && s.owner == None && s.sharers == {} && s.row.instance == a.instance
    requires kind != Publish ==> s.row.token == Some(a.token) && s.row.boot == Some(a.boot)
    ensures var es := WholeTransaction(t, kind, a);
            && Legal(s, es)
            && var s' := Run(s, es);
            && s'.owner == None && s'.sharers == {} && s'.log == s.log + [Entry(t, kind, a)]
            && t in s'.txs && s'.txs[t].phase == Committed && s'.txs[t].report == Some(Returned)
            && s'.row == match kind
                         case Mutate => s.row
                         case Publish => FenceRow(a.instance, s.row.revision + 1, Some(a.token), Some(a.boot))
                         case Revoke => FenceRow(a.instance, s.row.revision + 1, None, None)
  {
    var es := WholeTransaction(t, kind, a);
    ReachesCommit(s, t, kind, a);
    LegalAppend(s, es[..4], Commit(t));
    LegalAppend(s, es[..4] + [Commit(t)], Settle(t, Returned));
    assert es == es[..4] + [Commit(t)] + [Settle(t, Returned)];
  }

  // ----- order of mutations and transfers -----

  // m entered the shared fence before the publication or revocation p took the row.
  ghost predicate EnteredFirst(s: Db, m: TxId, p: TxId) {
    && m in s.txs && s.txs[m].kind == Mutate && s.txs[m].phase != Began
    && (p in s.txs ==> s.txs[p].kind != Mutate)
    && (Holding(s.txs[m].phase) ==> !InLog(s.log, p))
    && (forall i, j :: 0 <= i < |s.log| && 0 <= j < |s.log| && s.log[i].tx == m && s.log[j].tx == p ==> i < j)
  }

  lemma NotYetInLog(s: Db, t: TxId)
    requires LogMatches(s) && t in s.txs && s.txs[t].phase != Committed
    ensures forall i :: 0 <= i < |s.log| ==> s.log[i].tx != t
  {
    forall i | 0 <= i < |s.log|
      ensures s.log[i].tx != t
    {
      assert EntryOk(s, s.log[i]);
    }
  }

  lemma CommitKeepsOrder(s: Db, t: TxId, m: TxId, p: TxId)
    requires LocksMatch(s) && LogMatches(s) && EnteredFirst(s, m, p) && Enabled(s, Commit(t)) && p in s.txs
    ensures EnteredFirst(Apply(s, Commit(t)), m, p)
  {
    var s' := Apply(s, Commit(t));
    assert LockHeld(s, m, s.txs[m]) && LockHeld(s, p, s.txs[p]);
    assert forall i :: 0 <= i < |s.log| ==> s'.log[i] == s.log[i];
    NotYetInLog(s, t);
    if t == p {
      assert !Holding(s.txs[m].phase);
    }
  }

  lemma OtherStepKeepsOrder(s: Db, e: Event, m: TxId, p: TxId)
    requires EnteredFirst(s, m, p) && Enabled(s, e) && !e.Commit? && p in s.txs
    ensures EnteredFirst(Apply(s, e), m, p) && p in Apply(s, e).txs
  {
    var s' := Apply(s, e);
    assert s'.log == s.log;
    assert s'.txs[m].kind == s.txs[m].kind && s'.txs[p].kind == s.txs[p].kind;
    assert s'.txs[m].phase != Began && (Holding(s'.txs[m].phase) ==> Holding(s.txs[m].phase));
  }

  lemma EnteredFirstStep(row0: FenceRow, s: Db, e: Event, m: TxId, p: TxId)
    requires Inv(row0, s) && EnteredFirst(s, m, p) && Enabled(s, e) && p in s.txs
    ensures EnteredFirst(Apply(s, e), m, p) && p in Apply(s, e).txs
  {
    if e.Commit? {
      CommitKeepsOrder(s, e.t, m, p);
    } else {
      OtherStepKeepsOrder(s, e, m, p);
    }
  }

  /** A mutation that entered the shared fence first commits before the transfer, never behind it. */
  lemma {:induction false} TransfersWaitForEnteredMutations(row0: FenceRow, s: Db, es: seq<Event>, m: TxId, p: TxId,
      i: nat, j: nat)
    requires Inv(row0, s) && Legal(s, es)
    requires m in s.txs && s.txs[m].kind == Mutate && Holding(s.txs[m].phase)
    requires p in s.txs && s.txs[p].kind != Mutate && s.txs[p].phase != Committed
    requires i < |Run(s, es).log| && j < |Run(s, es).log| && Run(s, es).log[i].tx == m && Run(s, es).log[j].tx == p
    ensures i < j
  {
    forall n | 0 <= n < |s.log|
      ensures s.log[n].tx != p && s.log[n].tx != m
    {
      assert EntryOk(s, s.log[n]);
    }
    EnteredFirstRun(row0, s, es, m, p);
  }

  lemma {:induction false} EnteredFirstRun(row0: FenceRow, s: Db, es: seq<Event>, m: TxId, p: TxId)
    requires Inv(row0, s) && Legal(s, es) && EnteredFirst(s, m, p) && p in s.txs
    ensures EnteredFirst(Run(s, es), m, p)
    decreases |es|
  {
    if |es| > 0 {
      EnteredFirstStep(row0, s, es[0], m, p);
      StepInv(row0, s, es[0]);
      EnteredFirstRun(row0, Apply(s, es[0]), es[1..], m, p);
    }
  }
}
