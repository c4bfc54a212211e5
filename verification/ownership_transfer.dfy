/**
 * Publication and revocation of the Host token: the two transactions on the fence row, with
 * their commit flags and the classification of every failure.
 *
 * A script decides what each await brings: failed queries, lost authority, a commit that was
 * applied or not and acknowledged or not, and what other Hosts did while the row was unlocked.
 */
module OwnershipTransfer {
  import opened Options

  // A nullable identifier column as the driver returns it.
  datatype RawId = Null | Unparsed | Id(id: nat)

  // A revision that is no unsigned decimal is None.
  datatype RawRow = RawRow(singleton: bool, instance: nat, revision: Option<nat>, token: RawId, boot: RawId)

  // What the table's constraints let a row be: singleton is checked, the revision is a bigint not below
  // zero, and both identifiers are nullable uuids.
  predicate Storable(row: RawRow) {
    row.singleton && row.revision.Some? && !row.token.Unparsed? && !row.boot.Unparsed?
  }

  predicate AllStorable(rows: Option<seq<RawRow>>) {
    rows.Some? ==> forall i :: 0 <= i < |rows.value| ==> Storable(rows.value[i])
  }

  datatype Request = Request(instance: nat, boot: nat, token: nat)

  datatype Error =
    | LeaseProblem | AuthorityProblem | CredentialProblem
    | IncompatibleFence | InstanceMismatch | RevisionMismatch | TokenMismatch | BootMismatch
    | KnownNotCommitted | CommitUncertain | CommittedUnverified

  datatype Result = Transferred(previous: nat, next: nat) | Threw(error: Error)

  // An error inside the transaction: a Problem keeps its own code, anything else is classified.
  datatype Failure = Problem(error: Error) | Other

  // One authorized query: authority before, the query itself, authority after.
  datatype Query = Query(before: bool, ok: bool, after: bool, problem: bool)

  datatype CommitFate = Acked | LostApplied | LostDropped

  datatype Script = Script(
    begin: Query, lockTimeout: Query, statementTimeout: Query, lock: Query, lockedRows: seq<RawRow>,
    update: Query, authorityAtCommit: bool, problemAtCommit: bool, commit: CommitFate,
    reread: Query, rereadRows: Option<seq<RawRow>>)

  // The fence table as this session sees it. commits counts this session's applied commits.
  class FenceTable {
    var rows: seq<RawRow>
    var commits: nat

    constructor (rows: seq<RawRow>)
      ensures this.rows == rows && commits == 0
    {
      this.rows := rows;
      commits := 0;
    }

    // Other sessions may replace the rows while this one holds no lock.
    method Others(rows': seq<RawRow>)
      modifies `rows
      ensures rows == rows'
    {
      rows := rows';
    }

    method ApplyCommit(written: seq<RawRow>)
      modifies this
      ensures rows == written && commits == old(commits) + 1
    {
      rows := written;
      commits := commits + 1;
    }
  }

  // The part of the lease connection that publication uses.
  class LeaseSession {
    var active: bool

    constructor (active: bool)
      ensures this.active == active
    {
      this.active := active;
    }

    // A failed query leaves the lease fenced; a connection that is not active fails every query.
    method Send(ok: bool) returns (sent: bool)
      modifies this
      ensures sent <==> ok && old(active)
      ensures active == (old(active) && ok)
    {
      sent := ok && active;
      active := sent;
    }

    method Fence()
      modifies this
      ensures !active
    {
      active := false;
    }
  }

  method AuthorizedQuery(session: LeaseSession, q: Query) returns (failure: Option<Failure>)
    modifies session
    ensures failure == None <==> old(session.active) && q.before && q.ok && q.after
    ensures session.active <==> old(session.active) && (q.before ==> q.ok)
    ensures failure == Some(Problem(LeaseProblem)) <==> q.before && !(old(session.active) && q.ok)
    ensures failure == Some(Problem(AuthorityProblem)) <==>
              q.problem && (!q.before || (old(session.active) && q.ok && !q.after))
    ensures failure.Some? ==> failure.value in {Problem(LeaseProblem), Problem(AuthorityProblem), Other}
  {
    if !q.before {
      return Some(if q.problem then Problem(AuthorityProblem) else Other);
    }
    var sent := session.Send(q.ok);
    if !sent {
      return Some(Problem(LeaseProblem));
    }
    if !q.after {
      return Some(if q.problem then Problem(AuthorityProblem) else Other);
    }
    return None;
  }

  // An error that a caller reads as "not committed".
  predicate DeniesCommit(r: Result) {
    r.Threw? && r.error !in {CommitUncertain, CommittedUnverified}
  }

  predicate Passes(q: Query) {
    q.before && q.ok && q.after
  }

  // Every await up to the COMMIT succeeds with current authority.
  predicate CommitReached(s: Script) {
    Passes(s.begin) && Passes(s.lockTimeout) && Passes(s.statementTimeout) && Passes(s.lock) && Passes(s.update)
        && s.authorityAtCommit
  }

  // The rows are the instance's single well-formed row, under a token or not.
  predicate IsRowOf(rows: seq<RawRow>, instance: nat) {
    |rows| == 1 && Storable(rows[0]) && rows[0].instance == instance
  }

  // ----- publication -----

  // assertFenceRow: the revision of an acceptable locked row, or the problem it raises.
  function LockedRevision(rows: seq<RawRow>, instance: nat): Result {
    if |rows| != 1 then Threw(IncompatibleFence)
    else if rows[0].instance != instance then Threw(InstanceMismatch)
    else if !rows[0].singleton || rows[0].token.Unparsed? || rows[0].boot.Unparsed? || rows[0].revision == None then
        Threw(IncompatibleFence)
    else Transferred(rows[0].revision.value, rows[0].revision.value + 1)
  }

  function PublishedRow(row: RawRow, req: Request): RawRow {
    row.(revision := if row.revision.Some? then Some(row.revision.value + 1)
        else None, token := Id(req.token), boot := Id(req.boot))
  }

  // The reread row carries this publication's identities.
  predicate ShowsPublication(rows: seq<RawRow>, req: Request) {
    |rows| == 1 && rows[0].singleton && rows[0].instance == req.instance && rows[0].token == Id(req.token)
        && rows[0].boot == Id(req.boot)
  }

  // The checks after COMMIT; a malformed revision would raise the fence problem although the commit stands.
  function VerifyPublication(rows: seq<RawRow>, req: Request, next: nat): Option<Error> {
    if !ShowsPublication(rows, req) then Some(CommittedUnverified)
    else if rows[0].revision == None then Some(IncompatibleFence)
    else if rows[0].revision.value != next then Some(CommittedUnverified)
    else None
  }

  // The transaction up to its COMMIT: the locked row is the instance's own, and its update is sent.
  method Prepare(session: LeaseSession, table: FenceTable, instance: nat, s: Script)
      returns (failure: Option<Failure>, transactionOpen: bool, previous: Result)
    modifies session, table`rows
    ensures failure == None <==> old(session.active) && CommitReached(s) && IsRowOf(s.lockedRows, instance)
    ensures failure == None ==> session.active && transactionOpen && table.rows == s.lockedRows
    ensures previous.Transferred? ==>
        previous == LockedRevision(s.lockedRows, instance)
        && Some(previous.previous) == s.lockedRows[0].revision && previous.next == previous.previous + 1
    ensures failure == None ==> previous.Transferred?
    ensures failure == Some(Problem(InstanceMismatch)) <==>
              && old(session.active) && Passes(s.begin) && Passes(s.lockTimeout) && Passes(s.statementTimeout)
              && Passes(s.lock) && |s.lockedRows| == 1 && s.lockedRows[0].instance != instance
    ensures failure.Some? && failure.value.Problem? ==>
        failure.value.error in {LeaseProblem, AuthorityProblem, IncompatibleFence, InstanceMismatch}
  {
    transactionOpen, previous := false, Threw(KnownNotCommitted);
    failure := AuthorizedQuery(session, s.begin);
    if failure.Some? { return; }
    transactionOpen := true;
    failure := AuthorizedQuery(session, s.lockTimeout);
    if failure.Some? { return; }
    failure := AuthorizedQuery(session, s.statementTimeout);
    if failure.Some? { return; }
    table.Others(s.lockedRows);
    failure := AuthorizedQuery(session, s.lock);
    if failure.Some? { return; }
    previous := LockedRevision(table.rows, instance);
    if previous.Threw? {
      failure := Some(Problem(previous.error));
      return;
    }
    failure := AuthorizedQuery(session, s.update);
    if failure.None? && !s.authorityAtCommit {
      failure := Some(if s.problemAtCommit then Problem(AuthorityProblem) else Other);
    }
  }

  method Publish(session: LeaseSession, table: FenceTable, req: Request, s: Script) returns (r: Result)
    modifies session, table
    // Publication returns exactly if every step goes through and the row in the table is then the published one.
    ensures r.Transferred? <==>
              && old(session.active) && CommitReached(s) && IsRowOf(s.lockedRows, req.instance)
              && s.commit == Acked && Passes(s.reread) && ShowsPublication(table.rows, req)
              && table.rows[0].revision == Some(s.lockedRows[0].revision.value + 1)
    ensures r.Transferred? ==> Some(r.previous) == s.lockedRows[0].revision && r.next == r.previous + 1
    // A normal return: one commit, and the row is exactly the locked row one revision later.
    ensures r.Transferred? ==>
              && table.commits == old(table.commits) + 1 && session.active
              && LockedRevision(s.lockedRows, req.instance) == r && r.next == r.previous + 1
              && ShowsPublication(table.rows, req) && table.rows[0].revision == Some(r.next)
    // A failed publication never leaves the lease active.
    ensures r.Threw? ==> !session.active
    ensures table.commits <= old(table.commits) + 1
    // Known not committed means not committed; unverified only after an acknowledged commit.
    ensures r == Threw(KnownNotCommitted) ==> table.commits == old(table.commits)
    ensures r == Threw(CommittedUnverified) ==> table.commits == old(table.commits) + 1 && s.commit == Acked
    ensures r == Threw(CommitUncertain) <==>
              old(session.active) && CommitReached(s) && IsRowOf(s.lockedRows, req.instance) && s.commit != Acked
    // A row of another instance is refused by name, and nothing is written.
    ensures r == Threw(InstanceMismatch) <==>
              && old(session.active) && Passes(s.begin) && Passes(s.lockTimeout) && Passes(s.statementTimeout)
              && Passes(s.lock) && |s.lockedRows| == 1 && s.lockedRows[0].instance != req.instance
    // The commit is applied exactly when every await before it went through and the server took it.
    ensures table.commits == old(table.commits) + 1 <==>
              old(session.active) && CommitReached(s) && LockedRevision(s.lockedRows, req.instance).Transferred?
                  && s.commit != LostDropped
    // While the table keeps its constraints, only these two errors hide a commit.
    ensures AllStorable(s.rereadRows) && DeniesCommit(r) ==> table.commits == old(table.commits)
    // In a table that breaks them, one more does: exactly on a malformed revision in the reread row.
    ensures table.commits == old(table.commits) + 1 && DeniesCommit(r) <==>
              && old(session.active) && CommitReached(s) && LockedRevision(s.lockedRows, req.instance).Transferred?
              && s.commit == Acked && Passes(s.reread)
              && s.rereadRows.Some? && ShowsPublication(s.rereadRows.value, req)
                  && s.rereadRows.value[0].revision == None
  {
    if !session.active {
      return Threw(LeaseProblem);
    }
    var commitIssued, commitAcknowledged := false, false;
    var failure: Failure := Other;
    var refusal, transactionOpen, previous := Prepare(session, table, req.instance, s);
    label Transaction: {
      if refusal.Some? { failure := refusal.value; break Transaction; }
      commitIssued := true;
      if s.commit != LostDropped {
        table.ApplyCommit([PublishedRow(table.rows[0], req)]);
      }
      var sent := session.Send(s.commit == Acked);
      if !sent { failure := Problem(CommitUncertain); break Transaction; }
      commitAcknowledged := true;
      transactionOpen := false;
      if s.rereadRows.Some? {
        table.Others(s.rereadRows.value);
      }
      assert AllStorable(s.rereadRows) && s.rereadRows.Some? && |table.rows| == 1 ==> Storable(s.rereadRows.value[0]);
      var reread := AuthorizedQuery(session, s.reread);
      if reread.Some? { failure := Problem(CommittedUnverified); break Transaction; }
      var refused := VerifyPublication(table.rows, req, previous.next);
      if refused.Some? { failure := Problem(refused.value); break Transaction; }
      return previous;
    }
    if !commitIssued && transactionOpen && session.active {
      var rolledBack := session.Send(true);
    }
    session.Fence();
    if failure.Problem? { return Threw(failure.error); }
    if commitIssued && !commitAcknowledged { return Threw(CommitUncertain); }
    if commitAcknowledged { return Threw(CommittedUnverified); }
    return Threw(KnownNotCommitted);
  }

  // ----- revocation -----

  datatype Holder = Holder(instance: nat, boot: nat, token: nat)

  datatype Connection = Connected | CredentialRefused | ConnectFailed

  // The Bootstrap-admin session around the transaction: connecting may fail, and so may the final end.
  datatype AdminScript = AdminScript(connect: Connection, steps: Script, ended: bool)

  // assertSourceFence behind the one-row check: only the current holder's row may be revoked.
  function SourceRevision(rows: seq<RawRow>, h: Holder): Result {
    if |rows| != 1 then Threw(RevisionMismatch)
    else if !rows[0].singleton || rows[0].instance != h.instance then Threw(InstanceMismatch)
    else if rows[0].revision == None then Threw(RevisionMismatch)
    else if rows[0].token != Id(h.token) then Threw(TokenMismatch)
    else if rows[0].boot != Id(h.boot) then Threw(BootMismatch)
    else Transferred(rows[0].revision.value, rows[0].revision.value + 1)
  }

  function RevokedRow(row: RawRow): RawRow {
    row.(revision := if row.revision.Some? then Some(row.revision.value + 1) else None, token := Null, boot := Null)
  }

  // assertRevokedFence behind the one-row check; the revision is read before the identities.
  function VerifyRevocation(rows: seq<RawRow>, h: Holder, next: nat): Option<Error> {
    if |rows| != 1 || !rows[0].singleton || rows[0].instance != h.instance then Some(CommittedUnverified)
    else if rows[0].revision == None then Some(RevisionMismatch)
    else if rows[0].revision.value != next || rows[0].token != Null || rows[0].boot != Null then
        Some(CommittedUnverified)
    else None
  }

  function AdminQuery(q: Query): Option<Failure> {
    if Passes(q) then None
    else if (!q.before || q.ok) && q.problem then Some(Problem(AuthorityProblem))
    else Some(Other)
  }

  // The classification both catch clauses share.
  function Classify(f: Failure, issued: bool, acknowledged: bool): Error {
    if f.Problem? then f.error
    else if issued && !acknowledged then CommitUncertain
    else if acknowledged then CommittedUnverified
    else KnownNotCommitted
  }

  method Revoke(table: FenceTable, h: Holder, s: AdminScript) returns (r: Result)
    modifies table
    // Revocation returns exactly if every step goes through and the row in the table is then the revoked one.
    ensures r.Transferred? <==>
              && s.connect == Connected && s.ended && CommitReached(s.steps) && IsRowOf(s.steps.lockedRows, h.instance)
              && s.steps.lockedRows[0].token == Id(h.token) && s.steps.lockedRows[0].boot == Id(h.boot)
              && s.steps.commit == Acked && s.steps.reread.before && s.steps.reread.ok
              && table.rows ==
                 [RawRow(true, h.instance, Some(s.steps.lockedRows[0].revision.value + 1), Null, Null)]
    ensures r.Transferred? ==> Some(r.previous) == s.steps.lockedRows[0].revision
    // A normal return: one commit, the locked row was the holder's, and it is now one revision later without
    // identities.
    ensures r.Transferred? ==>
              && table.commits == old(table.commits) + 1 && r.next == r.previous + 1
              && SourceRevision(s.steps.lockedRows, h) == r
              && table.rows == [RawRow(true, h.instance, Some(r.next), Null, Null)]
    ensures r == Threw(KnownNotCommitted) ==> table.commits == old(table.commits)
    ensures r == Threw(CommittedUnverified) ==> table.commits == old(table.commits) + 1 && s.steps.commit == Acked
    ensures r == Threw(CommitUncertain) ==> s.steps.commit != Acked
    ensures table.commits <= old(table.commits) + 1
    ensures table.commits == old(table.commits) + 1 <==>
              s.connect == Connected && CommitReached(s.steps) && SourceRevision(s.steps.lockedRows, h).Transferred?
                  && s.steps.commit != LostDropped
    // While the table keeps its constraints, only these two errors hide a commit.
    ensures AllStorable(s.steps.rereadRows) && DeniesCommit(r) ==> table.commits == old(table.commits)
    // In a table that breaks them, one more does: exactly on a malformed revision in the reread row.
    ensures table.commits == old(table.commits) + 1 && DeniesCommit(r) <==>
              && s.connect == Connected && CommitReached(s.steps) && SourceRevision(s.steps.lockedRows, h).Transferred?
              && s.steps.commit == Acked && s.steps.reread.before && s.steps.reread.ok && s.ended
              && s.steps.rereadRows.Some? && VerifyRevocation(s.steps.rereadRows.value, h, 0) == Some(RevisionMismatch)
  {
    if s.connect != Connected {
      return Threw(Classify(if s.connect == CredentialRefused then Problem(CredentialProblem)
          else Other, false, false));
    }
    var failure, commitIssued, commitAcknowledged;
    failure, commitIssued, commitAcknowledged, r := RevokeInSession(table, h, s.steps);
    if r.Threw? {
      r := Threw(Classify(failure, commitIssued, commitAcknowledged));
    }
    if !s.ended {
      r := Threw(Classify(Other, commitIssued, commitAcknowledged));
    }
  }

  // The transaction inside the session; the flags are the closure's variables when it ends.
  method RevokeInSession(table: FenceTable, h: Holder, s: Script)
    returns (failure: Failure, commitIssued: bool, commitAcknowledged: bool, r: Result)
    modifies table
    ensures commitIssued <==> CommitReached(s) && SourceRevision(s.lockedRows, h).Transferred?
    ensures commitAcknowledged <==> commitIssued && s.commit == Acked
    ensures table.commits == old(table.commits) + if commitIssued && s.commit != LostDropped then 1 else 0
    ensures r.Transferred? <==>
              && CommitReached(s) && IsRowOf(s.lockedRows, h.instance)
              && s.lockedRows[0].token == Id(h.token) && s.lockedRows[0].boot == Id(h.boot)
              && s.commit == Acked && s.reread.before && s.reread.ok
              && table.rows == [RawRow(true, h.instance, Some(s.lockedRows[0].revision.value + 1), Null, Null)]
    ensures r.Transferred? ==> Some(r.previous) == s.lockedRows[0].revision
    ensures r.Transferred? ==>
        commitAcknowledged && SourceRevision(s.lockedRows, h) == r && VerifyRevocation(table.rows, h, r.next) == None
    ensures r.Threw? && commitAcknowledged ==> failure in {Problem(CommittedUnverified), Problem(RevisionMismatch)}
    ensures r.Threw? && commitAcknowledged ==>
              (failure == Problem(RevisionMismatch) <==>
                 && s.reread.before && s.reread.ok && s.rereadRows.Some?
                 && VerifyRevocation(s.rereadRows.value, h, 0) == Some(RevisionMismatch))
    ensures r.Transferred? ==> s.rereadRows.Some? ==>
        VerifyRevocation(s.rereadRows.value, h, 0) != Some(RevisionMismatch)
    ensures r.Threw? && commitIssued && !commitAcknowledged ==> failure == Problem(CommitUncertain)
    ensures r.Threw? && !commitIssued && failure.Problem? ==>
        failure.error in {AuthorityProblem, InstanceMismatch, RevisionMismatch, TokenMismatch, BootMismatch}
  {
    commitIssued, commitAcknowledged, failure, r := false, false, Other, Threw(KnownNotCommitted);
    var begun := AdminQuery(s.begin);
    if begun.Some? { failure := begun.value; return; }
    var timeout1 := AdminQuery(s.lockTimeout);
    if timeout1.Some? { failure := timeout1.value; return; }
    var timeout2 := AdminQuery(s.statementTimeout);
    if timeout2.Some? { failure := timeout2.value; return; }
    table.Others(s.lockedRows);
    var locked := AdminQuery(s.lock);
    if locked.Some? { failure := locked.value; return; }
    var previous := SourceRevision(table.rows, h);
    if previous.Threw? { failure := Problem(previous.error); return; }
    var updated := AdminQuery(s.update);
    if updated.Some? { failure := updated.value; return; }
    if !s.authorityAtCommit {
      failure := if s.problemAtCommit then Problem(AuthorityProblem) else Other;
      return;
    }
    commitIssued := true;
    if s.commit != LostDropped {
      table.ApplyCommit([RevokedRow(table.rows[0])]);
    }
    if s.commit != Acked { failure := Problem(CommitUncertain); return; }
    commitAcknowledged := true;
    if s.rereadRows.Some? {
      table.Others(s.rereadRows.value);
    }
    if !s.reread.before || !s.reread.ok { failure := Problem(CommittedUnverified); return; }
    var refused := VerifyRevocation(table.rows, h, previous.next);
    if refused.Some? { failure := Problem(refused.value); return; }
    r := previous;
  }
}
