/**
 * The checks each kind of transaction makes on the raw fence row it locked, tied to what the
 * fence model says the transaction accepts and writes.
 */
module FenceRows {
  import opened Options
  import F = HostFence
  import T = OwnershipTransfer

  datatype Verdict = Verified | Incompatible | StaleOwner

  // verifyHostFence.
  function Verify(rows: seq<T.RawRow>, a: F.Authority): Verdict {
    if |rows| != 1 || !rows[0].singleton || rows[0].revision == None then Incompatible
    else if rows[0].token.Null? || rows[0].boot.Null? then StaleOwner
    else if rows[0].token.Unparsed? || rows[0].boot.Unparsed? then Incompatible
    else if rows[0].instance != a.instance || rows[0].token.id != a.token || rows[0].boot.id != a.boot then StaleOwner
    else Verified
  }

  function RawIdOf(id: Option<nat>): T.RawId {
    if id.Some? then T.Id(id.value) else T.Null
  }

  // How a well-formed fence row reads.
  function Raw(row: F.FenceRow): T.RawRow {
    T.RawRow(true, row.instance, Some(row.revision), RawIdOf(row.token), RawIdOf(row.boot))
  }

  function RequestOf(a: F.Authority): T.Request {
    T.Request(a.instance, a.boot, a.token)
  }

  function HolderOf(a: F.Authority): T.Holder {
    T.Holder(a.instance, a.boot, a.token)
  }

  /** The rows the table's constraints allow are exactly the readings of the model's fence rows. */
  lemma StorableRowsAreFenceRows(raw: T.RawRow)
    ensures T.Storable(raw) <==> exists row: F.FenceRow :: raw == Raw(row)
  {
    if T.Storable(raw) {
      var row := F.FenceRow(raw.instance, raw.revision.value,
        if raw.token.Id? then Some(raw.token.id) else None, if raw.boot.Id? then Some(raw.boot.id) else None);
      assert raw == Raw(row);
    }
  }

  /**
   * On the rows the table can hold, the raw checks of the three transactions decide exactly what
   * the fence model accepts.
   */
  lemma ChecksDecideAcceptance(row: F.FenceRow, a: F.Authority)
    ensures Verify([Raw(row)], a) == Verified <==> F.Accepts(F.Mutate, row, a)
    ensures T.LockedRevision([Raw(row)], a.instance).Transferred? <==> F.Accepts(F.Publish, row, a)
    ensures T.SourceRevision([Raw(row)], HolderOf(a)).Transferred? <==> F.Accepts(F.Revoke, row, a)
  {
  }

  /** No other row passes: a verified row is a single well-formed row that names the authority. */
  lemma OnlyOwnRowsPass(rows: seq<T.RawRow>, a: F.Authority) returns (row: F.FenceRow)
    requires Verify(rows, a) == Verified
    ensures rows == [Raw(row)] && F.Owns(row, a)
  {
    row := F.FenceRow(rows[0].instance, rows[0].revision.value, Some(rows[0].token.id), Some(rows[0].boot.id));
    assert rows == [rows[0]];
  }

  /** The rows publication and revocation write, and then demand to read back, are the fence model's rewrites. */
  lemma WritesAreRewrites(row: F.FenceRow, a: F.Authority, t: F.TxId)
    ensures T.PublishedRow(Raw(row), RequestOf(a)) == Raw(F.Rewrite(row, F.Entry(t, F.Publish, a)))
    ensures T.RevokedRow(Raw(row)) == Raw(F.Rewrite(row, F.Entry(t, F.Revoke, a)))
    ensures F.Accepts(F.Publish, row, a) ==>
              T.VerifyPublication([Raw(F.Rewrite(row, F.Entry(t, F.Publish, a)))], RequestOf(a),
                  row.revision + 1) == None
    ensures F.Accepts(F.Revoke, row, a) ==>
              T.VerifyRevocation([Raw(F.Rewrite(row, F.Entry(t, F.Revoke, a)))], HolderOf(a), row.revision + 1) == None
  {
  }
}
