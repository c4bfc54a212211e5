/**
 * The fair scan: pages in ascending (createdAt, id) order up to a ceiling taken when a cycle
 * starts, over a table that changes between any two queries.
 */
module FairScan {
  import opened Options

  datatype Cursor = Cursor(createdAt: int, id: nat)

  predicate Less(a: Cursor, b: Cursor) {
    a.createdAt < b.createdAt || (a.createdAt == b.createdAt && a.id < b.id)
  }

  predicate AtMost(a: Cursor, b: Cursor) {
    a == b || Less(a, b)
  }

  predicate Above(after: Option<Cursor>, r: Cursor) {
    after == None || Less(after.value, r)
  }

  ghost predicate Ascending(s: seq<Cursor>) {
    forall i, j :: 0 <= i < j < |s| ==> Less(s[i], s[j])
  }

  datatype Lane = Lane(after: Option<Cursor>, through: Option<Cursor>)

  const IDLE := Lane(None, None)

  // One read: the candidate rows, in order, as each of its two queries sees them; None when the query throws.
  datatype Read = Read(ceiling: Option<seq<Cursor>>, rows: Option<seq<Cursor>>)

  ghost predicate Ordered(read: Read) {
    (read.ceiling.Some? ==> Ascending(read.ceiling.value)) && (read.rows.Some? ==> Ascending(read.rows.value))
  }

  ghost predicate AllOrdered(scans: seq<Read>) {
    forall read <- scans :: Ordered(read)
  }

  // ----- the queries -----

  // The WHERE clause of the page query.
  function Select(rows: seq<Cursor>, after: Option<Cursor>, through: Cursor): seq<Cursor> {
    if rows == [] then []
    else if Above(after, rows[0]) && AtMost(rows[0], through) then [rows[0]] + Select(rows[1..], after, through)
    else Select(rows[1..], after, through)
  }

  function Page(rows: seq<Cursor>, after: Option<Cursor>, through: Cursor, limit: nat): seq<Cursor> {
    var selected := Select(rows, after, through);
    if |selected| <= limit then selected else selected[..limit]
  }

  lemma {:induction false} Selects(rows: seq<Cursor>, after: Option<Cursor>, through: Cursor)
    requires Ascending(rows)
    ensures Ascending(Select(rows, after, through))
    ensures forall r :: r in Select(rows, after, through) <==> r in rows && Above(after, r) && AtMost(r, through)
  {
    if rows != [] {
      Selects(rows[1..], after, through);
      forall r ensures r in Select(rows, after, through) <==> r in rows && Above(after, r) && AtMost(r, through) {
        assert r in rows <==> r == rows[0] || r in rows[1..];
      }
      assert forall r <- rows[1..] :: Less(rows[0], r);
    }
  }

  // ----- one read -----

  function After(lane: Lane, page: seq<Cursor>, limit: nat): Lane
    requires lane.through.Some?
  {
    if page == [] || |page| < limit || page[|page| - 1] == lane.through.value then IDLE
        else lane.(after := Some(page[|page| - 1]))
  }

  // The lane once its ceiling is known; None when there is no ceiling to read up to.
  function Started(lane: Lane, read: Read): Option<Lane> {
    if lane.through.Some? then Some(lane)
    else if read.ceiling.None? || read.ceiling.value == [] then None
    else Some(Lane(None, Some(read.ceiling.value[|read.ceiling.value| - 1])))
  }

  // Neither query of the read throws; an empty table needs no page query.
  predicate Answered(lane: Lane, read: Read) {
    if lane.through.None? && (read.ceiling.None? || read.ceiling.value == []) then read.ceiling.Some?
        else read.rows.Some?
  }

  // The rows a read returns; a read that throws returns none.
  function Returned(lane: Lane, read: Read, limit: nat): seq<Cursor> {
    var lane1 := Started(lane, read);
    if lane1.None? || read.rows.None? || lane1.value.through.None? then []
    else Page(read.rows.value, lane1.value.after, lane1.value.through.value, limit)
  }

  function Next(lane: Lane, read: Read, limit: nat): Lane {
    var lane1 := Started(lane, read);
    if lane1.None? || lane1.value.through.None? then lane
    else if read.rows.None? then lane1.value
    else After(lane1.value, Returned(lane, read, limit), limit)
  }

  /**
   * One page: ascending, inside the open part of the cycle, with nothing skipped before its last
   * row; and when it ends the cycle nothing at or below the ceiling is left out.
   */
  lemma PageIsFair(lane: Lane, read: Read, limit: nat, r: Cursor)
    requires lane.through.Some? && read.rows.Some? && Ordered(read) && limit > 0
    ensures var page := Returned(lane, read, limit);
      var next := Next(lane, read, limit);
      && |page| <= limit && Ascending(page)
      && (r in page ==> r in read.rows.value && Above(lane.after, r) && AtMost(r, lane.through.value))
      && (next != IDLE ==>
          |page| == limit && next.through == lane.through && next.after.Some? && next.after.value in page)
      && (next != IDLE && r in page ==> AtMost(r, next.after.value))
      && (r in read.rows.value && Above(lane.after, r) && AtMost(r, lane.through.value) ==>
            r in page || (next != IDLE && Less(next.after.value, r)))
  {
    var selected := Select(read.rows.value, lane.after, lane.through.value);
    var page := Returned(lane, read, limit);
    Selects(read.rows.value, lane.after, lane.through.value);
    if r in selected && r !in page {
      var k :| 0 <= k < |selected| && selected[k] == r;
      assert page == selected[..limit];
      assert forall i :: 0 <= i < limit ==> page[i] == selected[i] && page[i] in page;
      assert Less(selected[limit - 1], r);
    }
    if page != [] {
      assert page[|page| - 1] in page;
      assert page[|page| - 1] == selected[|page| - 1];
    }
  }

  // ----- a cycle -----

  ghost function Rows(lane: Lane, scans: seq<Read>, limit: nat): seq<Cursor>
    decreases |scans|
  {
    if scans == [] then [] else Returned(lane, scans[0], limit) + Rows(Next(lane, scans[0], limit), scans[1..], limit)
  }

  ghost function End(lane: Lane, scans: seq<Read>, limit: nat): Lane
    decreases |scans|
  {
    if scans == [] then lane else End(Next(lane, scans[0], limit), scans[1..], limit)
  }

  // Every read belongs to one cycle; only the last may end it.
  ghost predicate OneCycle(lane: Lane, scans: seq<Read>, limit: nat)
    decreases |scans|
  {
    scans == []
        || (Started(lane, scans[0]).Some?
        && (|scans| == 1
        || (Next(lane, scans[0], limit) != IDLE && OneCycle(Next(lane, scans[0], limit), scans[1..], limit))))
  }

  // The row is a candidate whenever the cycle looks.
  ghost predicate Steady(r: Cursor, scans: seq<Read>) {
    forall read <- scans :: (read.ceiling.Some? ==> r in read.ceiling.value)
        && (read.rows.Some? ==> r in read.rows.value)
  }

  lemma AscendingConcat(s: seq<Cursor>, t: seq<Cursor>, middle: Cursor)
    requires Ascending(s) && Ascending(t)
    requires (forall r <- s :: AtMost(r, middle)) && (forall r <- t :: Less(middle, r))
    ensures Ascending(s + t)
  {
    forall i, j | 0 <= i < j < |s + t| ensures Less((s + t)[i], (s + t)[j]) {
      if i < |s| <= j {
        assert s[i] in s && t[j - |s|] in t;
      }
    }
  }

  lemma {:induction false} CycleAscends(lane: Lane, scans: seq<Read>, limit: nat)
    requires lane.through.Some? && OneCycle(lane, scans, limit) && AllOrdered(scans) && limit > 0
    ensures Ascending(Rows(lane, scans, limit))
    ensures forall r <- Rows(lane, scans, limit) :: Above(lane.after, r) && AtMost(r, lane.through.value)
    decreases |scans|
  {
    if scans != [] {
      assert Ordered(scans[0]);
      var next := Next(lane, scans[0], limit);
      if scans[0].rows.None? {
        CycleAscends(next, scans[1..], limit);
        return;
      }
      var page := Returned(lane, scans[0], limit);
      forall r ensures r in page ==>
          Above(lane.after, r) && AtMost(r, lane.through.value) && (next != IDLE ==> AtMost(r, next.after.value)) {
        PageIsFair(lane, scans[0], limit, r);
      }
      PageIsFair(lane, scans[0], limit, lane.through.value);
      if |scans| > 1 {
        CycleAscends(next, scans[1..], limit);
        AscendingConcat(page, Rows(next, scans[1..], limit), next.after.value);
      }
    }
  }

  lemma {:induction false} CycleReturns(lane: Lane, scans: seq<Read>, limit: nat, r: Cursor)
    requires lane.through.Some? && OneCycle(lane, scans, limit) && AllOrdered(scans) && limit > 0
    requires Steady(r, scans) && Above(lane.after, r) && AtMost(r, lane.through.value)
    requires End(lane, scans, limit) == IDLE
    ensures r in Rows(lane, scans, limit)
    decreases |scans|
  {
    if scans != [] {
      assert Ordered(scans[0]);
      var next := Next(lane, scans[0], limit);
      if scans[0].rows.None? {
        CycleReturns(next, scans[1..], limit, r);
        return;
      }
      PageIsFair(lane, scans[0], limit, r);
      if r !in Returned(lane, scans[0], limit) {
        CycleReturns(next, scans[1..], limit, r);
      }
    }
  }

  // A cycle that starts at an idle lane is one that starts with its ceiling set.
  lemma CycleFromIdle(scans: seq<Read>, limit: nat)
    requires scans != [] && OneCycle(IDLE, scans, limit)
    ensures var lane := Started(IDLE, scans[0]).value;
      OneCycle(lane, scans, limit) && Rows(IDLE, scans, limit) == Rows(lane, scans, limit)
          && End(IDLE, scans, limit) == End(lane, scans, limit)
  {
    var lane := Started(IDLE, scans[0]).value;
    assert Next(lane, scans[0], limit) == Next(IDLE, scans[0], limit);
    assert Returned(lane, scans[0], limit) == Returned(IDLE, scans[0], limit);
  }

  /** Within one cycle no row is returned twice, whatever happens to the table between the pages. */
  lemma NoRowTwice(scans: seq<Read>, limit: nat, i: nat, j: nat)
    requires scans != [] && OneCycle(IDLE, scans, limit) && AllOrdered(scans) && limit > 0
    requires i < j < |Rows(IDLE, scans, limit)|
    ensures Less(Rows(IDLE, scans, limit)[i], Rows(IDLE, scans, limit)[j])
    ensures Rows(IDLE, scans, limit)[i] != Rows(IDLE, scans, limit)[j]
  {
    CycleFromIdle(scans, limit);
    CycleAscends(Started(IDLE, scans[0]).value, scans, limit);
  }

  /** A row that waits through a whole cycle is returned by it, exactly once. */
  lemma SteadyRowsAreReturned(scans: seq<Read>, limit: nat, r: Cursor)
    requires scans != [] && OneCycle(IDLE, scans, limit) && AllOrdered(scans) && limit > 0
    requires Steady(r, scans) && End(IDLE, scans, limit) == IDLE
    ensures multiset(Rows(IDLE, scans, limit))[r] == 1
  {
    CycleFromIdle(scans, limit);
    var lane := Started(IDLE, scans[0]).value;
    assert Ordered(scans[0]);
    LastIsCeiling(scans[0].ceiling.value, r);
    CycleReturns(lane, scans, limit, r);
    CycleAscends(lane, scans, limit);
    CountsOnce(Rows(lane, scans, limit), r);
  }

  lemma LastIsCeiling(table: seq<Cursor>, r: Cursor)
    requires Ascending(table) && r in table
    ensures AtMost(r, table[|table| - 1])
  {
  }

  lemma {:induction false} CountsOnce(s: seq<Cursor>, r: Cursor)
    requires Ascending(s)
    ensures multiset(s)[r] == if r in s then 1 else 0
  {
    if s != [] {
      var last := |s| - 1;
      assert s == s[..last] + [s[last]];
      CountsOnce(s[..last], r);
      assert s[last] !in s[..last];
      assert r in s <==> r in s[..last] || r == s[last];
    }
  }

  // ----- any run of reads -----

  predicate Ends(lane: Lane, read: Read, limit: nat) {
    Started(lane, read).Some? && read.rows.Some? && Next(lane, read, limit) == IDLE
  }

  // How many cycles a run of reads completes.
  ghost function Cycles(lane: Lane, scans: seq<Read>, limit: nat): nat
    decreases |scans|
  {
    if scans == [] then 0
    else (if Ends(lane, scans[0], limit) then 1 else 0) + Cycles(Next(lane, scans[0], limit), scans[1..], limit)
  }

  // The running cycle has not passed the row yet, or the next one has not begun.
  predicate StillAhead(lane: Lane, r: Cursor) {
    lane.through == None || (Above(lane.after, r) && AtMost(r, lane.through.value))
  }

  lemma {:induction false} ReturnedWithinOneCycle(lane: Lane, scans: seq<Read>, limit: nat, r: Cursor)
    requires AllOrdered(scans) && limit > 0 && Steady(r, scans) && StillAhead(lane, r)
    requires Cycles(lane, scans, limit) >= 1
    ensures r in Rows(lane, scans, limit)
    decreases |scans|
  {
    if scans != [] {
      var read := scans[0];
      assert Ordered(read) && read in scans;
      var lane1 := Started(lane, read);
      if lane.through == None && lane1.Some? {
        LastIsCeiling(read.ceiling.value, r);
      }
      if lane1.Some? && read.rows.Some? {
        PageIsFair(lane1.value, read, limit, r);
        assert Returned(lane1.value, read, limit) == Returned(lane, read, limit);
      }
      if r !in Returned(lane, read, limit) {
        ReturnedWithinOneCycle(Next(lane, read, limit), scans[1..], limit, r);
      }
    }
  }

  /**
   * A steadily waiting row is returned by the time two cycles have ended, from any lane and
   * whatever else arrives or leaves.
   */
  lemma {:induction false} NoStarvation(lane: Lane, scans: seq<Read>, limit: nat, r: Cursor)
    requires AllOrdered(scans) && limit > 0 && Steady(r, scans)
    requires Cycles(lane, scans, limit) >= 2
    ensures r in Rows(lane, scans, limit)
    decreases |scans|
  {
    if scans != [] {
      var next := Next(lane, scans[0], limit);
      if Ends(lane, scans[0], limit) {
        ReturnedWithinOneCycle(next, scans[1..], limit, r);
      } else {
        NoStarvation(next, scans[1..], limit, r);
      }
    }
  }

  // ----- how long a cycle lasts -----

  ghost function Successes(scans: seq<Read>): nat {
    if scans == [] then 0 else (if scans[0].rows.Some? then 1 else 0) + Successes(scans[1..])
  }

  // `rows` covers what the cycle can see at or below its ceiling.
  ghost predicate Covers(rows: set<Cursor>, scans: seq<Read>, through: Cursor) {
    forall read <- scans :: read.rows.Some? ==> forall r <- read.rows.value :: AtMost(r, through) ==> r in rows
  }

  lemma OneMore(k: nat, limit: nat)
    ensures (1 + k) * limit == limit + k * limit
  {
  }

  lemma {:induction false} UnfinishedPagesAreFull(lane: Lane, scans: seq<Read>, limit: nat)
    requires lane.through.Some? && OneCycle(lane, scans, limit) && AllOrdered(scans) && limit > 0
    requires End(lane, scans, limit) != IDLE
    ensures |Rows(lane, scans, limit)| == Successes(scans) * limit
    decreases |scans|
  {
    if scans != [] {
      assert Ordered(scans[0]);
      var next := Next(lane, scans[0], limit);
      assert |scans| == 1 ==> scans[1..] == [];
      if scans[0].rows.Some? {
        PageIsFair(lane, scans[0], limit, lane.through.value);
        OneMore(Successes(scans[1..]), limit);
      }
      UnfinishedPagesAreFull(next, scans[1..], limit);
    }
  }

  lemma {:induction false} RowsAreCovered(lane: Lane, scans: seq<Read>, limit: nat, rows: set<Cursor>, r: Cursor)
    requires lane.through.Some? && OneCycle(lane, scans, limit) && AllOrdered(scans) && limit > 0
    requires Covers(rows, scans, lane.through.value) && r in Rows(lane, scans, limit)
    ensures r in rows
    decreases |scans|
  {
    if scans != [] {
      assert Ordered(scans[0]);
      var next := Next(lane, scans[0], limit);
      if scans[0].rows.Some? {
        PageIsFair(lane, scans[0], limit, r);
      }
      if r !in Returned(lane, scans[0], limit) {
        RowsAreCovered(next, scans[1..], limit, rows, r);
      }
    }
  }

  lemma {:induction false} DistinctFit(s: seq<Cursor>, rows: set<Cursor>)
    requires Ascending(s) && forall r <- s :: r in rows
    ensures |s| <= |rows|
  {
    if s != [] {
      var last := |s| - 1;
      DistinctFit(s[..last], rows - {s[last]});
    }
  }

  /**
   * While a cycle is unfinished, its successful pages number at most n / limit, for n rows at or
   * below the ceiling; so it ends within n / limit + 1 pages however many rows arrive above it.
   */
  lemma CyclesAreShort(scans: seq<Read>, limit: nat, rows: set<Cursor>)
    requires scans != [] && OneCycle(IDLE, scans, limit) && AllOrdered(scans) && limit > 0
    requires Covers(rows, scans, Started(IDLE, scans[0]).value.through.value)
    requires End(IDLE, scans, limit) != IDLE
    ensures Successes(scans) <= |rows| / limit
  {
    CycleFromIdle(scans, limit);
    var lane := Started(IDLE, scans[0]).value;
    CycleAscends(lane, scans, limit);
    UnfinishedPagesAreFull(lane, scans, limit);
    forall r <- Rows(lane, scans, limit) ensures r in rows {
      RowsAreCovered(lane, scans, limit, rows, r);
    }
    DistinctFit(Rows(lane, scans, limit), rows);
    DividesDown(Successes(scans), limit, |rows|);
  }

  lemma Monotone(a: nat, b: nat, c: nat)
    requires a <= b
    ensures a * c <= b * c
  {
  }

  lemma DividesDown(k: nat, limit: nat, n: nat)
    requires limit > 0 && k * limit <= n
    ensures k <= n / limit
  {
    if k > n / limit {
      Monotone(n / limit + 1, k, limit);
    }
  }

  // ----- the lane object -----

  class FairScanLane {
    var after: Option<Cursor>
    var through: Option<Cursor>

    function View(): Lane
      reads this
    {
      Lane(after, through)
    }

    constructor ()
      ensures View() == IDLE
    {
      after, through := None, None;
    }

    method Reset()
      modifies this
      ensures View() == IDLE
    {
      after := None;
      through := None;
    }

    method ReadPage(read: Read, limit: nat) returns (page: Option<seq<Cursor>>)
      modifies this
      ensures View() == Next(old(View()), read, limit)
      ensures page.Some? ==> page.value == Returned(old(View()), read, limit)
      ensures page.Some? <==> Answered(old(View()), read)
      // An idle lane asks for the ceiling first, and an empty table ends the read there.
      ensures old(View()) == IDLE && read.ceiling == None ==> page == None && View() == IDLE
      ensures old(View()) == IDLE && read.ceiling == Some([]) ==> page == Some([]) && View() == IDLE
      ensures (old(through).Some? || (read.ceiling.Some? && read.ceiling.value != [])) ==>
                (page == None <==> read.rows == None)
    {
      if through.None? {
        if read.ceiling.None? {
          return None;
        }
        if read.ceiling.value == [] {
          return Some([]);
        }
        through := Some(read.ceiling.value[|read.ceiling.value| - 1]);
        after := None;
      }
      if read.rows.None? {
        return None;
      }
      var rows := Page(read.rows.value, after, through.value, limit);
      if |rows| == 0 || |rows| < limit || rows[|rows| - 1] == through.value {
        Reset();
      } else {
        after := Some(rows[|rows| - 1]);
      }
      return Some(rows);
    }
  }
}
