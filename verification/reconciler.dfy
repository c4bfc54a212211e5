/**
 * One reconciliation scan: due retries and satisfied dependencies are woken, the pending page is
 * read, and every candidate revision is offered for dispatch once; plus the gate for whole scans.
 */
module Reconciler {
  import opened Options
  import opened WorkItems
  import opened FairScan

  // The row a wake statement finds when it runs; others may have moved it since it was listed.
  datatype Found = Row(item: Item) | Missing | Fails

  datatype Listed = Listed(item: Item, handled: bool, found: Found)

  datatype Key = Key(id: nat, revision: nat)

  datatype Request = Request(key: Key, attempt: AttemptId, notBefore: Option<int>)

  datatype Offer = Admitted | Declined | OfferFails

  datatype Counts = Counts(scanned: nat, awakened: nat, dispatched: nat, failures: nat)

  function KeyOf(i: Item): Key {
    Key(i.id, i.revision)
  }

  function DispatchRequest(i: Item): Request {
    Request(KeyOf(i), AttemptOf(i.id, i.revision), i.notBefore)
  }

  // ----- waking -----

  // Each listed item has its wake statement, except a waiting one whose handler is still missing.
  function WakeStatement(l: Listed, due: bool, now: int): Option<Mutation> {
    if due then Some(WakeDueRetry(l.item.revision, now))
    else if l.handled then Some(WakeDependency(l.item.revision))
    else None
  }

  // The row a listed item contributes, if its wake is applied.
  function WokenRow(l: Listed, due: bool, now: int): Option<Item> {
    var m := WakeStatement(l, due, now);
    if m.None? || !l.found.Row? || !Matches(l.found.item, m.value) then None
    else Some(Written(l.found.item, m.value))
  }

  function WokenRows(ls: seq<Listed>, due: bool, now: int): seq<Item> {
    if ls == [] then []
    else
      var init := WokenRows(ls[..|ls| - 1], due, now);
      var last := WokenRow(ls[|ls| - 1], due, now);
      if last.Some? then init + [last.value] else init
  }

  predicate Readable(ls: seq<Listed>, due: bool, now: int) {
    forall l <- ls :: WakeStatement(l, due, now).Some? ==> !l.found.Fails?
  }

  // The row found is still the listed revision, nobody stopped it, and what it waits for is there.
  predicate MayWake(l: Listed, due: bool, now: int) {
    && l.found.Row? && l.found.item.revision == l.item.revision
    && l.found.item.cancelAt == None && l.found.item.supersededBy == None
    && if due then
         l.found.item.state == RETRY_WAIT && l.found.item.notBefore.Some? && l.found.item.notBefore.value <= now
       else l.found.item.state == WAITING_DEPENDENCY && l.handled
  }

  // i is the row found, one revision later.
  predicate WokenFrom(i: Item, l: Listed) {
    l.found.Row? && i.id == l.found.item.id && i.revision == l.found.item.revision + 1 && i.state == PENDING
        && i.notBefore == l.found.item.notBefore
  }

  lemma WokenRowIff(l: Listed, due: bool, now: int)
    ensures WokenRow(l, due, now).Some? <==> MayWake(l, due, now)
    ensures MayWake(l, due, now) ==>
        WokenFrom(WokenRow(l, due, now).value, l) && !Requested(WokenRow(l, due, now).value)
  {
  }

  /** A woken row was due or handled and not stopped, and it is pending at the next revision: none is woken early. */
  lemma {:induction false} WokenRowsAreNewRevisions(ls: seq<Listed>, due: bool, now: int, i: Item)
    requires i in WokenRows(ls, due, now)
    ensures !Requested(i) && exists l :: l in ls && MayWake(l, due, now) && WokenFrom(i, l)
  {
    var init, last := ls[..|ls| - 1], ls[|ls| - 1];
    WokenRowIff(last, due, now);
    if i in WokenRows(init, due, now) {
      WokenRowsAreNewRevisions(init, due, now, i);
      var l :| l in init && MayWake(l, due, now) && WokenFrom(i, l);
      assert l in ls;
    } else {
      assert last in ls;
    }
  }

  /** And none is forgotten: whatever is listed, still there, not stopped, and due or handled is woken. */
  lemma {:induction false} DueRowsAreWoken(ls: seq<Listed>, due: bool, now: int, l: Listed)
    requires l in ls && MayWake(l, due, now)
    ensures exists i :: i in WokenRows(ls, due, now) && WokenFrom(i, l)
  {
    var init, last := ls[..|ls| - 1], ls[|ls| - 1];
    if l in init {
      DueRowsAreWoken(init, due, now, l);
      var i :| i in WokenRows(init, due, now) && WokenFrom(i, l);
      assert i in WokenRows(ls, due, now);
    } else {
      assert l == last;
      WokenRowIff(last, due, now);
      assert WokenRow(last, due, now).value in WokenRows(ls, due, now);
    }
  }

  method Wake(ls: seq<Listed>, due: bool, now: int) returns (awakened: Option<seq<Item>>)
    ensures awakened.Some? <==> Readable(ls, due, now)
    ensures awakened.Some? ==> awakened.value == WokenRows(ls, due, now)
  {
    var rows: seq<Item> := [];
    var n := 0;
    while n < |ls|
      invariant 0 <= n <= |ls|
      invariant rows == WokenRows(ls[..n], due, now) && Readable(ls[..n], due, now)
    {
      var l := ls[n];
      assert ls[..n + 1][..n] == ls[..n];
      var m := WakeStatement(l, due, now);
      if m.Some? {
        if l.found.Fails? {
          return None;
        }
        if l.found.Row? && Matches(l.found.item, m.value) {
          var item := Written(l.found.item, m.value);
          if item.state == PENDING {
            rows := rows + [item];
          }
        }
      }
      n := n + 1;
    }
    assert ls[..|ls|] == ls;
    return Some(rows);
  }

  // ----- candidates -----

  // The keyed map of the scan: keys in order of first insertion, values of the last.
  datatype Candidates = Candidates(order: seq<Key>, values: map<Key, Item>)

  ghost predicate Distinct(ks: seq<Key>) {
    forall i, j :: 0 <= i < j < |ks| ==> ks[i] != ks[j]
  }

  ghost predicate IsCandidate(items: seq<Item>, k: Key) {
    exists i :: i in items && i.state == PENDING && KeyOf(i) == k
  }

  ghost predicate IsRequested(requests: seq<Request>, k: Key) {
    exists q :: q in requests && q.key == k
  }

  // The last pending item of a key.
  function LastOf(items: seq<Item>, k: Key): Option<Item> {
    if items == [] then None
    else if items[|items| - 1].state == PENDING && KeyOf(items[|items| - 1]) == k then Some(items[|items| - 1])
    else LastOf(items[..|items| - 1], k)
  }

  lemma {:induction false} LastOfIsIn(items: seq<Item>, k: Key)
    ensures LastOf(items, k).Some? <==> IsCandidate(items, k)
    ensures LastOf(items, k).Some? ==> LastOf(items, k).value in items && KeyOf(LastOf(items, k).value) == k
  {
    if items != [] {
      var init, last := items[..|items| - 1], items[|items| - 1];
      assert items == init + [last];
      LastOfIsIn(init, k);
    }
  }

  method Collect(items: seq<Item>) returns (c: Candidates)
    ensures Distinct(c.order)
    ensures forall k :: k in c.order <==> k in c.values
    ensures forall k :: k in c.values <==> LastOf(items, k).Some?
    ensures forall k <- c.values :: c.values[k] == LastOf(items, k).value && KeyOf(c.values[k]) == k
  {
    var order: seq<Key>, values: map<Key, Item> := [], map[];
    var n := 0;
    while n < |items|
      invariant 0 <= n <= |items|
      invariant Distinct(order)
      invariant forall k :: k in order <==> k in values
      invariant forall k :: k in values <==> LastOf(items[..n], k).Some?
      invariant forall k <- values :: values[k] == LastOf(items[..n], k).value && KeyOf(values[k]) == k
    {
      var item := items[n];
      assert items[..n + 1][..n] == items[..n];
      assert items[..n + 1][n] == item;
      if item.state == PENDING {
        if KeyOf(item) !in values {
          order := order + [KeyOf(item)];
        }
        values := values[KeyOf(item) := item];
      }
      n := n + 1;
    }
    assert items[..|items|] == items;
    return Candidates(order, values);
  }

  // ----- the scan -----

  // rows and offers are looked up when the scan gets there; limit is the batch size.
  datatype Script = Script(
    due: Option<seq<Listed>>, waiting: Read, waitingRow: Cursor -> Listed, pending: Read, pendingRow: Cursor -> Item,
    offer: Key -> Offer, now: int, limit: nat)

  datatype ScanResult = Scanned(counts: Counts, requests: seq<Request>) | ScanFailed

  function Mapped<T>(page: seq<Cursor>, row: Cursor -> T): seq<T> {
    seq(|page|, i requires 0 <= i < |page| => row(page[i]))
  }

  ghost function CountOffers(requests: seq<Request>, offer: Key -> Offer, o: Offer): nat {
    if requests == [] then 0
    else CountOffers(requests[..|requests| - 1], offer, o) + if offer(requests[|requests| - 1].key) == o then 1 else 0
  }

  lemma {:induction false} OffersAddUp(requests: seq<Request>, offer: Key -> Offer)
    ensures CountOffers(requests, offer, Admitted) + CountOffers(requests, offer, Declined) + CountOffers(requests,
        offer, OfferFails) == |requests|
  {
    if requests != [] {
      OffersAddUp(requests[..|requests| - 1], offer);
    }
  }

  // Everything a scan looks at for dispatch, in order.
  function Seen(s: Script, due: seq<Listed>, waiting: seq<Cursor>, pending: seq<Cursor>): seq<Item> {
    WokenRows(due, true, s.now) + WokenRows(Mapped(waiting, s.waitingRow), false, s.now) + Mapped(pending, s.pendingRow)
  }

  /**
   * A scan requests each candidate revision exactly once: no key twice, and the keys are exactly
   * those of the woken rows and of the pending page. Both lanes advance by their page, and every
   * request is counted as dispatched, declined or failed.
   */
  method RunScan(waitingLane: FairScanLane, projectionLane: FairScanLane, s: Script) returns (r: ScanResult)
    requires waitingLane != projectionLane
    modifies waitingLane, projectionLane
    ensures r.Scanned? <==>
      && s.due.Some? && Readable(s.due.value, true, s.now) && Answered(old(waitingLane.View()), s.waiting)
      && Readable(Mapped(Returned(old(waitingLane.View()), s.waiting, s.limit), s.waitingRow), false, s.now)
      && Answered(old(projectionLane.View()), s.pending)
    ensures r.Scanned? ==>
      var waiting := Returned(old(waitingLane.View()), s.waiting, s.limit);
      var pending := Returned(old(projectionLane.View()), s.pending, s.limit);
      && s.due.Some?
      && waitingLane.View() == Next(old(waitingLane.View()), s.waiting, s.limit)
      && projectionLane.View() == Next(old(projectionLane.View()), s.pending, s.limit)
      && (forall i, j :: 0 <= i < j < |r.requests| ==> r.requests[i].key != r.requests[j].key)
      && (forall k :: IsRequested(r.requests, k) <==> IsCandidate(Seen(s, s.due.value, waiting, pending), k))
      && (forall q <- r.requests :: q.attempt == AttemptOf(q.key.id, q.key.revision)
            && LastOf(Seen(s, s.due.value, waiting, pending), q.key).Some?
            && q.notBefore == LastOf(Seen(s, s.due.value, waiting, pending), q.key).value.notBefore)
      && r.counts == Counts(|s.due.value| + |waiting| + |pending|,
                            |WokenRows(s.due.value, true, s.now)| + |WokenRows(Mapped(waiting, s.waitingRow), false,
                                s.now)|,
                            CountOffers(r.requests, s.offer, Admitted), CountOffers(r.requests, s.offer, OfferFails))
      && r.counts.dispatched + CountOffers(r.requests, s.offer, Declined) + r.counts.failures == |r.requests|
  {
    if s.due.None? {
      return ScanFailed;
    }
    var dueRows := Wake(s.due.value, true, s.now);
    if dueRows.None? {
      return ScanFailed;
    }
    var waiting := waitingLane.ReadPage(s.waiting, s.limit);
    if waiting.None? {
      return ScanFailed;
    }
    var dependencyRows := Wake(Mapped(waiting.value, s.waitingRow), false, s.now);
    if dependencyRows.None? {
      return ScanFailed;
    }
    var pending := projectionLane.ReadPage(s.pending, s.limit);
    if pending.None? {
      return ScanFailed;
    }
    ghost var seen := Seen(s, s.due.value, waiting.value, pending.value);
    var c := Collect(dueRows.value + dependencyRows.value + Mapped(pending.value, s.pendingRow));
    var requests, dispatched, failures := Offers(c, s.offer);
    OffersAddUp(requests, s.offer);
    forall k ensures IsRequested(requests, k) <==> IsCandidate(seen, k) {
      LastOfIsIn(seen, k);
      RequestsHaveKeys(c.order, requests, k);
    }
    forall q | q in requests ensures q.attempt == AttemptOf(q.key.id, q.key.revision) && LastOf(seen, q.key).Some?
        && q.notBefore == LastOf(seen, q.key).value.notBefore {
      LastOfIsIn(seen, q.key);
    }
    return Scanned(
      Counts(|s.due.value| + |waiting.value| + |pending.value|, |dueRows.value| + |dependencyRows.value|, dispatched,
          failures), requests);
  }

  lemma RequestsHaveKeys(order: seq<Key>, requests: seq<Request>, k: Key)
    requires |requests| == |order| && forall i :: 0 <= i < |order| ==> requests[i].key == order[i]
    ensures k in order <==> IsRequested(requests, k)
  {
    if k in order {
      var i :| 0 <= i < |order| && order[i] == k;
      assert requests[i] in requests;
    }
  }

  // One offer per candidate; a failing offer is counted and does not stop the loop.
  method Offers(c: Candidates, offer: Key -> Offer) returns (requests: seq<Request>, dispatched: nat, failures: nat)
    requires forall k <- c.order :: k in c.values && KeyOf(c.values[k]) == k
    ensures |requests| == |c.order|
    ensures forall i :: 0 <= i < |requests| ==>
        requests[i].key == c.order[i] && requests[i] == DispatchRequest(c.values[c.order[i]])
    ensures dispatched == CountOffers(requests, offer, Admitted) && failures == CountOffers(requests, offer, OfferFails)
  {
    requests, dispatched, failures := [], 0, 0;
    var n := 0;
    while n < |c.order|
      invariant 0 <= n <= |c.order| && |requests| == n
      invariant forall i :: 0 <= i < n ==>
          requests[i].key == c.order[i] && requests[i] == DispatchRequest(c.values[c.order[i]])
      invariant dispatched == CountOffers(requests, offer, Admitted)
          && failures == CountOffers(requests, offer, OfferFails)
    {
      var request := DispatchRequest(c.values[c.order[n]]);
      ghost var before := requests;
      requests := requests + [request];
      assert requests[..n] == before;
      var answer := offer(request.key);
      if answer == Admitted {
        dispatched := dispatched + 1;
      } else if answer == OfferFails {
        failures := failures + 1;
      }
      n := n + 1;
    }
  }

  // ----- the single-scan gate -----

  class ScanGate {
    var scanPromise: Option<nat>
    var nextScan: nat
    // The scans whose runScan has started and not ended.
    ghost var running: set<nat>

    ghost predicate Valid()
      reads this
    {
      && (forall p <- running :: scanPromise == Some(p))
      && (scanPromise.Some? ==> scanPromise.value < nextScan)
    }

    constructor ()
      ensures Valid() && running == {} && scanPromise == None
    {
      scanPromise, nextScan, running := None, 0, {};
    }

    // Every caller gets the current scan, or starts one more; that is then the only one.
    method Scan() returns (p: nat)
      requires Valid()
      modifies this
      ensures Valid() && scanPromise == Some(p) && |running| <= 1
      ensures old(scanPromise).Some? ==> p == old(scanPromise).value && running == old(running)
      ensures old(scanPromise).None? ==> running == old(running) + {p} && p !in old(running)
    {
      if scanPromise.Some? {
        Subset(running, scanPromise.value);
        return scanPromise.value;
      }
      p := nextScan;
      nextScan := nextScan + 1;
      scanPromise := Some(p);
      running := running + {p};
      Subset(running, p);
    }

    // runScan ends; callers that come now still join its promise.
    ghost method ScanEnds(p: nat)
      requires Valid() && p in running
      modifies `running
      ensures Valid() && running == {} && scanPromise == Some(p)
    {
      running := running - {p};
    }

    // The finally callback of an ended scan opens the gate, unless it is no longer the current one.
    method Settle(p: nat)
      requires Valid() && p !in running
      modifies `scanPromise
      ensures Valid() && scanPromise == if old(scanPromise) == Some(p) then None else old(scanPromise)
    {
      if scanPromise == Some(p) {
        scanPromise := None;
      }
    }

    lemma Subset(s: set<nat>, p: nat)
      requires forall q <- s :: q == p
      ensures |s| <= 1
    {
      if s != {} {
        assert s == {p};
      }
    }
  }
}
