/**
 * The sealed BootstrapState document and its two-file store: previous first, then current, each
 * by an atomic replace that a failure or crash may precede or follow.
 */
module BootstrapStore {
  import opened Options

  // ----- codec -----

  // shaped says that the remaining fields satisfy the state schema.
  datatype Body = Body(revision: int, content: nat, shaped: bool)

  const DOMAIN := "heptalogos.bootstrap-state/v1"

  // The domain-separated digest is injective; Foreign stands for any other 256-bit value.
  datatype Digest = DigestOf(domain: string, body: Body) | Foreign(hex: nat)

  // What a file holds, read as JSON. version is the state's schemaVersion when it is a number.
  datatype Document =
    | NotJson(bytes: nat)
    | Json(version: Option<int>, body: Body, domain: string, digest: Digest)

  datatype ParseError = InvalidJson | UnsupportedSchema | InvalidSchema | DigestMismatch

  datatype Parsed = Valid(body: Body) | Invalid(error: ParseError)

  function Seal(b: Body): Document {
    Json(Some(1), b, DOMAIN, DigestOf(DOMAIN, b))
  }

  predicate InSchema(b: Body) {
    b.shaped && b.revision >= 1
  }

  function Parse(d: Document): Parsed {
    match d
    case NotJson(_) => Invalid(InvalidJson)
    case Json(version, body, domain, digest) =>
      if version.Some? && version.value > 1 then Invalid(UnsupportedSchema)
      else if version != Some(1) || !InSchema(body) then Invalid(InvalidSchema)
      else if domain != DOMAIN || digest != DigestOf(DOMAIN, body) then Invalid(DigestMismatch)
      else Valid(body)
  }

  /** A document parses to a body exactly if it is that body's seal and the body is in the schema. */
  lemma SealRoundTrip(b: Body, d: Document)
    ensures Parse(d) == Valid(b) <==> d == Seal(b) && InSchema(b)
  {
  }

  // ----- loading -----

  datatype Files = Files(current: Option<Document>, previous: Option<Document>)

  const NO_FILES := Files(None, None)

  datatype Candidate = MISSING | INVALID | VALID(body: Body)

  datatype Loaded = EMPTY | CURRENT(body: Body) | RECOVERED_PREVIOUS(body: Body) | CORRUPT

  function ReadCandidate(d: Option<Document>): Candidate {
    if d.None? then MISSING else if Parse(d.value).Valid? then VALID(Parse(d.value).body) else INVALID
  }

  function Load(f: Files): Loaded {
    var current, previous := ReadCandidate(f.current), ReadCandidate(f.previous);
    if current.VALID? then CURRENT(current.body)
    else if previous.VALID? then RECOVERED_PREVIOUS(previous.body)
    else if current.MISSING? && previous.MISSING? then EMPTY
    else CORRUPT
  }

  // The file holds the seal of b, and b is in the schema.
  predicate Holds(d: Option<Document>, b: Body) {
    d == Some(Seal(b)) && InSchema(b)
  }

  ghost predicate HoldsNone(d: Option<Document>) {
    forall b: Body :: !Holds(d, b)
  }

  /**
   * What a load finds, told by the files: the sealed current state; else the sealed previous one;
   * else nothing at all if both files are missing; and corruption in every other case.
   */
  lemma LoadsIff(f: Files)
    ensures forall b: Body :: Load(f) == CURRENT(b) <==> Holds(f.current, b)
    ensures forall b: Body :: Load(f) == RECOVERED_PREVIOUS(b) <==> HoldsNone(f.current) && Holds(f.previous, b)
    ensures Load(f) == EMPTY <==> f.current == None && f.previous == None
    ensures Load(f) == CORRUPT <==>
              HoldsNone(f.current) && HoldsNone(f.previous) && (f.current.Some? || f.previous.Some?)
  {
    CandidateHolds(f.current);
    CandidateHolds(f.previous);
  }

  lemma CandidateHolds(d: Option<Document>)
    ensures forall b: Body :: ReadCandidate(d) == VALID(b) <==> Holds(d, b)
    ensures ReadCandidate(d).VALID? || HoldsNone(d)
    ensures ReadCandidate(d).MISSING? <==> d == None
  {
    forall b: Body
      ensures ReadCandidate(d) == VALID(b) <==> Holds(d, b)
    {
      if d.Some? {
        SealRoundTrip(b, d.value);
      }
    }
    if ReadCandidate(d).VALID? {
      assert Holds(d, ReadCandidate(d).body);
    }
  }

  // ----- one commit -----

  // An atomic replace either happens or not, and the caller goes on only if it happened and was synced.
  datatype Replace = Done | StopsBefore | StopsAfter

  // readable, prepared and verified: the load, the mkdir and the final read do not throw.
  datatype Script = Script(candidate: Body, readable: bool, prepared: bool, previous: Replace, current: Replace,
      verified: bool)

  predicate MayWrite(f: Files, b: Body) {
    match Load(f)
    case EMPTY => b.revision == 1
    case CURRENT(body) => b.revision == body.revision + 1
    case _ => false
  }

  predicate Admitted(f: Files, s: Script) {
    InSchema(s.candidate) && s.readable && MayWrite(f, s.candidate) && s.prepared
  }

  function Replaced(d: Option<Document>, text: Document, r: Replace): Option<Document> {
    if r == StopsBefore then d else Some(text)
  }

  // The files after a commit that ran as far as the script lets it.
  function After(f: Files, s: Script): Files {
    if !Admitted(f, s) then f
    else
      var f1 := if Load(f).CURRENT? then f.(previous := Replaced(f.previous, Seal(Load(f).body), s.previous)) else f;
      if Load(f).CURRENT? && s.previous != Done then f1
      else f1.(current := Replaced(f.current, Seal(s.candidate), s.current))
  }

  ghost function Run(f: Files, ss: seq<Script>): Files {
    if ss == [] then f else After(Run(f, ss[..|ss| - 1]), ss[|ss| - 1])
  }

  // The bodies that became the current revision, in order.
  ghost function Revisions(f: Files, ss: seq<Script>): seq<Body> {
    if ss == [] then []
    else
      var f1 := Run(f, ss[..|ss| - 1]);
      Revisions(f, ss[..|ss| - 1]) + if After(f1, ss[|ss| - 1]).current != f1.current then [ss[|ss| - 1].candidate]
          else []
  }

  // ----- theorems -----

  /** Wherever a commit stops, the next load finds the old revision or the new one as current. */
  lemma StoppedCommitsLeaveOldOrNew(f: Files, s: Script)
    requires Load(f).EMPTY? || Load(f).CURRENT?
    ensures Load(After(f, s)) == Load(f) || (Load(After(f, s)) == CURRENT(s.candidate) && MayWrite(f, s.candidate))
  {
  }

  // The first revision of an empty store, or the successor of the one in the current file.
  ghost predicate Follows(f: Files, b: Body) {
    || (f == NO_FILES && b.revision == 1)
    || exists before: Body :: Holds(f.current, before) && b.revision == before.revision + 1
  }

  // Every replace of the commit happens and is synced, and nothing it does throws.
  predicate Smooth(s: Script) {
    s.readable && s.prepared && s.previous == Done && s.current == Done && s.verified
  }

  /**
   * A commit that nothing stops writes exactly if the candidate is in the schema and follows the
   * current revision; it then leaves the candidate sealed as current, and the revision it followed
   * as previous.
   */
  lemma SmoothCommitsWriteIff(f: Files, s: Script)
    requires Smooth(s)
    ensures Admitted(f, s) <==> InSchema(s.candidate) && Follows(f, s.candidate)
    ensures Admitted(f, s) ==> Holds(After(f, s).current, s.candidate)
    ensures Admitted(f, s) ==>
        After(f, s).previous == if f == NO_FILES then None else f.current
    ensures !Admitted(f, s) ==> After(f, s) == f
  {
    LoadsIff(f);
    if Load(f).CURRENT? {
      assert Holds(f.current, Load(f).body);
    }
  }

  predicate PreviousIsNear(f: Files, h: seq<Body>)
    requires |h| > 0
  {
    if |h| == 1 then f.previous == None || f.previous == Some(Seal(h[0]))
    else f.previous == Some(Seal(h[|h| - 1])) || f.previous == Some(Seal(h[|h| - 2]))
  }

  // The last of the consecutive revisions h is current, and the previous file holds it or its predecessor.
  ghost predicate Consecutive(f: Files, h: seq<Body>) {
    && (h == [] ==> f == NO_FILES)
    && (h != [] ==> f.current == Some(Seal(h[|h| - 1])) && Load(f) == CURRENT(h[|h| - 1]) && PreviousIsNear(f, h))
    && (forall i :: 0 <= i < |h| ==> h[i].revision == i + 1 && InSchema(h[i]))
  }

  lemma ConsecutiveStep(f: Files, h: seq<Body>, s: Script)
    requires Consecutive(f, h)
    ensures Consecutive(After(f, s), h + if After(f, s).current != f.current then [s.candidate] else [])
  {
    if After(f, s).current != f.current {
      assert MayWrite(f, s.candidate) && s.candidate.revision == |h| + 1;
      assert (h + [s.candidate])[..|h|] == h;
    } else {
      assert h + [] == h;
    }
  }

  /**
   * Over any run of commits from an empty directory, whatever each one stops at: current revisions
   * are 1, 2, 3 without a gap, the last one loads, and the previous file holds it or its predecessor.
   */
  lemma {:induction false} RevisionsAreConsecutive(ss: seq<Script>)
    ensures Consecutive(Run(NO_FILES, ss), Revisions(NO_FILES, ss))
  {
    if ss != [] {
      RevisionsAreConsecutive(ss[..|ss| - 1]);
      ConsecutiveStep(Run(NO_FILES, ss[..|ss| - 1]), Revisions(NO_FILES, ss[..|ss| - 1]), ss[|ss| - 1]);
    }
  }

  /** A directory whose current revision is damaged or missing is never written to again. */
  lemma {:induction false} DamagedStateIsKept(f: Files, ss: seq<Script>)
    requires Load(f).RECOVERED_PREVIOUS? || Load(f).CORRUPT?
    ensures Run(f, ss) == f
  {
    if ss != [] {
      DamagedStateIsKept(f, ss[..|ss| - 1]);
    }
  }

  // ----- the store object -----

  datatype CommitError =
    | InvalidCandidate(error: ParseError) | CorruptState | CurrentAuthorityRequired | RevisionConflict | Stopped
    | VerificationFailed

  datatype CommitResult = Committed(body: Body) | Refused(error: CommitError)

  class BootstrapStateStore {
    var current: Option<Document>
    var previous: Option<Document>

    function View(): Files
      reads this
    {
      Files(current, previous)
    }

    constructor (files: Files)
      ensures View() == files
    {
      current, previous := files.current, files.previous;
    }

    method WritePrevious(text: Document, r: Replace) returns (ok: bool)
      modifies `previous
      ensures previous == Replaced(old(previous), text, r) && (ok <==> r == Done)
    {
      if r != StopsBefore {
        previous := Some(text);
      }
      return r == Done;
    }

    method WriteCurrent(text: Document, r: Replace) returns (ok: bool)
      modifies `current
      ensures current == Replaced(old(current), text, r) && (ok <==> r == Done)
    {
      if r != StopsBefore {
        current := Some(text);
      }
      return r == Done;
    }

    method LoadState() returns (r: Loaded)
      ensures r == Load(View())
    {
      var candidate := ReadCandidate(current);
      if candidate.VALID? {
        return CURRENT(candidate.body);
      }
      var fallback := ReadCandidate(previous);
      if fallback.VALID? {
        return RECOVERED_PREVIOUS(fallback.body);
      }
      return if candidate.MISSING? && fallback.MISSING? then EMPTY else CORRUPT;
    }

    method Commit(s: Script) returns (r: CommitResult)
      modifies this
      ensures View() == After(old(View()), s)
      // Success proves the reload of exactly the candidate, and everything else is refused by name.
      ensures r.Committed? ==>
          r.body == s.candidate && Load(View()) == CURRENT(s.candidate) && MayWrite(old(View()), s.candidate)
      ensures r.Committed? <==>
          Admitted(old(View()), s) && s.current == Done && s.verified
          && (Load(old(View())).CURRENT? ==> s.previous == Done)
      ensures r == Refused(CurrentAuthorityRequired) <==>
          InSchema(s.candidate) && s.readable && Load(old(View())).RECOVERED_PREVIOUS?
      ensures r == Refused(CorruptState) <==> InSchema(s.candidate) && s.readable && Load(old(View())).CORRUPT?
      ensures r == Refused(RevisionConflict) <==>
          && InSchema(s.candidate) && s.readable && (Load(old(View())).CURRENT? || Load(old(View())).EMPTY?)
          && !Follows(old(View()), s.candidate)
      ensures r == Refused(RevisionConflict) ==> View() == old(View())
      ensures (exists e :: r == Refused(InvalidCandidate(e))) <==> !InSchema(s.candidate)
      // With a single writer the reload never disagrees.
      ensures r != Refused(VerificationFailed)
    {
      LoadsIff(View());
      if Load(View()).CURRENT? {
        assert Holds(current, Load(View()).body);
      }
      var validated := Parse(Seal(s.candidate));
      if validated.Invalid? {
        return Refused(InvalidCandidate(validated.error));
      }
      if !s.readable {
        return Refused(Stopped);
      }
      var loaded := LoadState();
      if loaded.CORRUPT? {
        return Refused(CorruptState);
      }
      if loaded.RECOVERED_PREVIOUS? {
        return Refused(CurrentAuthorityRequired);
      }
      var expected := if loaded.EMPTY? then 1 else loaded.body.revision + 1;
      if s.candidate.revision != expected {
        return Refused(RevisionConflict);
      }
      if !s.prepared {
        return Refused(Stopped);
      }
      if !loaded.EMPTY? {
        var saved := WritePrevious(Seal(loaded.body), s.previous);
        if !saved {
          return Refused(Stopped);
        }
      }
      var written := WriteCurrent(Seal(s.candidate), s.current);
      if !written || !s.verified {
        return Refused(Stopped);
      }
      var committed := ReadCandidate(current);
      if !committed.VALID? || committed.body != s.candidate {
        return Refused(VerificationFailed);
      }
      return Committed(committed.body);
    }
  }
}
