/** The session store of app/connection_logic.py: one MongoDB collection per
    pipeline phase, each holding at most one document per session id. The
    database is a map from collection name to collection, a collection a map
    from `_id` to document; time is a number of seconds passed in by the
    caller. */
module SessionStore {
  import opened Wrappers
  import opened Json

  const Phases: seq<string> := ["phase1", "phase2", "phase3", "phase4"]

  /** timedelta(days=90), in seconds. */
  const Retention: int := 90 * 24 * 60 * 60

  /** The `expires_at` field of a stored document: missing or falsy, an ISO
      timestamp (given by its instant), or text fromisoformat rejects. */
  datatype Expiry = Absent | Stamp(at: int) | Unparseable

  datatype Document = Document(
    id: string,
    sessionId: string,
    phase: string,
    timestamp: int,
    data: Value,
    expiresAt: Expiry,
    version: string)

  type Collection = map<string, Document>

  type Database = map<string, Collection>

  /** `f"skincare_{phase}_data"` */
  function CollectionName(phase: string): string
  {
    "skincare_" + phase + "_data"
  }

  /** Different phases are stored in different collections. */
  lemma CollectionNameInjective(p: string, q: string)
    ensures CollectionName(p) == CollectionName(q) ==> p == q
  {
    if CollectionName(p) == CollectionName(q) {
      var a, b := CollectionName(p), CollectionName(q);
      assert |p| == |q|;
      forall i | 0 <= i < |p| ensures p[i] == q[i] {
        assert a[9 + i] == p[i] && b[9 + i] == q[i];
      }
    }
  }

  /** `db[name]`: MongoDB hands out an empty collection for a name it has
      never stored anything under. */
  function CollectionOf(db: Database, name: string): Collection
  {
    if name in db then db[name] else map[]
  }

  /** The phase's collection holds a document for the session. */
  predicate Holds(db: Database, sessionId: string, phase: string)
  {
    sessionId in CollectionOf(db, CollectionName(phase))
  }

  /** Some phase of the pipeline holds a document for the session. */
  predicate InSomePhase(db: Database, sessionId: string)
  {
    exists i :: 0 <= i < |Phases| && Holds(db, sessionId, Phases[i])
  }

  // ------------------------------------------------------------ save and load

  /** The document save_phase_data writes at time `now`. */
  function NewDocument(sessionId: string, phase: string, data: Value, now: int): Document
  {
    Document(sessionId, sessionId, phase, now, data, Stamp(now + Retention), "1.0")
  }

  /** The database after save_phase_data: an upsert keyed by the session id
      in the phase's collection. */
  function Saved(db: Database, sessionId: string, phase: string, data: Value, now: int): Database
  {
    var name := CollectionName(phase);
    db[name := CollectionOf(db, name)[sessionId := NewDocument(sessionId, phase, data, now)]]
  }

  /** A document whose expiry instant is earlier than `now`; a missing or
      unparseable expiry never expires. */
  predicate Expired(d: Document, now: int)
  {
    d.expiresAt.Stamp? && d.expiresAt.at < now
  }

  /** What load_phase_data returns. */
  function LoadResult(db: Database, sessionId: string, phase: string, now: int): (r: Option<Value>)
  {
    var c := CollectionOf(db, CollectionName(phase));
    if sessionId !in c || Expired(c[sessionId], now) then None else Some(c[sessionId].data)
  }

  /** The database after load_phase_data: an expired document is deleted. */
  function AfterLoad(db: Database, sessionId: string, phase: string, now: int): Database
  {
    var name := CollectionName(phase);
    var c := CollectionOf(db, name);
    if sessionId in c && Expired(c[sessionId], now) then db[name := c - {sessionId}] else db
  }

  /** Loading within 90 days of a save returns the saved data. */
  lemma LoadAfterSave(db: Database, sessionId: string, phase: string, data: Value, now: int, t: int)
    requires t <= now + Retention
    ensures LoadResult(Saved(db, sessionId, phase, data, now), sessionId, phase, t) == Some(data)
    ensures AfterLoad(Saved(db, sessionId, phase, data, now), sessionId, phase, t)
            == Saved(db, sessionId, phase, data, now)
  {
  }

  /** After 90 days the saved data is gone, and loading deletes it. */
  lemma LoadAfterRetention(db: Database, sessionId: string, phase: string, data: Value, now: int, t: int)
    requires now + Retention < t
    ensures LoadResult(Saved(db, sessionId, phase, data, now), sessionId, phase, t) == None
    ensures !Holds(AfterLoad(Saved(db, sessionId, phase, data, now), sessionId, phase, t), sessionId, phase)
  {
  }

  /** A load deletes only a document that is already expired, so it
      changes nothing another load at the same time returns. */
  lemma LoadAfterLoad(db: Database, sessionId: string, phase: string, now: int, otherId: string, otherPhase: string)
    ensures LoadResult(AfterLoad(db, sessionId, phase, now), otherId, otherPhase, now)
            == LoadResult(db, otherId, otherPhase, now)
  {
    CollectionNameInjective(phase, otherPhase);
  }

  /** A save touches one session in one phase: every other load is as before. */
  lemma SaveIsolated(db: Database, sessionId: string, phase: string, data: Value, now: int,
                     otherId: string, otherPhase: string, t: int)
    requires otherId != sessionId || otherPhase != phase
    ensures LoadResult(Saved(db, sessionId, phase, data, now), otherId, otherPhase, t)
            == LoadResult(db, otherId, otherPhase, t)
  {
    CollectionNameInjective(phase, otherPhase);
  }

  /** A save to a pipeline phase makes the session exist. */
  lemma SaveMakesExist(db: Database, sessionId: string, k: nat, data: Value, now: int)
    requires k < |Phases|
    ensures InSomePhase(Saved(db, sessionId, Phases[k], data, now), sessionId)
  {
    assert Holds(Saved(db, sessionId, Phases[k], data, now), sessionId, Phases[k]);
  }

  // ------------------------------------------------------------ status

  /** The `phase_status` dict get_session_status builds, one entry per phase
      in the given order. */
  function Flags(db: Database, sessionId: string, ps: seq<string>): (flags: seq<(string, bool)>)
    ensures |flags| == |ps|
  {
    if ps == [] then []
    else
      var p := ps[|ps| - 1];
      Flags(db, sessionId, ps[..|ps| - 1]) + [(p, Holds(db, sessionId, p))]
  }

  lemma {:induction false} FlagsIndex(db: Database, sessionId: string, ps: seq<string>, i: nat)
    requires i < |ps|
    ensures Flags(db, sessionId, ps)[i] == (ps[i], Holds(db, sessionId, ps[i]))
    decreases |ps|
  {
    if i < |ps| - 1 {
      FlagsIndex(db, sessionId, ps[..|ps| - 1], i);
    }
  }

  /** `sum(1 for status in phase_status.values() if status)` */
  function CountTrue(flags: seq<(string, bool)>): (n: nat)
    ensures n <= |flags|
  {
    if flags == [] then 0
    else CountTrue(flags[..|flags| - 1]) + if flags[|flags| - 1].1 then 1 else 0
  }

  /** The count is positive exactly when some flag is set. */
  lemma {:induction false} CountTruePositive(flags: seq<(string, bool)>)
    ensures CountTrue(flags) > 0 <==> exists i :: 0 <= i < |flags| && flags[i].1
    decreases |flags|
  {
    if flags != [] {
      var init := flags[..|flags| - 1];
      CountTruePositive(init);
      if exists i :: 0 <= i < |init| && init[i].1 {
        var i :| 0 <= i < |init| && init[i].1;
        assert flags[i] == init[i];
      }
      if exists i :: 0 <= i < |flags| && flags[i].1 {
        var i :| 0 <= i < |flags| && flags[i].1;
        if i < |init| {
          assert init[i] == flags[i];
        }
      }
    }
  }

  /** The count is the number of flags when every flag is set, and only then. */
  lemma {:induction false} CountTrueAll(flags: seq<(string, bool)>)
    ensures CountTrue(flags) == |flags| <==> forall i :: 0 <= i < |flags| ==> flags[i].1
    decreases |flags|
  {
    if flags != [] {
      var init := flags[..|flags| - 1];
      CountTrueAll(init);
      if forall i :: 0 <= i < |flags| ==> flags[i].1 {
        forall i | 0 <= i < |init| ensures init[i].1 {
          assert init[i] == flags[i];
        }
      }
      if CountTrue(flags) == |flags| {
        forall i | 0 <= i < |flags| ensures flags[i].1 {
          if i < |init| {
            assert init[i] == flags[i];
          }
        }
      }
    }
  }

  /** What get_session_status returns. `present` is the "exists" key;
      progress is (completed / 4) * 100. */
  datatype SessionStatus = SessionStatus(
    sessionId: string,
    present: bool,
    phases: seq<(string, bool)>,
    completedCount: nat,
    totalPhases: nat,
    progress: real)

  /** A session's status says it exists exactly when some phase holds it,
      and counts all four phases exactly when every phase holds it. */
  lemma StatusAgrees(db: Database, sessionId: string)
    ensures CountTrue(Flags(db, sessionId, Phases)) > 0 <==> InSomePhase(db, sessionId)
    ensures CountTrue(Flags(db, sessionId, Phases)) == 4 <==>
              forall i :: 0 <= i < |Phases| ==> Holds(db, sessionId, Phases[i])
  {
    var flags := Flags(db, sessionId, Phases);
    forall i | 0 <= i < |Phases| ensures flags[i] == (Phases[i], Holds(db, sessionId, Phases[i])) {
      FlagsIndex(db, sessionId, Phases, i);
    }
    CountTruePositive(flags);
    CountTrueAll(flags);
    if InSomePhase(db, sessionId) {
      var i :| 0 <= i < |Phases| && Holds(db, sessionId, Phases[i]);
      assert flags[i].1;
    }
  }

  // ------------------------------------------------------------ deletion

  /** The database after delete_one on the session in each of the phases. */
  function RemovedFrom(db: Database, sessionId: string, ps: seq<string>): Database
  {
    if ps == [] then db
    else
      var before := RemovedFrom(db, sessionId, ps[..|ps| - 1]);
      var name := CollectionName(ps[|ps| - 1]);
      var c := CollectionOf(before, name);
      if sessionId in c then before[name := c - {sessionId}] else before
  }

  /** The phases that held the session, in the given order. */
  function HeldPhases(db: Database, sessionId: string, ps: seq<string>): (held: seq<string>)
    ensures |held| <= |ps|
  {
    if ps == [] then []
    else
      var p := ps[|ps| - 1];
      HeldPhases(db, sessionId, ps[..|ps| - 1]) + if Holds(db, sessionId, p) then [p] else []
  }

  /** Deleting from some phases leaves every other phase's collection alone. */
  lemma {:induction false} RemovedElsewhere(db: Database, sessionId: string, ps: seq<string>, q: string)
    requires q !in ps
    ensures CollectionOf(RemovedFrom(db, sessionId, ps), CollectionName(q)) == CollectionOf(db, CollectionName(q))
    decreases |ps|
  {
    if ps != [] {
      assert q !in ps[..|ps| - 1];
      RemovedElsewhere(db, sessionId, ps[..|ps| - 1], q);
      CollectionNameInjective(ps[|ps| - 1], q);
    }
  }

  /** Deleting from some phases removes the session there and leaves every
      other session where it was. */
  lemma {:induction false} RemovedHolds(db: Database, sessionId: string, ps: seq<string>, id: string, q: string)
    ensures Holds(RemovedFrom(db, sessionId, ps), id, q) <==>
              Holds(db, id, q) && (id != sessionId || q !in ps)
    decreases |ps|
  {
    if ps != [] {
      var init := ps[..|ps| - 1];
      RemovedHolds(db, sessionId, init, id, q);
      CollectionNameInjective(ps[|ps| - 1], q);
      assert q in ps <==> q in init || q == ps[|ps| - 1];
    }
  }

  /** After delete_session no phase holds the session, every other session
      is untouched, and the deleted phases are empty exactly when the
      session did not exist. */
  lemma DeleteSessionEffect(db: Database, sessionId: string)
    ensures !InSomePhase(RemovedFrom(db, sessionId, Phases), sessionId)
    ensures forall id, q :: id != sessionId ==>
              (Holds(RemovedFrom(db, sessionId, Phases), id, q) <==> Holds(db, id, q))
    ensures HeldPhases(db, sessionId, Phases) == [] <==> !InSomePhase(db, sessionId)
  {
    forall i | 0 <= i < |Phases| ensures !Holds(RemovedFrom(db, sessionId, Phases), sessionId, Phases[i]) {
      RemovedHolds(db, sessionId, Phases, sessionId, Phases[i]);
    }
    forall id, q | id != sessionId
      ensures Holds(RemovedFrom(db, sessionId, Phases), id, q) <==> Holds(db, id, q)
    {
      RemovedHolds(db, sessionId, Phases, id, q);
    }
    HeldPhasesEmpty(db, sessionId, Phases);
  }

  lemma {:induction false} HeldPhasesEmpty(db: Database, sessionId: string, ps: seq<string>)
    ensures HeldPhases(db, sessionId, ps) == [] <==> forall i :: 0 <= i < |ps| ==> !Holds(db, sessionId, ps[i])
    decreases |ps|
  {
    if ps != [] {
      var init := ps[..|ps| - 1];
      HeldPhasesEmpty(db, sessionId, init);
      assert forall i :: 0 <= i < |init| ==> init[i] == ps[i];
    }
  }

  /** What delete_session returns. */
  datatype DeleteResult = DeleteResult(
    sessionId: string,
    deletedPhases: seq<string>,
    totalDeleted: nat,
    success: bool)

  // ------------------------------------------------------------ cleanup

  /** The documents of a collection whose expiry is earlier than `now`. */
  function ExpiredKeys(c: Collection, now: int): set<string>
  {
    set k | k in c && Expired(c[k], now)
  }

  /** delete_many({"expires_at": {"$lt": now}}) on one collection. */
  function Unexpired(c: Collection, now: int): (r: Collection)
  {
    map k | k in c && !Expired(c[k], now) :: c[k]
  }

  /** delete_many on one phase's collection; a collection never written
      to stays absent. */
  function CleanStep(db: Database, now: int, phase: string): Database
  {
    var name := CollectionName(phase);
    if name in db then db[name := Unexpired(db[name], now)] else db
  }

  /** The database after the expired documents of the given phases are
      deleted. */
  function Cleaned(db: Database, now: int, ps: seq<string>): Database
  {
    if ps == [] then db else CleanStep(Cleaned(db, now, ps[..|ps| - 1]), now, ps[|ps| - 1])
  }

  /** The `by_phase` counts of cleanup_expired_sessions. */
  function CleanCounts(db: Database, now: int, ps: seq<string>): (counts: seq<(string, nat)>)
    ensures |counts| == |ps|
  {
    if ps == [] then []
    else
      var p := ps[|ps| - 1];
      CleanCounts(db, now, ps[..|ps| - 1]) + [(p, |ExpiredKeys(CollectionOf(db, CollectionName(p)), now)|)]
  }

  function SumCounts(counts: seq<(string, nat)>): nat
  {
    if counts == [] then 0 else SumCounts(counts[..|counts| - 1]) + counts[|counts| - 1].1
  }

  /** One more phase cleaned: the database takes one more step, and the
      phase's count is that of its expired documents, which the earlier
      steps did not touch. */
  lemma CleanSnoc(db: Database, now: int, ps: seq<string>, i: nat)
    requires i < |ps| && ps[i] !in ps[..i]
    ensures Cleaned(db, now, ps[..i + 1]) == CleanStep(Cleaned(db, now, ps[..i]), now, ps[i])
    ensures CollectionOf(Cleaned(db, now, ps[..i]), CollectionName(ps[i])) == CollectionOf(db, CollectionName(ps[i]))
    ensures CleanCounts(db, now, ps[..i + 1])
            == CleanCounts(db, now, ps[..i]) + [(ps[i], |ExpiredKeys(CollectionOf(db, CollectionName(ps[i])), now)|)]
  {
    assert ps[..i + 1][..i] == ps[..i];
    CleanedElsewhere(db, now, ps[..i], ps[i]);
  }

  /** Cleaning some phases leaves every other phase's collection alone. */
  lemma {:induction false} CleanedElsewhere(db: Database, now: int, ps: seq<string>, q: string)
    requires q !in ps
    ensures CollectionOf(Cleaned(db, now, ps), CollectionName(q)) == CollectionOf(db, CollectionName(q))
    decreases |ps|
  {
    if ps != [] {
      assert q !in ps[..|ps| - 1];
      CleanedElsewhere(db, now, ps[..|ps| - 1], q);
      CollectionNameInjective(ps[|ps| - 1], q);
    }
  }

  /** After cleanup, a cleaned phase holds exactly its documents that had
      not expired. */
  lemma {:induction false} CleanedCollection(db: Database, now: int, ps: seq<string>, q: string)
    requires q in ps
    ensures CollectionOf(Cleaned(db, now, ps), CollectionName(q)) == Unexpired(CollectionOf(db, CollectionName(q)), now)
    decreases |ps|
  {
    var init := ps[..|ps| - 1];
    var last := ps[|ps| - 1];
    CollectionNameInjective(last, q);
    if q == last {
      if q in init {
        CleanedCollection(db, now, init, q);
      } else {
        CleanedElsewhere(db, now, init, q);
      }
    } else {
      assert q in init;
      CleanedCollection(db, now, init, q);
    }
  }

  /** Cleanup at `now` changes nothing any later load returns. */
  lemma CleanupKeepsLoads(db: Database, now: int, sessionId: string, k: nat, t: int)
    requires k < |Phases| && now <= t
    ensures LoadResult(Cleaned(db, now, Phases), sessionId, Phases[k], t) == LoadResult(db, sessionId, Phases[k], t)
  {
    CleanedCollection(db, now, Phases, Phases[k]);
  }

  /** After cleanup at `now`, no phase holds a document expired at `now`. */
  lemma CleanupLeavesNoExpired(db: Database, now: int, k: nat, sessionId: string)
    requires k < |Phases|
    requires Holds(Cleaned(db, now, Phases), sessionId, Phases[k])
    ensures !Expired(CollectionOf(Cleaned(db, now, Phases), CollectionName(Phases[k]))[sessionId], now)
  {
    CleanedCollection(db, now, Phases, Phases[k]);
  }

  /** What cleanup_expired_sessions returns. */
  datatype CleanupResult = CleanupResult(totalDeleted: nat, byPhase: seq<(string, nat)>, cleanupTime: int)

  lemma PhasesDistinct()
    ensures forall i, j :: 0 <= i < j < |Phases| ==> Phases[i] != Phases[j]
  {
  }

  // ------------------------------------------------------------ the store

  /** The DataStore: the database it reads and writes. */
  class DataStore {
    var db: Database

    constructor ()
      ensures db == map[]
    {
      db := map[];
    }

    /** save_phase_data: upsert the session's document in the phase's
        collection, expiring 90 days from now. */
    method SavePhaseData(sessionId: string, phase: string, data: Value, now: int) returns (ok: bool)
      modifies this
      ensures ok
      ensures db == Saved(old(db), sessionId, phase, data, now)
    {
      var name := CollectionName(phase);
      var collection := CollectionOf(db, name);
      db := db[name := collection[sessionId := NewDocument(sessionId, phase, data, now)]];
      ok := true;
    }

    /** load_phase_data: a missing document gives None; an expired one is
        deleted and gives None; otherwise its data. */
    method LoadPhaseData(sessionId: string, phase: string, now: int) returns (r: Option<Value>)
      modifies this
      ensures r == LoadResult(old(db), sessionId, phase, now)
      ensures db == AfterLoad(old(db), sessionId, phase, now)
    {
      var name := CollectionName(phase);
      var collection := CollectionOf(db, name);
      if sessionId !in collection {
        return None;
      }
      var document := collection[sessionId];
      if document.expiresAt.Stamp? && document.expiresAt.at < now {
        db := db[name := collection - {sessionId}];
        return None;
      }
      return Some(document.data);
    }

    /** session_exists: some phase holds the session; expiry is not looked at. */
    method SessionExists(sessionId: string) returns (b: bool)
      ensures b <==> InSomePhase(db, sessionId)
    {
      var i := 0;
      while i < |Phases|
        invariant i <= |Phases|
        invariant forall j :: 0 <= j < i ==> !Holds(db, sessionId, Phases[j])
      {
        if sessionId in CollectionOf(db, CollectionName(Phases[i])) {
          return true;
        }
        i := i + 1;
      }
      return false;
    }

    /** get_session_status: the per-phase flags, how many are set, and the
        progress as a percentage. */
    method GetSessionStatus(sessionId: string) returns (st: SessionStatus)
      ensures st.sessionId == sessionId && st.totalPhases == 4
      ensures st.phases == Flags(db, sessionId, Phases)
      ensures st.completedCount == CountTrue(st.phases) <= 4
      ensures st.present <==> st.completedCount > 0
      ensures st.present <==> InSomePhase(db, sessionId)
      ensures st.progress == st.completedCount as real * 25.0
    {
      var phaseStatus: seq<(string, bool)> := [];
      var i := 0;
      while i < |Phases|
        invariant i <= |Phases|
        invariant phaseStatus == Flags(db, sessionId, Phases[..i])
      {
        var phase := Phases[i];
        assert Phases[..i + 1][..i] == Phases[..i];
        phaseStatus := phaseStatus + [(phase, sessionId in CollectionOf(db, CollectionName(phase)))];
        i := i + 1;
      }
      assert Phases[..i] == Phases;
      var completedCount := CountTrue(phaseStatus);
      StatusAgrees(db, sessionId);
      var progress := (completedCount as real / |Phases| as real) * 100.0;
      st := SessionStatus(sessionId, completedCount > 0, phaseStatus, completedCount, |Phases|, progress);
    }

    /** delete_session: delete the session's document from every phase,
        listing the phases that had one. */
    method DeleteSession(sessionId: string) returns (res: DeleteResult)
      modifies this
      ensures db == RemovedFrom(old(db), sessionId, Phases)
      ensures res.sessionId == sessionId
      ensures res.deletedPhases == HeldPhases(old(db), sessionId, Phases)
      ensures res.totalDeleted == |res.deletedPhases|
      ensures res.success <==> res.totalDeleted > 0
    {
      var deletedPhases: seq<string> := [];
      var totalDeleted := 0;
      var i := 0;
      while i < |Phases|
        invariant i <= |Phases|
        invariant db == RemovedFrom(old(db), sessionId, Phases[..i])
        invariant deletedPhases == HeldPhases(old(db), sessionId, Phases[..i])
        invariant totalDeleted == |deletedPhases|
      {
        var phase := Phases[i];
        var name := CollectionName(phase);
        assert Phases[..i + 1][..i] == Phases[..i];
        assert phase !in Phases[..i];
        RemovedElsewhere(old(db), sessionId, Phases[..i], phase);
        var collection := CollectionOf(db, name);
        if sessionId in collection {
          db := db[name := collection - {sessionId}];
          deletedPhases := deletedPhases + [phase];
          totalDeleted := totalDeleted + 1;
        }
        i := i + 1;
      }
      assert Phases[..i] == Phases;
      res := DeleteResult(sessionId, deletedPhases, totalDeleted, totalDeleted > 0);
    }

    /** cleanup_expired_sessions: in every phase, delete the documents whose
        expiry is earlier than now, counting them per phase. */
    method CleanupExpiredSessions(now: int) returns (res: CleanupResult)
      modifies this
      ensures db == Cleaned(old(db), now, Phases)
      ensures res.byPhase == CleanCounts(old(db), now, Phases)
      ensures res.totalDeleted == SumCounts(res.byPhase)
      ensures res.cleanupTime == now
    {
      var byPhase: seq<(string, nat)> := [];
      var totalDeleted := 0;
      var i := 0;
      while i < |Phases|
        invariant i <= |Phases|
        invariant db == Cleaned(old(db), now, Phases[..i])
        invariant byPhase == CleanCounts(old(db), now, Phases[..i])
        invariant totalDeleted == SumCounts(byPhase)
      {
        var phase := Phases[i];
        var name := CollectionName(phase);
        assert phase !in Phases[..i];
        CleanSnoc(old(db), now, Phases, i);
        var deleted := |ExpiredKeys(CollectionOf(db, name), now)|;
        db := CleanStep(db, now, phase);
        assert (byPhase + [(phase, deleted)])[..|byPhase|] == byPhase;
        byPhase := byPhase + [(phase, deleted)];
        totalDeleted := totalDeleted + deleted;
        i := i + 1;
      }
      assert Phases[..i] == Phases;
      res := CleanupResult(totalDeleted, byPhase, now);
    }
  }
}
