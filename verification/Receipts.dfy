/** Run receipts (internal/agents/execution_store.go): reservations made by a
    capture, released, expired, or turned into one immutable run. Each database
    transaction is one atomic step on maps. */
module Receipts {
  import opened Text

  type Id = nat

  /** A captured knowledge base; all of it is stored with the run. */
  datatype Base = Base(position: int, id: Id, version: int, access: string, wiki: Id, documentationRun: Id,
                       revisions: seq<Id>, digest: string)

  /** The identifiers and versions of agent, model, endpoint and credential. */
  datatype Head = Head(agent: Id, agentVersion: Id, model: Id, endpoint: Id, credential: Option<Id>, access: string)

  /** Times are nanoseconds since the zero time, which is 0. */
  datatype Capture = Capture(runId: Id, head: Head, bases: seq<Base>, capturedAt: nat)

  datatype Outcome = Answered | Refused | InsufficientEvidence | CompletionFailed

  datatype Details = Details(
    origin: string, subject: string, requestDigest: string, outcome: Outcome,
    usage: map<string, int>, toolCalls: seq<string>, citations: seq<string>, error: Option<string>)

  datatype Record = Record(capture: Capture, details: Details, latency: int, completedAt: nat)

  /** A reservation row and a run row with its knowledge-base rows. */
  datatype Row = Row(position: int, base: Id, wiki: Id, expires: nat)
  datatype Stored = Stored(head: Head, details: Details, latency: int, createdAt: nat, completedAt: nat,
                           bases: seq<Base>)

  /** Reservation rows are listed by position; an identifier without rows is
      absent. */
  datatype Database = Database(reservations: map<Id, seq<Row>>, runs: map<Id, Stored>, wikis: set<(Id, Id)>)

  datatype Result = Ok(runId: Id) | Invalid | Unavailable | Conflict | Rejected

  const TTL: nat := 24 * 3_600 * 1_000_000_000

  // ---------------------------------------------------------------------
  // Normalising and checking a record
  // ---------------------------------------------------------------------

  /** `postgresTimestamp`: rounded to microseconds, the zero time kept. */
  function Micros(t: nat): (r: nat)
    ensures r % 1_000 == 0 || t == 0
    ensures t % 1_000 == 0 ==> r == t
  {
    if t == 0 then 0 else (t + 500) / 1_000 * 1_000
  }

  function Normalize(r: Record): (n: Record)
    ensures n.completedAt >= n.capture.capturedAt
  {
    var captured, completed := Micros(r.capture.capturedAt), Micros(r.completedAt);
    r.(capture := r.capture.(capturedAt := captured),
       completedAt := if completed < captured then captured else completed)
  }

  /** `validateRunRecord`, apart from the encoded sizes. */
  predicate ValidRecord(r: Record) {
    && r.capture.runId != 0 && r.capture.capturedAt != 0 && r.completedAt >= r.capture.capturedAt
    && r.details.requestDigest != "" && (r.details.origin == "HTTP" || r.details.origin == "DISCORD")
    && r.details.subject != "" && r.latency >= 0
    && (r.details.outcome == CompletionFailed <==> r.details.error.Some?)
    && (r.details.error.Some? ==> 1 <= ByteLen(r.details.error.value) <= 1_000)
    && |r.details.toolCalls| <= 256 && |r.details.citations| <= 256
    && (forall key :: key in r.details.usage ==> key != "" && r.details.usage[key] >= 0)
  }

  /** `int32(n)`. */
  function Int32(n: int): (r: int)
    ensures -0x8000_0000 <= r < 0x8000_0000
    ensures 0 <= n < 0x8000_0000 ==> r == n
  {
    (n + 0x8000_0000) % 0x1_0000_0000 - 0x8000_0000
  }

  /** The row that a normalised record becomes. */
  function RowOf(r: Record): Stored {
    Stored(r.capture.head, r.details, r.latency, r.capture.capturedAt, r.completedAt, r.capture.bases)
  }

  // ---------------------------------------------------------------------
  // The row comparisons
  // ---------------------------------------------------------------------

  predicate LiveRow(row: Row, base: Base, now: nat) {
    row.position == base.position && row.base == base.id && row.wiki == base.wiki && row.expires > now
  }

  /** The reservation is exactly the captured scope, and live. */
  predicate Live(rows: seq<Row>, bases: seq<Base>, now: nat) {
    |rows| == |bases| && forall i :: 0 <= i < |rows| ==> LiveRow(rows[i], bases[i], now)
  }

  /** The row loop of `lockRunScopeReservation`. */
  method CompareReservation(rows: seq<Row>, bases: seq<Base>, now: nat) returns (live: bool)
    ensures live <==> Live(rows, bases, now)
  {
    var position := 0;
    while position < |rows|
      invariant 0 <= position <= |rows| && position <= |bases|
      invariant forall i :: 0 <= i < position ==> LiveRow(rows[i], bases[i], now)
    {
      if position >= |bases| || !LiveRow(rows[position], bases[position], now) { return false; }
      position := position + 1;
    }
    live := position == |bases|;
  }

  /** The row loop of `storedRunMatches`, with its inner loop over revisions. */
  method CompareBases(stored: seq<Base>, expected: seq<Base>) returns (same: bool)
    ensures same <==> stored == expected
  {
    var position := 0;
    while position < |stored|
      invariant 0 <= position <= |stored| && position <= |expected|
      invariant forall i :: 0 <= i < position ==> stored[i] == expected[i]
    {
      if position >= |expected| { return false; }
      var a, b := stored[position], expected[position];
      if a.position != b.position || a.id != b.id || a.version != b.version || a.access != b.access ||
         a.wiki != b.wiki ||
         a.documentationRun != b.documentationRun || a.digest != b.digest || |a.revisions| != |b.revisions|
      {
        return false;
      }
      for i := 0 to |a.revisions|
        invariant forall j :: 0 <= j < i ==> a.revisions[j] == b.revisions[j]
      {
        if a.revisions[i] != b.revisions[i] { return false; }
      }
      assert a.revisions == b.revisions;
      position := position + 1;
    }
    same := position == |expected|;
  }

  /** `storedRunMatches`: every column equal, the latency after conversion. */
  predicate Matches(r: Record, stored: Stored) {
    stored == RowOf(r).(latency := Int32(r.latency))
  }

  // ---------------------------------------------------------------------
  // The transactions
  // ---------------------------------------------------------------------

  function RowsOf(capture: Capture): (rows: seq<Row>)
    ensures |rows| == |capture.bases|
  {
    seq(|capture.bases|, i requires 0 <= i < |capture.bases| =>
      Row(capture.bases[i].position, capture.bases[i].id, capture.bases[i].wiki, capture.capturedAt + TTL))
  }

  function Rows(db: Database, id: Id): seq<Row> {
    if id in db.reservations then db.reservations[id] else []
  }

  function Reserve(db: Database, capture: Capture): Database {
    if capture.bases == [] then db else db.(reservations := db.reservations[capture.runId := RowsOf(capture)])
  }

  function Release(db: Database, id: Id): Database {
    if id == 0 then db else db.(reservations := db.reservations - {id})
  }

  predicate WikisExist(db: Database, bases: seq<Base>) {
    forall i :: 0 <= i < |bases| ==> (bases[i].id, bases[i].wiki) in db.wikis
  }

  function RecordRun(db: Database, record: Record, now: nat): (Database, Result) {
    var r := Normalize(record);
    var id := r.capture.runId;
    if !ValidRecord(r) then (db, Invalid)
    else if id in db.runs then (db, if Matches(r, db.runs[id]) then Ok(id) else Conflict)
    else if !WikisExist(db, r.capture.bases) || !Live(Rows(db, id), r.capture.bases, now) then (db, Unavailable)
    else if r.latency >= 0x8000_0000 then (db, Rejected)
    else (db.(runs := db.runs[id := RowOf(r)], reservations := db.reservations - {id}), Ok(id))
  }

  class ExecutionStore {
    var db: Database

    constructor ()
      ensures db == Database(map[], map[], {})
    {
      db := Database(map[], map[], {});
    }

    /** The reservation rows of `Capture`, inserted one by one. */
    method CaptureScope(capture: Capture)
      requires capture.runId !in db.reservations
      modifies this
      ensures db == Reserve(old(db), capture)
    {
      var rows: seq<Row> := [];
      for i := 0 to |capture.bases|
        invariant rows == RowsOf(capture)[..i]
      {
        var base := capture.bases[i];
        rows := rows + [Row(base.position, base.id, base.wiki, capture.capturedAt + TTL)];
      }
      assert rows == RowsOf(capture);
      if rows != [] { db := db.(reservations := db.reservations[capture.runId := rows]); }
    }

    method ReleaseCapture(capture: Capture)
      modifies this
      ensures db == Release(old(db), capture.runId)
    {
      if capture.runId == 0 { return; }
      db := db.(reservations := db.reservations - {capture.runId});
    }

    /** The wiki-version loop of `lockRunScopeReservation`. */
    method WikisLocked(bases: seq<Base>) returns (ok: bool)
      ensures ok <==> WikisExist(db, bases)
    {
      for i := 0 to |bases|
        invariant forall j :: 0 <= j < i ==> (bases[j].id, bases[j].wiki) in db.wikis
      {
        if (bases[i].id, bases[i].wiki) !in db.wikis { return false; }
      }
      ok := true;
    }

    method Record(record: Record, now: nat) returns (result: Result)
      modifies this
      ensures (db, result) == RecordRun(old(db), record, now)
    {
      var r := Normalize(record);
      if !ValidRecord(r) { return Invalid; }
      var id := r.capture.runId;
      if id in db.runs {
        var stored := db.runs[id];
        var same := CompareBases(stored.bases, r.capture.bases);
        var head := stored.head == r.capture.head && stored.details == r.details && stored.latency == Int32(r.latency)
          && stored.createdAt == r.capture.capturedAt && stored.completedAt == r.completedAt;
        return if head && same then Ok(id) else Conflict;
      }
      var ok := WikisLocked(r.capture.bases);
      if !ok { return Unavailable; }
      ok := CompareReservation(Rows(db, id), r.capture.bases, now);
      if !ok { return Unavailable; }
      if r.latency >= 0x8000_0000 { return Rejected; }
      var affected := |Rows(db, id)|;
      if affected != |r.capture.bases| { return Unavailable; }
      db := db.(runs := db.runs[id := RowOf(r)], reservations := db.reservations - {id});
      result := Ok(id);
    }
  }

  // ---------------------------------------------------------------------
  // Replay and conflict
  // ---------------------------------------------------------------------

  /** A recorded run answers the same record again with the same identifier and
      without change, at any later time and whatever happened to reservations. */
  lemma ReplayIsIdempotent(db: Database, record: Record, now: nat, later: Database, again: nat)
    requires RecordRun(db, record, now).1.Ok?
    requires var id := record.capture.runId; id in later.runs && later.runs[id] == RecordRun(db, record, now).0.runs[id]
    ensures RecordRun(later, record, again) == (later, Ok(record.capture.runId))
  {}

  /** A differing record need not conflict: a latency longer by 2^32 milliseconds
      passes for the stored one. */
  lemma LatencyWraps(db: Database, record: Record, now: nat)
    requires RecordRun(db, record, now).1.Ok? && record.capture.runId !in db.runs
    ensures var other := record.(latency := record.latency + 0x1_0000_0000);
            var db' := RecordRun(db, record, now).0;
            other != record && RecordRun(db', other, now) == (db', Ok(record.capture.runId))
  {}

  // ---------------------------------------------------------------------
  // Histories
  // ---------------------------------------------------------------------

  /** One transaction: a capture, a release, a sweep of some expired reservation
      rows, a record, a removal of old runs, or a change to the wikis. */
  datatype Step =
    | Capturing(capture: Capture)
    | Releasing(id: Id)
    | Sweeping(victims: set<(Id, int)>, now: nat)
    | Recording(record: Record, now: nat)
    | Retiring(ids: set<Id>)
    | Rewriting(wikis: set<(Id, Id)>)

  /** The database, the clock, the captures made and the runs ever created. */
  datatype History = History(db: Database, clock: nat, captured: map<Id, Capture>, created: set<Id>)

  /** The rows left by a sweep. */
  function Swept(rows: seq<Row>, id: Id, victims: set<(Id, int)>, now: nat): seq<Row> {
    if rows == [] then []
    else
      var rest := Swept(rows[1..], id, victims, now);
      if (id, rows[0].position) in victims && rows[0].expires <= now then rest else [rows[0]] + rest
  }

  function Sweep(db: Database, victims: set<(Id, int)>, now: nat): Database {
    db.(reservations := map id | id in db.reservations && Swept(db.reservations[id], id, victims, now) != [] ::
                          Swept(db.reservations[id], id, victims, now))
  }

  /** Run identifiers are fresh, captured knowledge bases are numbered in order, and
      clocks do not run backwards. */
  predicate Enabled(h: History, step: Step) {
    match step
    case Capturing(capture) =>
      && capture.runId !in h.captured && capture.runId !in h.created && capture.bases != []
      && forall i :: 0 <= i < |capture.bases| ==> capture.bases[i].position == i
    case Sweeping(_, now) => h.clock <= now
    case Recording(_, now) => h.clock <= now
    case _ => true
  }

  function Apply(h: History, step: Step): History {
    match step
    case Capturing(capture) => h.(db := Reserve(h.db, capture), captured := h.captured[capture.runId := capture])
    case Releasing(id) => h.(db := Release(h.db, id))
    case Sweeping(victims, now) => h.(db := Sweep(h.db, victims, now), clock := now)
    case Recording(record, now) =>
      var db := RecordRun(h.db, record, now).0;
      h.(db := db, clock := now, created := h.created + (db.runs.Keys - h.db.runs.Keys))
    case Retiring(ids) => h.(db := h.db.(runs := h.db.runs - ids))
    case Rewriting(wikis) => h.(db := h.db.(wikis := wikis))
  }

  const NOTHING := History(Database(map[], map[], {}), 0, map[], {})

  /** A reservation is the whole captured scope until it has expired. */
  ghost predicate Kept(h: History, id: Id)
    requires id in h.db.reservations
  {
    && id in h.captured && id !in h.created && h.db.reservations[id] != []
    && (h.db.reservations[id] == RowsOf(h.captured[id]) || h.captured[id].capturedAt + TTL <= h.clock)
    && forall i :: 0 <= i < |h.db.reservations[id]| ==>
         h.db.reservations[id][i].expires == h.captured[id].capturedAt + TTL
  }

  predicate SameScope(a: seq<Base>, b: seq<Base>) {
    && |a| == |b|
    && forall i :: 0 <= i < |a| ==>
         a[i].position == b[i].position && a[i].id == b[i].id && a[i].wiki == b[i].wiki
  }

  /** A run with a scope was created from the capture of its identifier. */
  ghost predicate Backed(h: History, id: Id)
    requires id in h.db.runs
  {
    && id in h.created
    && (h.db.runs[id].bases != [] ==>
          id in h.captured && SameScope(h.db.runs[id].bases, h.captured[id].bases))
  }

  ghost predicate Inv(h: History) {
    && (forall id :: id in h.db.reservations ==> Kept(h, id))
    && (forall id :: id in h.db.runs ==> Backed(h, id))
  }

  lemma SweptIsWhole(rows: seq<Row>, id: Id, victims: set<(Id, int)>, now: nat, expiry: nat)
    requires forall i :: 0 <= i < |rows| ==> rows[i].expires == expiry
    ensures now < expiry ==> Swept(rows, id, victims, now) == rows
    ensures forall i :: 0 <= i < |Swept(rows, id, victims, now)| ==> Swept(rows, id, victims, now)[i].expires == expiry
  {
    if rows != [] { SweptIsWhole(rows[1..], id, victims, now, expiry); }
  }

  lemma SweepKeeps(h: History, victims: set<(Id, int)>, now: nat)
    requires Inv(h) && h.clock <= now
    ensures Inv(Apply(h, Sweeping(victims, now)))
  {
    var h' := Apply(h, Sweeping(victims, now));
    forall id | id in h'.db.reservations ensures Kept(h', id) {
      assert Kept(h, id);
      SweptIsWhole(h.db.reservations[id], id, victims, now, h.captured[id].capturedAt + TTL);
    }
    forall id | id in h'.db.runs ensures Backed(h', id) { assert Backed(h, id); }
  }

  /** Whether a record step creates a run. */
  predicate Creates(h: History, record: Record, now: nat) {
    RecordRun(h.db, record, now).1.Ok? && record.capture.runId !in h.db.runs
  }

  /** A run is created only from a live reservation that is the whole scope of the
      one capture of its identifier, and never twice. */
  lemma CreationIsBacked(h: History, record: Record, now: nat)
    requires Inv(h) && h.clock <= now && Creates(h, record, now) && record.capture.bases != []
    ensures var id := record.capture.runId;
            && id in h.captured && id !in h.created
            && h.db.reservations.Keys >= {id} && h.db.reservations[id] == RowsOf(h.captured[id])
            && now < h.captured[id].capturedAt + TTL
            && SameScope(record.capture.bases, h.captured[id].bases)
  {
    var id := record.capture.runId;
    var rows := Rows(h.db, id);
    assert Live(rows, record.capture.bases, now);
    assert id in h.db.reservations;
    assert Kept(h, id);
    assert LiveRow(rows[0], record.capture.bases[0], now);
    forall i | 0 <= i < |rows|
      ensures record.capture.bases[i].position == h.captured[id].bases[i].position
           && record.capture.bases[i].id == h.captured[id].bases[i].id
           && record.capture.bases[i].wiki == h.captured[id].bases[i].wiki
    {
      assert LiveRow(rows[i], record.capture.bases[i], now);
    }
  }

  lemma RecordKeeps(h: History, record: Record, now: nat)
    requires Inv(h) && h.clock <= now
    ensures Inv(Apply(h, Recording(record, now)))
  {
    var h' := Apply(h, Recording(record, now));
    var id := record.capture.runId;
    if Creates(h, record, now) && record.capture.bases != [] { CreationIsBacked(h, record, now); }
    forall k | k in h'.db.reservations ensures Kept(h', k) { assert Kept(h, k); }
    forall k | k in h'.db.runs ensures Backed(h', k) {
      if k in h.db.runs { assert Backed(h, k); }
    }
  }

  lemma CaptureKeeps(h: History, capture: Capture)
    requires Inv(h) && Enabled(h, Capturing(capture))
    ensures Inv(Apply(h, Capturing(capture)))
  {
    var h' := Apply(h, Capturing(capture));
    forall k | k in h'.db.reservations ensures Kept(h', k) {
      if k != capture.runId { assert Kept(h, k); }
    }
    forall k | k in h'.db.runs ensures Backed(h', k) { assert Backed(h, k); }
  }

  lemma StepKeeps(h: History, step: Step)
    requires Inv(h) && Enabled(h, step)
    ensures Inv(Apply(h, step))
  {
    var h' := Apply(h, step);
    match step
    case Capturing(capture) => CaptureKeeps(h, capture);
    case Sweeping(victims, now) => SweepKeeps(h, victims, now);
    case Recording(record, now) => RecordKeeps(h, record, now);
    case _ =>
      forall k | k in h'.db.reservations ensures Kept(h', k) { assert Kept(h, k); }
      forall k | k in h'.db.runs ensures Backed(h', k) { assert Backed(h, k); }
  }

  ghost predicate EnabledAll(steps: seq<Step>)
    decreases |steps|
  {
    steps == [] || (EnabledAll(steps[..|steps| - 1]) && Enabled(Run(steps[..|steps| - 1]), steps[|steps| - 1]))
  }

  function Run(steps: seq<Step>): History
    decreases |steps|
  {
    if steps == [] then NOTHING else Apply(Run(steps[..|steps| - 1]), steps[|steps| - 1])
  }

  /** In every reachable state no identifier is both reserved and recorded, every
      reservation belongs to a capture and is whole until it expires, and every
      run with a scope was created from the capture of its identifier. */
  lemma {:induction false} HistoryIsSound(steps: seq<Step>)
    requires EnabledAll(steps)
    ensures Inv(Run(steps)) && Run(steps).db.reservations.Keys !! Run(steps).db.runs.Keys
    decreases |steps|
  {
    if steps != [] {
      HistoryIsSound(steps[..|steps| - 1]);
      StepKeeps(Run(steps[..|steps| - 1]), steps[|steps| - 1]);
    }
    var h := Run(steps);
    assert forall id :: id in h.db.reservations ==> Kept(h, id);
    assert forall id :: id in h.db.runs ==> Backed(h, id);
  }

  /** A run row never changes; only retention removes it. */
  lemma RunsAreImmutable(h: History, step: Step, id: Id)
    requires id in h.db.runs && !(step.Retiring? && id in step.ids)
    ensures id in Apply(h, step).db.runs && Apply(h, step).db.runs[id] == h.db.runs[id]
  {}

  function RunFrom(h: History, steps: seq<Step>): History
    decreases |steps|
  {
    if steps == [] then h else RunFrom(Apply(h, steps[0]), steps[1..])
  }

  predicate Retires(steps: seq<Step>, id: Id) {
    exists i :: 0 <= i < |steps| && steps[i].Retiring? && id in steps[i].ids
  }

  lemma {:induction false} RunSurvives(h: History, steps: seq<Step>, id: Id)
    requires id in h.db.runs && !Retires(steps, id)
    ensures id in RunFrom(h, steps).db.runs && RunFrom(h, steps).db.runs[id] == h.db.runs[id]
    decreases |steps|
  {
    if steps != [] {
      RunsAreImmutable(h, steps[0], id);
      forall i | 0 <= i < |steps[1..]| ensures !(steps[1..][i].Retiring? && id in steps[1..][i].ids) {
        assert steps[1..][i] == steps[i + 1];
      }
      RunSurvives(Apply(h, steps[0]), steps[1..], id);
    }
  }

  /** Replaying an accepted record after any further transactions that did not
      retire the run returns the same identifier and changes nothing. */
  lemma ReplayAfterAnything(h: History, record: Record, now: nat, more: seq<Step>, again: nat)
    requires RecordRun(h.db, record, now).1.Ok? && !Retires(more, record.capture.runId)
    ensures var later := RunFrom(Apply(h, Recording(record, now)), more).db;
            RecordRun(later, record, again) == (later, Ok(record.capture.runId))
  {
    var h' := Apply(h, Recording(record, now));
    RunSurvives(h', more, record.capture.runId);
    ReplayIsIdempotent(h.db, record, now, RunFrom(h', more).db, again);
  }

  /** The two records say the same, the latency apart. */
  predicate SameButLatency(a: Record, b: Record) {
    && a.capture.head == b.capture.head && a.capture.bases == b.capture.bases && a.details == b.details
    && a.capture.capturedAt == b.capture.capturedAt && a.completedAt == b.completedAt
  }

  lemma Int32Congruence(n: int, m: int)
    requires 0 <= m < 0x8000_0000
    ensures Int32(n) == m <==> (n - m) % 0x1_0000_0000 == 0
  {
    var q, r := (n - m) / 0x1_0000_0000, (n - m) % 0x1_0000_0000;
    assert n + 0x8000_0000 == q * 0x1_0000_0000 + (r + m + 0x8000_0000);
    if r + m + 0x8000_0000 < 0x1_0000_0000 {
      assert (n + 0x8000_0000) % 0x1_0000_0000 == r + m + 0x8000_0000;
    } else {
      assert n + 0x8000_0000 == (q + 1) * 0x1_0000_0000 + (r + m - 0x8000_0000);
      assert (n + 0x8000_0000) % 0x1_0000_0000 == r + m - 0x8000_0000;
    }
  }

  /** A second record for a created run, after any further transactions that did
      not retire it, changes nothing; it is accepted exactly when the two
      normalise to the same row but for latencies congruent modulo 2^32, and
      conflicts otherwise. */
  lemma ConflictIsExact(h: History, record: Record, now: nat, more: seq<Step>, other: Record, again: nat)
    requires Creates(h, record, now) && !Retires(more, record.capture.runId)
    requires other.capture.runId == record.capture.runId && ValidRecord(Normalize(other))
    ensures var later := RunFrom(Apply(h, Recording(record, now)), more).db;
            var a, b := Normalize(record), Normalize(other);
            RecordRun(later, other, again) ==
            (later,
             if SameButLatency(a, b) && (b.latency - a.latency) % 0x1_0000_0000 == 0
             then Ok(a.capture.runId) else Conflict)
  {
    var h' := Apply(h, Recording(record, now));
    var a, b := Normalize(record), Normalize(other);
    RunSurvives(h', more, a.capture.runId);
    assert h'.db.runs[a.capture.runId] == RowOf(a);
    Int32Congruence(b.latency, a.latency);
  }

  /** A record alone does not prove a reservation: one with an empty scope creates
      a run out of nothing. Among creations these are exactly the unreserved ones. */
  lemma EmptyScopeNeedsNoReservation(db: Database, record: Record, now: nat)
    requires RecordRun(db, record, now).1.Ok? && record.capture.runId !in db.runs
    ensures record.capture.bases == [] <==> Rows(db, record.capture.runId) == []
  {
    assert Live(Rows(db, record.capture.runId), record.capture.bases, now);
  }

  /** Called with such a record, the transaction asks for nothing else. */
  lemma EmptyScopeIsRecorded(db: Database, record: Record, now: nat)
    requires ValidRecord(Normalize(record)) && record.latency < 0x8000_0000 && record.capture.bases == []
    requires record.capture.runId !in db.runs && record.capture.runId !in db.reservations
    ensures RecordRun(db, record, now).1 == Ok(record.capture.runId)
    ensures record.capture.runId in RecordRun(db, record, now).0.runs
  {}
}
