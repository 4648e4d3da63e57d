/** What becomes of a capture that is recorded in time, late, or not at all
    (internal/agents/execution_store.go). The conditions are those a caller sees:
    the record's fields, the clock and the transactions in between. */
module ReceiptProgress {
  import opened Text
  import opened Receipts

  /** 24 hours in nanoseconds. */
  const DAY: nat := 86_400_000_000_000

  // ---------------------------------------------------------------------
  // Records
  // ---------------------------------------------------------------------

  /** A record that can be stored, apart from its scope. */
  predicate WellFormed(r: Record) {
    && r.capture.runId != 0 && r.capture.capturedAt >= 500
    && (r.details.origin == "HTTP" || r.details.origin == "DISCORD")
    && r.details.subject != "" && r.details.requestDigest != ""
    && (match r.details.error
        case None => r.details.outcome != CompletionFailed
        case Some(text) => r.details.outcome == CompletionFailed && text != "" && ByteLen(text) <= 1_000)
    && |r.details.toolCalls| <= 256 && |r.details.citations| <= 256
    && (forall key :: key in r.details.usage ==> key != "" && r.details.usage[key] >= 0)
    && r.latency >= 0
  }

  /** `stored` is `t` to the nearest microsecond. */
  predicate Rounded(t: nat, stored: nat) {
    stored % 1_000 == 0 && stored <= t + 500 && t < stored + 500
  }

  lemma MicrosRounds(t: nat)
    ensures Rounded(t, Micros(t)) && (t >= 500 ==> Micros(t) != 0)
  {
    if t != 0 {
      var q, r := (t + 500) / 1_000, (t + 500) % 1_000;
      assert t + 500 == 1_000 * q + r;
      assert (q * 1_000) % 1_000 == 0;
    }
  }

  lemma TextIsNotEmpty(s: string)
    ensures s != "" <==> ByteLen(s) >= 1
  {}

  /** Records are refused as invalid exactly when they are not well-formed. */
  lemma InvalidExactly(db: Database, record: Record, now: nat)
    ensures RecordRun(db, record, now).1 == Invalid <==> !WellFormed(record)
    ensures !WellFormed(record) ==> RecordRun(db, record, now).0 == db
  {
    MicrosRounds(record.capture.capturedAt);
    if record.details.error.Some? { TextIsNotEmpty(record.details.error.value); }
  }

  // ---------------------------------------------------------------------
  // A reservation and what follows it
  // ---------------------------------------------------------------------

  /** A transaction that neither releases the run nor records it. */
  predicate Spares(step: Step, id: Id) {
    match step
    case Releasing(other) => other != id
    case Recording(record, _) => record.capture.runId != id
    case _ => true
  }

  /** The run was captured and has been left alone since. */
  ghost predicate Reserved(h: History, capture: Capture) {
    && capture.runId in h.captured && h.captured[capture.runId] == capture && capture.bases != []
    && capture.runId !in h.created && capture.runId !in h.db.runs
    && (h.clock < capture.capturedAt + DAY ==>
          capture.runId in h.db.reservations && WholeScope(h.db.reservations[capture.runId], capture))
  }

  /** One row for each captured knowledge base, in order, all with the same expiry. */
  ghost predicate WholeScope(rows: seq<Row>, capture: Capture) {
    && |rows| == |capture.bases|
    && forall i :: 0 <= i < |rows| ==>
         rows[i] == Row(capture.bases[i].position, capture.bases[i].id, capture.bases[i].wiki, capture.capturedAt + DAY)
  }

  lemma CapturedIsReserved(h: History, capture: Capture)
    requires Inv(h) && Enabled(h, Capturing(capture))
    ensures Reserved(Apply(h, Capturing(capture)), capture)
  {
    assert forall id :: id in h.db.runs ==> Backed(h, id);
  }

  lemma SparedStaysReserved(h: History, capture: Capture, step: Step)
    requires Reserved(h, capture) && Enabled(h, step) && Spares(step, capture.runId)
    ensures Reserved(Apply(h, step), capture)
  {
    if step.Sweeping? && step.now < capture.capturedAt + DAY {
      SweptIsWhole(h.db.reservations[capture.runId], capture.runId, step.victims, step.now, capture.capturedAt + DAY);
    }
  }

  /** After its capture, and until it is released or recorded, a run is reserved in
      every reachable state. */
  lemma {:induction false} CaptureLasts(steps: seq<Step>, k: nat, capture: Capture)
    requires EnabledAll(steps) && k < |steps| && steps[k] == Capturing(capture)
    requires forall i :: k < i < |steps| ==> Spares(steps[i], capture.runId)
    ensures Reserved(Run(steps), capture)
    decreases |steps|
  {
    var before, last := steps[..|steps| - 1], |steps| - 1;
    if k == last {
      HistoryIsSound(before);
      CapturedIsReserved(Run(before), capture);
    } else {
      CaptureLasts(before, k, capture);
      SparedStaysReserved(Run(before), capture, steps[last]);
    }
  }

  // ---------------------------------------------------------------------
  // Recording it
  // ---------------------------------------------------------------------

  /** What a stored run keeps of its record. */
  ghost predicate StoredAs(record: Record, stored: Stored) {
    && stored.head == record.capture.head && stored.bases == record.capture.bases
    && stored.details == record.details && stored.latency == record.latency
    && Rounded(record.capture.capturedAt, stored.createdAt)
    && stored.completedAt >= stored.createdAt
    && (Rounded(record.completedAt, stored.completedAt) || stored.completedAt == stored.createdAt)
  }

  /** The database after a record was stored. */
  ghost predicate Recorded(db: Database, record: Record, db': Database) {
    var id := record.capture.runId;
    && db'.wikis == db.wikis && db'.reservations == db.reservations - {id}
    && db'.runs.Keys == db.runs.Keys + {id} && StoredAs(record, db'.runs[id])
    && forall other :: other in db.runs ==> db'.runs[other] == db.runs[other]
  }

  lemma RowIsStored(record: Record)
    ensures StoredAs(record, RowOf(Normalize(record)))
  {
    MicrosRounds(record.capture.capturedAt);
    MicrosRounds(record.completedAt);
  }

  /** Every captured wiki still exists. */
  predicate WikisPresent(db: Database, capture: Capture) {
    forall i :: 0 <= i < |capture.bases| ==> (capture.bases[i].id, capture.bases[i].wiki) in db.wikis
  }

  lemma ReservedIsRecorded(h: History, record: Record, now: nat)
    requires Reserved(h, record.capture) && h.clock <= now < record.capture.capturedAt + DAY && WellFormed(record)
    requires WikisPresent(h.db, record.capture)
    ensures var (db, result) := RecordRun(h.db, record, now);
            if record.latency >= 0x8000_0000 then result == Rejected && db == h.db
            else result == Ok(record.capture.runId) && Recorded(h.db, record, db)
  {
    var rows := Rows(h.db, record.capture.runId);
    InvalidExactly(h.db, record, now);
    RowIsStored(record);
    forall i | 0 <= i < |rows| ensures LiveRow(rows[i], record.capture.bases[i], now) {}
  }

  lemma LateIsRefused(h: History, record: Record, now: nat)
    requires Inv(h) && Reserved(h, record.capture) && WellFormed(record)
    requires now >= record.capture.capturedAt + DAY || !WikisPresent(h.db, record.capture)
    ensures RecordRun(h.db, record, now) == (h.db, Unavailable)
  {
    InvalidExactly(h.db, record, now);
    var id := record.capture.runId;
    var rows := Rows(h.db, id);
    if rows != [] && now >= record.capture.capturedAt + DAY {
      assert Kept(h, id);
      assert !LiveRow(rows[0], record.capture.bases[0], now);
    }
  }

  /** In every history: a run that was captured, and neither released nor recorded
      since, is stored by a well-formed record of that capture that comes within 24
      hours while its wikis exist, with the capture's head and scope and the record's
      details. One that comes later, or whose wikis are gone, is refused and changes
      nothing, as is a latency that the column cannot hold. */
  lemma CapturedRunsAreRecorded(steps: seq<Step>, k: nat, record: Record, now: nat)
    requires EnabledAll(steps) && k < |steps| && steps[k] == Capturing(record.capture)
    requires forall i :: k < i < |steps| ==> Spares(steps[i], record.capture.runId)
    requires WellFormed(record) && Run(steps).clock <= now
    ensures var before := Run(steps).db;
            var (db, result) := RecordRun(before, record, now);
            if now >= record.capture.capturedAt + 86_400_000_000_000 || !WikisPresent(before, record.capture)
            then result == Unavailable && db == before
            else if record.latency >= 0x8000_0000 then result == Rejected && db == before
            else result == Ok(record.capture.runId) && Recorded(before, record, db)
  {
    CaptureLasts(steps, k, record.capture);
    HistoryIsSound(steps);
    if now >= record.capture.capturedAt + DAY || !WikisPresent(Run(steps).db, record.capture) {
      LateIsRefused(Run(steps), record, now);
    } else {
      ReservedIsRecorded(Run(steps), record, now);
    }
  }

  // ---------------------------------------------------------------------
  // Releasing it
  // ---------------------------------------------------------------------

  /** The run was captured once, and nothing is reserved for it. */
  ghost predicate Unreserved(h: History, id: Id) {
    id in h.captured && id !in h.db.reservations
  }

  lemma UnreservedStays(h: History, id: Id, step: Step)
    requires Unreserved(h, id) && Enabled(h, step)
    ensures Unreserved(Apply(h, step), id)
  {}

  lemma {:induction false} ReleaseLasts(steps: seq<Step>, k: nat, id: Id)
    requires EnabledAll(steps) && k < |steps| && steps[k] == Releasing(id) && id != 0
    requires id in Run(steps[..k]).captured
    ensures Unreserved(Run(steps), id)
    decreases |steps|
  {
    var before, last := steps[..|steps| - 1], |steps| - 1;
    if k < last {
      assert before[..k] == steps[..k];
      ReleaseLasts(before, k, id);
      UnreservedStays(Run(before), id, steps[last]);
    }
  }

  /** A captured run that was released is never recorded any more, unless that had
      happened before. */
  lemma ReleasedRunsAreRefused(steps: seq<Step>, k: nat, record: Record, now: nat)
    requires EnabledAll(steps) && k < |steps| && steps[k] == Releasing(record.capture.runId)
    requires record.capture.runId in Run(steps[..k]).captured
    requires WellFormed(record) && record.capture.bases != [] && record.capture.runId !in Run(steps).db.runs
    ensures RecordRun(Run(steps).db, record, now) == (Run(steps).db, Unavailable)
  {
    ReleaseLasts(steps, k, record.capture.runId);
    InvalidExactly(Run(steps).db, record, now);
  }

  // ---------------------------------------------------------------------
  // Sweeping
  // ---------------------------------------------------------------------

  /** A sweep removes exactly the chosen rows that have expired. */
  lemma {:induction false} SweepIsExact(rows: seq<Row>, id: Id, victims: set<(Id, int)>, now: nat, row: Row)
    ensures row in Swept(rows, id, victims, now) <==>
            row in rows && !((id, row.position) in victims && row.expires <= now)
  {
    if rows != [] {
      SweepIsExact(rows[1..], id, victims, now, row);
      assert rows == [rows[0]] + rows[1..];
    }
  }
}
