/** The tracking table and the report writer. The table keeps one row per
    device id; `Write` validates a raw report and, when it is accepted, upserts
    the row for the device: inserted when the id is new, every data column
    overwritten when it is not. A refused report or a failed statement leaves
    the table as it was. */
module Tracking {
  import opened Wrappers
  import opened Schema

  // ---------------------------------------------------------------------------
  // The stored form of `args`.

  /** A scalar member of the stored `args` document. */
  datatype Scalar = JNull | JBool(b: bool) | JNumber(x: real)

  /** The serialized `args` object: member name to value. The textual layout
      (key order, number formatting) is not modelled. */
  type ArgsDoc = map<string, Scalar>

  function ChargingToScalar(c: Charging): Scalar {
    match c
    case ChargingNull => JNull
    case Flag(b) => JBool(b)
  }

  /** Reads a stored `args` document back; `None` for documents `SerializeArgs`
      never produces. */
  function ParseArgs(d: ArgsDoc): Option<Args> {
    if d == map[] then Some(EmptyArgs)
    else if d.Keys == {"charging", "altitude", "sattelites"}
         && !d["charging"].JNumber? && d["altitude"].JNumber? && d["sattelites"].JNumber?
    then
      var c := if d["charging"].JNull? then ChargingNull else Flag(d["charging"].b);
      Some(Args(c, d["altitude"].x, d["sattelites"].x))
    else None
  }

  /** The document stored in the `args` column; it loses nothing, since
      parsing it gives the normalized `args` back. */
  function SerializeArgs(a: Args): (d: ArgsDoc)
    ensures ParseArgs(d) == Some(a)
    ensures a.EmptyArgs? <==> d == map[]
  {
    match a
    case EmptyArgs => map[]
    case Args(c, alt, sat) =>
      var d := map["charging" := ChargingToScalar(c), "altitude" := JNumber(alt), "sattelites" := JNumber(sat)];
      assert "charging" in d && d.Keys == {"charging", "altitude", "sattelites"};
      d
  }

  // ---------------------------------------------------------------------------
  // Rows and the table.

  /** The ten data columns of a tracking row; the device id is its key in the
      table. */
  datatype Row = Row(
    keyword: string,
    dateTime: int,
    speed: real,
    angle: real,
    batteryLevel: real,
    message: string,
    args: ArgsDoc,
    lat: real,
    lon: real,
    ignition: bool)

  /** The tracking table: device id to its one row. */
  type Table = map<int, Row>

  /** Reads a row back as a normalized report. */
  function RowToReport(row: Row): Option<Report> {
    match ParseArgs(row.args)
    case None => None
    case Some(a) =>
      Some(Report(row.keyword, row.dateTime, Coordinate(row.lat, row.lon), row.ignition,
                  row.speed, row.angle, row.batteryLevel, row.message, a))
  }

  /** The statement parameters of a normalized report: `lat` from
      `coordinate.lat`, `lon` from `coordinate.lng`, `args` serialized. Reading
      the row back gives the report, so no column is lost or mixed up. */
  function ToRow(rep: Report): (row: Row)
    ensures RowToReport(row) == Some(rep)
  {
    Row(rep.keyword, rep.dateTime, rep.speed, rep.angle, rep.batteryLevel, rep.message,
        SerializeArgs(rep.args), rep.coordinate.lat, rep.coordinate.lng, rep.ignition)
  }

  /** Different reports are stored as different rows. */
  lemma ToRowInjective(a: Report, b: Report)
    requires ToRow(a) == ToRow(b)
    ensures a == b
  {
    assert Some(a) == RowToReport(ToRow(a)) == RowToReport(ToRow(b)) == Some(b);
  }

  /** Insert-or-update keyed by device id: the row for `uid` becomes `row`
      whether or not one existed, and every other row stays. */
  function Upsert(t: Table, uid: int, row: Row): (t': Table)
    ensures t'.Keys == t.Keys + {uid}
    ensures uid in t' && t'[uid] == row
    ensures forall d :: d in t && d != uid ==> t'[d] == t[d]
  {
    t[uid := row]
  }

  // ---------------------------------------------------------------------------
  // The writer.

  /** How one call ended: refused by the schema (with the first violation),
      committed, refused by the database (logged and swallowed), or thrown at
      the caller before any statement was sent. */
  datatype Outcome = Rejected(reason: Violation) | Committed | PersistFailed | Threw

  datatype WriteEffect = WriteEffect(table: Table, outcome: Outcome)

  /** One call of the writer. `persisted` stands for whether the database runs
      the statement; the caller never learns the outcome. */
  function Write(t: Table, uid: int, raw: RawReport, persisted: bool): (e: WriteEffect)
    ensures e.outcome.Rejected? <==> !Acceptable(raw)
    ensures e.outcome.Rejected? ==> FirstViolation(raw) == Some(e.outcome.reason)
    ensures e.outcome.Committed? <==> Acceptable(raw) && persisted
    ensures !e.outcome.Committed? ==> e.table == t
    ensures e.outcome.Committed? ==>
      && e.table.Keys == t.Keys + {uid}
      && RowToReport(e.table[uid]) == Some(Validate(raw).value)
      && (forall d :: d in t && d != uid ==> e.table[d] == t[d])
  {
    match Validate(raw)
    case Failure(v) => WriteEffect(t, Rejected(v))
    case Success(rep) =>
      if persisted then WriteEffect(Upsert(t, uid, ToRow(rep)), Committed)
      else WriteEffect(t, PersistFailed)
  }

  /** What the writer is handed in place of the report. */
  datatype Payload = Undefined | Null | Record(raw: RawReport)

  /** One call of the writer on any payload. The top-level schema is not
      required, so an undefined payload passes validation with an undefined
      value, and reading its `keyword` throws before a statement is sent; a
      null payload is refused as not an object. */
  function WritePayload(t: Table, uid: int, data: Payload, persisted: bool): (e: WriteEffect)
    ensures !data.Record? ==> e.table == t
    ensures data.Undefined? <==> e.outcome.Threw?
    ensures data.Null? ==> e.outcome == Rejected(ObjectBase)
    ensures data.Record? ==> e == Write(t, uid, data.raw, persisted)
  {
    match data
    case Undefined => WriteEffect(t, Threw)
    case Null => WriteEffect(t, Rejected(ObjectBase))
    case Record(raw) => Write(t, uid, raw, persisted)
  }

  /** The row a committed write leaves for its device has the report's
      coordinate in `lat`/`lon`, every default applied and supplied values
      kept. */
  lemma CommittedRowColumns(t: Table, uid: int, raw: RawReport)
    requires Acceptable(raw)
    ensures uid in Write(t, uid, raw, true).table
    ensures
      var row := Write(t, uid, raw, true).table[uid];
      && row.lat == raw.coordinate.value.lat.value
      && row.lon == raw.coordinate.value.lng.value
      && row.keyword == raw.keyword.GetOr(DefaultKeyword)
      && row.batteryLevel == raw.batteryLevel.GetOr(DefaultBatteryLevel)
      && row.args == SerializeArgs(NormalizeArgs(raw.args))
      && row.dateTime == raw.dateTime.value.millis
      && row.speed == raw.speed.value
      && row.angle == raw.angle.value
      && row.message == raw.message.value
      && row.ignition == raw.ignition.value
  {
  }

  /** Full replace, not merge: a committed write leaves exactly its own row,
      whatever an earlier write for the same device stored. */
  lemma WriteOverwrites(t: Table, uid: int, r1: RawReport, p1: bool, r2: RawReport)
    requires Acceptable(r2)
    ensures Write(Write(t, uid, r1, p1).table, uid, r2, true).table == Write(t, uid, r2, true).table
  {
  }

  /** Writing the same report twice leaves the table a single write leaves. */
  lemma WriteIdempotent(t: Table, uid: int, raw: RawReport, persisted: bool)
    ensures Write(Write(t, uid, raw, persisted).table, uid, raw, persisted).table
         == Write(t, uid, raw, persisted).table
  {
  }

  /** Writes for different devices do not interfere: their order does not
      matter. */
  lemma WritesToDifferentDevicesCommute(t: Table, u1: int, r1: RawReport, p1: bool,
                                        u2: int, r2: RawReport, p2: bool)
    requires u1 != u2
    ensures Write(Write(t, u1, r1, p1).table, u2, r2, p2).table
         == Write(Write(t, u2, r2, p2).table, u1, r1, p1).table
  {
  }

  // ---------------------------------------------------------------------------
  // A history of calls.

  /** One call of the writer as the database applies it. */
  datatype Call = Call(uid: int, raw: RawReport, persisted: bool)

  predicate CommitsFor(c: Call, uid: int) {
    c.uid == uid && c.persisted && Acceptable(c.raw)
  }

  /** The table after applying `calls` in order. */
  function WriteAll(t: Table, calls: seq<Call>): Table {
    if |calls| == 0 then t
    else
      var last := calls[|calls| - 1];
      Write(WriteAll(t, calls[..|calls| - 1]), last.uid, last.raw, last.persisted).table
  }

  /** The normalized report of the last call in `calls` that commits for
      `uid`, if any. */
  function LastCommitted(calls: seq<Call>, uid: int): Option<Report> {
    if |calls| == 0 then None
    else
      var last := calls[|calls| - 1];
      if CommitsFor(last, uid) then Some(Validate(last.raw).value)
      else LastCommitted(calls[..|calls| - 1], uid)
  }

  /** Last writer wins, per device: after any sequence of calls the row of a
      device holds the last report committed for it, or its original row when
      no call committed for it; a device has a row exactly when it had one or
      some call committed for it. */
  lemma {:induction false} WriteAllLastWriterWins(t: Table, calls: seq<Call>, uid: int)
    ensures uid in WriteAll(t, calls) <==> uid in t || LastCommitted(calls, uid).Some?
    ensures LastCommitted(calls, uid).Some? ==>
      WriteAll(t, calls)[uid] == ToRow(LastCommitted(calls, uid).value)
    ensures LastCommitted(calls, uid).None? && uid in t ==> WriteAll(t, calls)[uid] == t[uid]
  {
    if |calls| > 0 {
      WriteAllLastWriterWins(t, calls[..|calls| - 1], uid);
    }
  }

  /** The devices with a row after a sequence of calls are the ones with a row
      before plus those some call committed for. */
  lemma {:induction false} WriteAllKeys(t: Table, calls: seq<Call>)
    ensures WriteAll(t, calls).Keys
         == t.Keys + set i | 0 <= i < |calls| && CommitsFor(calls[i], calls[i].uid) :: calls[i].uid
  {
    if |calls| > 0 {
      var init := calls[..|calls| - 1];
      WriteAllKeys(t, init);
      assert forall i :: 0 <= i < |init| ==> init[i] == calls[i];
    }
  }
}
