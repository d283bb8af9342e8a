/** The report schema of the tracking writer: which raw telemetry reports are
    accepted, the first rule a refused report breaks, and the defaults that turn
    an accepted report into a complete normalized record. The declarative
    validation-library schema becomes one explicit pure function, `Validate`,
    that checks the keys in the order the schema declares them and stops at the
    first violation. */
module Schema {
  import opened Wrappers

  /** `coordinate.lat` must lie in [-LatBound, LatBound]. */
  const LatBound: real := 90.0
  /** `coordinate.lng` must lie in [-LngBound, LngBound]. */
  const LngBound: real := 180.0
  /** Largest magnitude the number rule accepts without `unsafe()`: the
      largest integer a double holds exactly, 2^53 - 1. */
  const MaxSafe: real := 9007199254740991.0
  /** Largest magnitude, in milliseconds from the epoch, of an instant a
      JavaScript date can hold (100 000 000 days). */
  const MaxTime: int := 8640000000000000
  /** Value of an absent `keyword`. */
  const DefaultKeyword: string := "0"
  /** Value of an absent `battery_level`. */
  const DefaultBatteryLevel: real := 0.0
  /** Value of an absent `args.altitude` and of an absent `args.sattelites`. */
  const DefaultArgNumber: real := 0.0

  // ---------------------------------------------------------------------------
  // Raw input: every key may be missing.

  /** A `date_time` as supplied: something the date rule reads as an instant
      (milliseconds from the epoch, which must still lie within the range a
      date can hold), or text it cannot read at all. */
  datatype RawDate = Instant(millis: int) | Unparsable(text: string)

  /** `args.charging` as supplied: left out, an explicit null, or a flag. */
  datatype RawCharging = Unset | SentNull | Given(on: bool)

  datatype RawCoordinate = RawCoordinate(lat: Option<real>, lng: Option<real>)

  /** The free-form `args` object; the key spelling `sattelites` is the
      schema's own. */
  datatype RawArgs = RawArgs(charging: RawCharging, altitude: Option<real>, sattelites: Option<real>)

  datatype RawReport = RawReport(
    keyword: Option<string>,
    dateTime: Option<RawDate>,
    coordinate: Option<RawCoordinate>,
    ignition: Option<bool>,
    speed: Option<real>,
    angle: Option<real>,
    batteryLevel: Option<real>,
    message: Option<string>,
    args: Option<RawArgs>)

  // ---------------------------------------------------------------------------
  // Normalized output: every field has a value.

  /** `args.charging` after defaulting: null stays null. */
  datatype Charging = ChargingNull | Flag(on: bool)

  datatype Coordinate = Coordinate(lat: real, lng: real)

  /** `args` after defaulting. An absent `args` becomes the empty object,
      whose children are NOT defaulted; a present one gets all three. */
  datatype Args = EmptyArgs | Args(charging: Charging, altitude: real, sattelites: real)

  datatype Report = Report(
    keyword: string,
    dateTime: int,
    coordinate: Coordinate,
    ignition: bool,
    speed: real,
    angle: real,
    batteryLevel: real,
    message: string,
    args: Args)

  // ---------------------------------------------------------------------------
  // Violations, named after the validation library's error types.

  /** The schema keys a violation can name; `LatKey` and `LngKey` stand for
      `coordinate.lat` and `coordinate.lng`, `AltitudeKey` and `SattelitesKey`
      for `args.altitude` and `args.sattelites`. */
  datatype Key =
    | KeywordKey | DateTimeKey | CoordinateKey | LatKey | LngKey
    | IgnitionKey | SpeedKey | AngleKey | BatteryLevelKey | MessageKey
    | AltitudeKey | SattelitesKey

  datatype Violation =
    | ObjectBase                          // object.base: the report is null, not an object
    | Required(key: Key)                  // any.required
    | StringEmpty(key: Key)               // string.empty
    | DateBase                            // date.base: not a valid date
    | NumberUnsafe(key: Key)              // number.unsafe: beyond 2^53 - 1 in magnitude
    | NumberMin(key: Key, limit: real)    // number.min
    | NumberMax(key: Key, limit: real)    // number.max
    | AnyInvalid(key: Key, value: real)   // any.invalid: a value the schema forbids

  /** The order in which the schema declares (and so checks) its keys; the
      children of `coordinate` and of `args` are checked where their parent
      stands. */
  const SchemaOrder: seq<Key> :=
    [KeywordKey, DateTimeKey, CoordinateKey, LatKey, LngKey,
     IgnitionKey, SpeedKey, AngleKey, BatteryLevelKey, MessageKey,
     AltitudeKey, SattelitesKey]

  // ---------------------------------------------------------------------------
  // The acceptance rule, stated declaratively.

  /** A supplied string must not be empty (the string rule refuses ""). */
  predicate NonEmpty(s: string) {
    |s| > 0
  }

  /** A number the number rule accepts without `unsafe()`. */
  predicate SafeNumber(x: real) {
    -MaxSafe <= x <= MaxSafe
  }

  /** An instant a date can hold. */
  predicate ValidDate(d: RawDate) {
    d.Instant? && -MaxTime <= d.millis <= MaxTime
  }

  /** A coordinate component is present, within [-bound, bound] and not 0. */
  predicate InRangeNonZero(x: Option<real>, bound: real) {
    x.Some? && -bound <= x.value <= bound && x.value != 0.0
  }

  /** A supplied optional number is safe. */
  predicate SafeIfGiven(x: Option<real>) {
    x.Some? ==> SafeNumber(x.value)
  }

  /** The reports the writer accepts: every required key present, the date
      readable and within range, both coordinates in range and non-zero, every
      number safe, supplied strings non-empty. */
  predicate Acceptable(raw: RawReport) {
    && (raw.keyword.Some? ==> NonEmpty(raw.keyword.value))
    && raw.dateTime.Some? && ValidDate(raw.dateTime.value)
    && raw.coordinate.Some?
    && InRangeNonZero(raw.coordinate.value.lat, LatBound)
    && InRangeNonZero(raw.coordinate.value.lng, LngBound)
    && raw.ignition.Some?
    && raw.speed.Some? && SafeNumber(raw.speed.value)
    && raw.angle.Some? && SafeNumber(raw.angle.value)
    && SafeIfGiven(raw.batteryLevel)
    && raw.message.Some? && NonEmpty(raw.message.value)
    && (raw.args.Some? ==> SafeIfGiven(raw.args.value.altitude) && SafeIfGiven(raw.args.value.sattelites))
  }

  // ---------------------------------------------------------------------------
  // The rule of each key, defined once; `None` means the key passes.

  /** `Joi.string()`, required or optional. */
  function StringRule(s: Option<string>, key: Key, required: bool): Option<Violation> {
    match s
    case None => if required then Some(Required(key)) else None
    case Some(v) => if NonEmpty(v) then None else Some(StringEmpty(key))
  }

  /** `Joi.number()`, required or optional: a supplied number must be safe. */
  function NumberRule(x: Option<real>, key: Key, required: bool): Option<Violation> {
    match x
    case None => if required then Some(Required(key)) else None
    case Some(v) => if SafeNumber(v) then None else Some(NumberUnsafe(key))
  }

  /** `Joi.number().required().min(-bound).max(bound).not(0)`. The forbidden
      value is looked at first, then the base number rule, then `min` and
      `max`. */
  function CoordinateRule(x: Option<real>, key: Key, bound: real): Option<Violation> {
    match x
    case None => Some(Required(key))
    case Some(v) =>
      if v == 0.0 then Some(AnyInvalid(key, 0.0))
      else if !SafeNumber(v) then Some(NumberUnsafe(key))
      else if v < -bound then Some(NumberMin(key, -bound))
      else if v > bound then Some(NumberMax(key, bound))
      else None
  }

  /** `Joi.date().required()`. */
  function DateRule(d: Option<RawDate>): Option<Violation> {
    match d
    case None => Some(Required(DateTimeKey))
    case Some(v) => if ValidDate(v) then None else Some(DateBase)
  }

  /** `.required()` on a key whose supplied values all pass. */
  function PresenceRule<T>(x: Option<T>, key: Key): Option<Violation> {
    if x.None? then Some(Required(key)) else None
  }

  /** What the rule for one key says about `raw`; the children of an object
      are only looked at when the object itself is present. */
  function KeyViolation(raw: RawReport, key: Key): Option<Violation> {
    match key
    case KeywordKey => StringRule(raw.keyword, KeywordKey, false)
    case DateTimeKey => DateRule(raw.dateTime)
    case CoordinateKey => PresenceRule(raw.coordinate, CoordinateKey)
    case LatKey =>
      if raw.coordinate.None? then None else CoordinateRule(raw.coordinate.value.lat, LatKey, LatBound)
    case LngKey =>
      if raw.coordinate.None? then None else CoordinateRule(raw.coordinate.value.lng, LngKey, LngBound)
    case IgnitionKey => PresenceRule(raw.ignition, IgnitionKey)
    case SpeedKey => NumberRule(raw.speed, SpeedKey, true)
    case AngleKey => NumberRule(raw.angle, AngleKey, true)
    case BatteryLevelKey => NumberRule(raw.batteryLevel, BatteryLevelKey, false)
    case MessageKey => StringRule(raw.message, MessageKey, true)
    case AltitudeKey =>
      if raw.args.None? then None else NumberRule(raw.args.value.altitude, AltitudeKey, false)
    case SattelitesKey =>
      if raw.args.None? then None else NumberRule(raw.args.value.sattelites, SattelitesKey, false)
  }

  /** The violation of the earliest key, from position `i` of the schema
      order on, whose rule fails. */
  function FirstFrom(raw: RawReport, i: nat): Option<Violation>
    decreases |SchemaOrder| - i
  {
    if i >= |SchemaOrder| then None
    else if KeyViolation(raw, SchemaOrder[i]).Some? then KeyViolation(raw, SchemaOrder[i])
    else FirstFrom(raw, i + 1)
  }

  /** The one violation a refused report is reported with. */
  function FirstViolation(raw: RawReport): (r: Option<Violation>)
    ensures r.None? <==> Acceptable(raw)
  {
    FirstFrom(raw, 0)
  }

  // ---------------------------------------------------------------------------
  // Validation and normalization.

  function NormalizeCharging(c: RawCharging): Charging {
    match c
    case Unset => Flag(false)
    case SentNull => ChargingNull
    case Given(b) => Flag(b)
  }

  /** Defaults of `args`: an absent object becomes the empty one, a present
      one has its three children filled in. */
  function NormalizeArgs(a: Option<RawArgs>): (r: Args)
    ensures a.None? <==> r == EmptyArgs
    ensures a.Some? && a.value.charging.Unset? ==> r.charging == Flag(false)
    ensures a.Some? && a.value.charging.SentNull? ==> r.charging == ChargingNull
    ensures a.Some? && a.value.charging.Given? ==> r.charging == Flag(a.value.charging.on)
    ensures a.Some? ==> r.altitude == a.value.altitude.GetOr(DefaultArgNumber)
    ensures a.Some? ==> r.sattelites == a.value.sattelites.GetOr(DefaultArgNumber)
  {
    match a
    case None => EmptyArgs
    case Some(ra) =>
      Args(NormalizeCharging(ra.charging),
           ra.altitude.GetOr(DefaultArgNumber),
           ra.sattelites.GetOr(DefaultArgNumber))
  }

  /** The normalized records: what `Validate` can produce. */
  predicate WellFormed(rep: Report) {
    && NonEmpty(rep.keyword)
    && -MaxTime <= rep.dateTime <= MaxTime
    && InRangeNonZero(Some(rep.coordinate.lat), LatBound)
    && InRangeNonZero(Some(rep.coordinate.lng), LngBound)
    && SafeNumber(rep.speed)
    && SafeNumber(rep.angle)
    && SafeNumber(rep.batteryLevel)
    && NonEmpty(rep.message)
    && (rep.args.Args? ==> SafeNumber(rep.args.altitude) && SafeNumber(rep.args.sattelites))
  }

  /** The normalized record of an accepted report: defaults for the keys
      left out, supplied values kept. */
  function Normalize(raw: RawReport): (rep: Report)
    requires Acceptable(raw)
    ensures WellFormed(rep)
  {
    Report(
      raw.keyword.GetOr(DefaultKeyword),
      raw.dateTime.value.millis,
      Coordinate(raw.coordinate.value.lat.value, raw.coordinate.value.lng.value),
      raw.ignition.value,
      raw.speed.value,
      raw.angle.value,
      raw.batteryLevel.GetOr(DefaultBatteryLevel),
      raw.message.value,
      NormalizeArgs(raw.args))
  }

  /** Validate-and-normalize: the key rules in schema order, stopping at the
      first refusal; then the report with every default filled in and every
      supplied value kept. */
  function Validate(raw: RawReport): (r: Result<Report, Violation>)
    ensures r.Success? <==> Acceptable(raw)
    ensures r.Failure? ==> FirstViolation(raw) == Some(r.error)
    ensures r.Success? ==> WellFormed(r.value)
    ensures r.Success? ==> r.value.keyword == raw.keyword.GetOr(DefaultKeyword)
    ensures r.Success? ==> r.value.batteryLevel == raw.batteryLevel.GetOr(DefaultBatteryLevel)
    ensures r.Success? ==> r.value.args == NormalizeArgs(raw.args)
    ensures r.Success? ==>
      && r.value.dateTime == raw.dateTime.value.millis
      && r.value.coordinate.lat == raw.coordinate.value.lat.value
      && r.value.coordinate.lng == raw.coordinate.value.lng.value
      && r.value.ignition == raw.ignition.value
      && r.value.speed == raw.speed.value
      && r.value.angle == raw.angle.value
      && r.value.message == raw.message.value
  {
    match FirstViolation(raw)
    case Some(v) => Failure(v)
    case None => Success(Normalize(raw))
  }

  // ---------------------------------------------------------------------------
  // Properties.

  /** The raw report that supplies every key of `rep` explicitly. */
  function ToRaw(rep: Report): RawReport {
    RawReport(
      Some(rep.keyword),
      Some(Instant(rep.dateTime)),
      Some(RawCoordinate(Some(rep.coordinate.lat), Some(rep.coordinate.lng))),
      Some(rep.ignition),
      Some(rep.speed),
      Some(rep.angle),
      Some(rep.batteryLevel),
      Some(rep.message),
      match rep.args
      case EmptyArgs => None
      case Args(c, alt, sat) =>
        Some(RawArgs(match c case ChargingNull => SentNull case Flag(b) => Given(b), Some(alt), Some(sat))))
  }

  /** Every well-formed record is accepted as it stands and comes back
      unchanged: defaults never override supplied values. */
  lemma ValidateToRaw(rep: Report)
    requires WellFormed(rep)
    ensures Validate(ToRaw(rep)) == Success(rep)
  {
  }

  /** Normalization is idempotent: validating an accepted report's normalized
      form again gives the same record. */
  lemma NormalizeIdempotent(raw: RawReport)
    requires Acceptable(raw)
    ensures Validate(ToRaw(Validate(raw).value)) == Validate(raw)
  {
    ValidateToRaw(Validate(raw).value);
  }

  /** A fix at latitude or longitude exactly 0 is refused whatever the other
      keys hold. */
  lemma ZeroCoordinateRefused(raw: RawReport)
    requires raw.coordinate.Some?
    requires raw.coordinate.value.lat == Some(0.0) || raw.coordinate.value.lng == Some(0.0)
    ensures Validate(raw).Failure?
  {
  }

  /** Only the optional keys may be left out: dropping any required key of an
      accepted report makes it refused with `Required` for that key. */
  lemma MissingRequiredRefused(raw: RawReport)
    requires Acceptable(raw)
    ensures Validate(raw.(message := None)) == Failure(Required(MessageKey))
    ensures Validate(raw.(angle := None)) == Failure(Required(AngleKey))
    ensures Validate(raw.(speed := None)) == Failure(Required(SpeedKey))
    ensures Validate(raw.(ignition := None)) == Failure(Required(IgnitionKey))
    ensures Validate(raw.(coordinate := None)) == Failure(Required(CoordinateKey))
    ensures Validate(raw.(dateTime := None)) == Failure(Required(DateTimeKey))
  {
  }

  /** The minimal report: only the required keys, so every default applies and
      `args` becomes the empty object. */
  lemma MinimalReportDefaults(ms: int, lat: real, lng: real, ignition: bool, speed: real, angle: real, message: string)
    requires -MaxTime <= ms <= MaxTime
    requires InRangeNonZero(Some(lat), LatBound) && InRangeNonZero(Some(lng), LngBound)
    requires SafeNumber(speed) && SafeNumber(angle)
    requires NonEmpty(message)
    ensures
      var raw := RawReport(None, Some(Instant(ms)), Some(RawCoordinate(Some(lat), Some(lng))),
                           Some(ignition), Some(speed), Some(angle), None, Some(message), None);
      Validate(raw) == Success(Report(DefaultKeyword, ms, Coordinate(lat, lng), ignition, speed, angle,
                                      DefaultBatteryLevel, message, EmptyArgs))
  {
  }

  /** Numbers beyond 2^53 - 1 in magnitude are refused wherever the schema
      takes a number at the top level, even in the optional `battery_level`. */
  lemma UnsafeNumberRefused(raw: RawReport, x: real)
    requires Acceptable(raw)
    requires !SafeNumber(x)
    ensures Validate(raw.(speed := Some(x))) == Failure(NumberUnsafe(SpeedKey))
    ensures Validate(raw.(angle := Some(x))) == Failure(NumberUnsafe(AngleKey))
    ensures Validate(raw.(batteryLevel := Some(x))) == Failure(NumberUnsafe(BatteryLevelKey))
  {
  }

  /** The same bound holds inside a present `args`. */
  lemma UnsafeArgNumberRefused(raw: RawReport, x: real)
    requires Acceptable(raw)
    requires raw.args.Some?
    requires !SafeNumber(x)
    ensures Validate(raw.(args := Some(raw.args.value.(altitude := Some(x))))) == Failure(NumberUnsafe(AltitudeKey))
    ensures Validate(raw.(args := Some(raw.args.value.(sattelites := Some(x))))) == Failure(NumberUnsafe(SattelitesKey))
  {
  }

  /** A date outside the range a date can hold is refused like unreadable
      text. */
  lemma DateOutOfRangeRefused(raw: RawReport, ms: int)
    requires Acceptable(raw)
    requires ms < -MaxTime || MaxTime < ms
    ensures Validate(raw.(dateTime := Some(Instant(ms)))) == Failure(DateBase)
  {
  }
}
