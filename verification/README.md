# Tracking writer model (db71)

A Dafny model of the telemetry tracking module `class/db71.js`. The module
has three pieces, and the model keeps them apart:

- **Schema** (`schema.dfy`). The declarative report schema becomes an explicit
  pure function `Validate`. It takes a raw report whose keys may each be
  missing, checks the keys in the order the schema declares them and stops at
  the first violation (the validation library's default early abort). On
  success it returns the normalized report with every default filled in.
- **Tracking** (`tracking.dfy`). This is the writer. The tracking table is a
  `map<int, Row>` keyed by device id. `Write` validates the report. A refused
  report leaves the table unchanged and records the first violation. An
  accepted report is upserted: the device's row is inserted, or all ten data
  columns are overwritten. `lat` comes from `coordinate.lat`, `lon` from
  `coordinate.lng`, and `args` is stored in its serialized form. A statement
  the database does not run also leaves the table unchanged; the caller is
  never told. `WriteAll` applies a sequence of calls, the way the database
  would apply them one after another.
- **Devices** (`devices.dfy`). `GetDeviceUid` looks the IMEI up in a
  `map<string, int>` directory. It returns the stored uid on a hit and the
  sentinel -1 on a miss or a failed lookup.

`wrappers.dfy` holds the `Option` and `Result` types the model uses.

Inputs are modelled as already-typed optional fields. `date_time` is either
an instant, in milliseconds, or text that does not parse as a date. A parse
failure, or an instant out of a date's range, is refused with `DateBase`. The database and the network become
parameters: `persisted` says whether the upsert statement ran, and
`reachable` says whether the directory could be read.

Details of the code the model keeps:

- When `args` is absent it becomes the literal `{}` (`class/db71.js:23`); its
  children are not defaulted (`Schema.MinimalReportDefaults`).
- The `args` key is spelled `sattelites`, as in `class/db71.js:22`.
- A string rule of the validation library refuses the empty string unless it
  is explicitly allowed. So a supplied empty `keyword` and an empty `message`
  are refused (`StringEmpty`).
- A number rule refuses a value beyond 2^53 - 1 in magnitude unless it is
  marked unsafe, and the schema never does so. So `speed`, `angle`,
  `battery_level`, `args.altitude` and `args.sattelites` must be safe numbers
  (`NumberUnsafe`). For `lat` and `lng` the forbidden value 0 is looked at
  first, then safety, then the range.
- A date must be an instant a JavaScript date can hold: at most 8.64e15
  milliseconds from the epoch either way; beyond that it is refused like
  unreadable text (`DateBase`).
- The top-level schema is not required. An undefined report passes
  validation with an undefined value, and the write then throws at the caller
  while reading `value.keyword` (`class/db71.js:79`), before any statement is
  sent. A null report is refused as not an object (`Tracking.WritePayload`).
- `write` does not check its `uid`. A report for the sentinel uid -1 is stored
  under key -1, like any other id.

## Model

| member | source | states |
|---|---|---|
| Schema.FirstViolation | class/db71.js:7-24 | walking the schema keys in declared order finds no violation exactly when every required key is present, the date is a representable instant, lat is in [-90, 90] and lng in [-180, 180] with neither equal to 0, every supplied number is within 2^53 - 1 in magnitude, and supplied strings are non-empty |
| Schema.Validate | class/db71.js:7-24 | a report is accepted iff it meets the acceptance rule; a refused one is reported with the violation of the earliest failing key only; an accepted one is a well-formed record (safe numbers, in-range coordinates, non-empty strings) with keyword defaulted to "0", battery_level to 0, args normalized, and every supplied value kept |
| Schema.Normalize | class/db71.js:7-24 | the record built from an accepted report is well formed: safe numbers, a representable date, in-range non-zero coordinates, non-empty strings |
| Schema.NormalizeArgs | class/db71.js:19-23 | absent args becomes the empty object; in a present args an absent charging becomes false, an explicit null charging stays null, a given flag is kept, and absent altitude and sattelites become 0 |
| Schema.ValidateToRaw | class/db71.js:7-24 | a well-formed record that supplies every key is accepted and comes back unchanged, so defaults never override supplied values |
| Schema.NormalizeIdempotent | class/db71.js:7-24 | validating the normalized form of an accepted report again gives the same record |
| Schema.ZeroCoordinateRefused | class/db71.js:11-12 | a report with lat or lng exactly 0 is refused, whatever its other keys hold |
| Schema.MissingRequiredRefused | class/db71.js:9-18 | removing date_time, coordinate, ignition, speed, angle or message from an accepted report makes it refused with "required" for that key |
| Schema.MinimalReportDefaults | class/db71.js:8-23 | a report with only the required keys, each acceptable, normalizes to keyword "0", battery_level 0 and args as the empty object |
| Schema.UnsafeNumberRefused | class/db71.js:15-17 | putting a number beyond 2^53 - 1 in magnitude into speed, angle or battery_level of an accepted report makes it refused with number.unsafe for that key |
| Schema.UnsafeArgNumberRefused | class/db71.js:21-22 | putting such a number into args.altitude or args.sattelites of an accepted report with args makes it refused with number.unsafe for that key |
| Schema.DateOutOfRangeRefused | class/db71.js:9 | putting an instant beyond 8.64e15 ms from the epoch into date_time of an accepted report makes it refused with date.base |
| Tracking.SerializeArgs | class/db71.js:85 | the stored args document parses back to the normalized args, and it is the empty document exactly for the empty args |
| Tracking.ToRow | class/db71.js:78-88 | the statement parameters read back as the normalized report, with lat from coordinate.lat and lon from coordinate.lng |
| Tracking.ToRowInjective | class/db71.js:78-88 | different normalized reports are stored as different rows |
| Tracking.Upsert | class/db71.js:63-77 | the key set becomes the old key set plus uid, the uid's row becomes the new row whether or not one existed, and every other row is unchanged |
| Tracking.Write | class/db71.js:54-95 | a refused report leaves the table unchanged and carries its first violation; a report is committed iff it is accepted and the statement runs; a failed statement leaves the table unchanged; a committed write adds uid to the key set, stores the normalized report for uid and keeps every other row |
| Tracking.WritePayload | class/db71.js:54-95 | an undefined report throws at the caller and a null one is refused as not an object, both leaving the table unchanged; a report object is written as by Write |
| Tracking.CommittedRowColumns | class/db71.js:78-88 | after a committed write, each of the ten columns of the device's row holds the report's value or its default, with lat from coordinate.lat and lon from coordinate.lng |
| Tracking.WriteOverwrites | class/db71.js:66-77 | a committed write leaves exactly its own row, whatever an earlier write for the same device stored: full replace, not merge |
| Tracking.WriteIdempotent | class/db71.js:63-77 | writing the same report twice gives the table one write gives |
| Tracking.WritesToDifferentDevicesCommute | class/db71.js:63-77 | writes for different device ids give the same table in either order |
| Tracking.WriteAllLastWriterWins | class/db71.js:63-93 | after any sequence of writes, a device has a row iff it had one or some write committed for it, and that row holds the last report committed for it, or its original row when none was |
| Tracking.WriteAllKeys | class/db71.js:63-66 | after any sequence of writes, the devices with a row are those with a row before plus those some write committed for |
| Devices.Lookup | class/db71.js:35-42 | the lookup finds a uid iff the directory can be read and holds the key, and then it is the stored uid |
| Devices.GetDeviceUid | class/db71.js:32-46 | the resolver returns the stored uid on a hit and -1 when the key is absent or the lookup fails |
| Devices.SentinelMeansNoHit | class/db71.js:36-42 | when stored uids are non-negative, the result is a uid iff the lookup hit, and -1 iff it missed or failed |
| Devices.FailureLooksLikeMiss | class/db71.js:40-42 | a failed lookup gives the same result as a lookup of an unknown key |

## Left out

- Connection pools: creating a `Pool` per call and ending it on every path (`class/db71.js:33`, `44`, `62`, `90`). This is resource plumbing with no effect on the table or the result.
- Logging (`class/db71.js:41`, `58-59`, `61`, `92`). Logging only; the first violation a log line would print is kept as `Rejected(reason)`.
- The asynchronous callback and the swallowed database error (`class/db71.js:63`, `89-93`). A failure is the `persisted` parameter and leaves the table unchanged. Racing writes are modelled only as some order of calls (`WriteAll`).
- The validation library's coercions: numeric strings to numbers, date strings to dates, JSON text to an object for the report, `coordinate` and `args`, and `null` for keys other than `charging`. Inputs are typed optional fields, so these cases cannot be written down.
- The unknown-key policy. The library refuses keys the schema does not name, at the top level, inside `coordinate` and inside `args`. The raw report type has no room for such keys.
- The error message text. A violation is its error type plus key path.
- Floating point. Numbers are `real`; the range checks, the safe-number bound and equality with 0 are modelled, while NaN, infinities, `-0` and rounding are not.
- The connection pool created before the throw on an undefined report (`class/db71.js:62`) is never ended; pools are not modelled.
- The text of `JSON.stringify(value.args)` (`class/db71.js:85`). The column holds a member-name-to-value document, so key order and number formatting are not modelled.
- Several directory rows for one device key, where the SQL query takes `rows[0]`. The directory is a map, so each key has one uid.
- The `config` and `./data` modules (`class/db71.js:3`, `5`) are not part of this model.
