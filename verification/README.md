# Company enrichment job — a Dafny model

`qubit.py` is a single batch job. It reads `(company_id, company_linkedin_url)` rows from the
`company_data` table. For each row it posts the URL to a company-profile API and maps the JSON
answer to a flat record of twelve attributes. It inserts each record into the
`company_enriched_data` table, keyed by `company_id`. The job commits once at the end. If an
exception escapes the loop, it rolls back instead. The connection is closed on every path.

The model has six modules:

- `Wrappers`: the `Option` type.
- `Json`: decoded JSON values, Python truthiness, and `dict.get` with and without a default.
- `Text`: Python's `str.strip()`. The whitespace set is exactly what `str.isspace()` accepts, given
  by code point. It comes with the index-based method CPython uses to compute it, and with a
  proof that the strip-span description determines the result.
- `Client`: `enrich_company_data` after the HTTP request. This is `safe_strip`, the field
  look-ups (including the nested `headquarter` object), the `followerCount` default, the
  any-field check, and the collapse of transport and decode failures into "no data".
  `ExtractFields` follows the code's chain of look-ups. It reads `followerCount` last rather than
  first and `headquarter` once rather than four times; neither difference is observable,
  because a `.get` with a default never raises and the object does not change in between.
  `Expected`/`WellTyped` are an independent reference description, and lemmas connect the two.
- `Sink`: the `company_enriched_data` table as a map from `company_id` to record (`None` while
  the table does not exist). `InsertEnrichedData` models create-if-missing followed by an
  insert that may be rejected and is then swallowed.
- `Job`: `main`. `ProcessRows` models the row loop as a fold. `ProcessRowsLoop` is the same loop
  written as a `while`. `RunJob` adds connect, fetch, commit or rollback, and close, over a
  pending (in-transaction) table and a committed table.

The outside world is passed in as data. An `ApiReply` per row is the HTTP outcome. A
`writeFault` bit per row stands for a database error, other than a duplicate key, that fails that
row's INSERT statement alone. An `Environment` says whether connecting, the SELECT and the commit succeed.

JSON that does not have the expected shape is modelled as well. Examples are a truthy
non-string where a string is expected, or a `headquarter` that is not an object. In the code this
raises `AttributeError`. That exception is not among those `enrich_company_data` catches, so it
leaves the loop and `main` rolls back. The model calls this outcome `Raises`.

## Model

| member | source | states |
|---|---|---|
| Json.FalsyIffListed | qubit.py:52-53 | `Truthy` (Python truthiness of a decoded value) is false exactly for `None`, `False`, `0`, `""`, `[]` and `{}` |
| Json.DefaultOnlyWhenMissing | qubit.py:57-61 | the default of `GetOr` (`d.get(key, default)`) shows in the result exactly when the key is missing |
| Text.StripSpanUnique | qubit.py:52-53 | any window of the string that has only whitespace outside it and no whitespace at either end is exactly what `strip()` returns |
| Text.StripBounds | qubit.py:52-53 | scanning inward from both ends finds a strip window, and its contents equal `strip()`'s result |
| Text.StripTrims | qubit.py:52-53 | `Strip` (`str.strip()`): a stripped value has whitespace at neither end and is no longer than the original |
| Text.TrimStartShape | qubit.py:52-53 | `TrimStart`, the left strip, keeps a suffix that does not start with whitespace and drops only whitespace |
| Text.TrimEndShape | qubit.py:52-53 | `TrimEnd`, the right strip, keeps a prefix that does not end with whitespace and drops only whitespace |
| Text.StripIdempotent | qubit.py:52-53 | stripping an already stripped value changes nothing |
| Text.StripPadded | qubit.py:52-53 | surrounding a trimmed value with whitespace and stripping gives the value back |
| Client.SafeStrip | qubit.py:52-53 | `safe_strip` succeeds exactly on falsy values and strings; any other truthy value raises |
| Client.SafeStripNormalizes | qubit.py:52-53 | on accepted values `safe_strip` gives the stripped string, or `""` for a missing, `None` or empty value |
| Client.ExtractWellTyped | qubit.py:56-69 | on a well-typed `data` object the look-ups build the reference record: each string attribute stripped or `""`, the four location attributes read inside `headquarter`, `followerCount` copied or `0` |
| Client.ExtractFields | qubit.py:56-69 | the chain of look-ups succeeds exactly on a well-typed `data` object; on any other one a look-up raises |
| Client.PresentHeadquarterIsObject | qubit.py:60-63 | the look-ups succeed only when `headquarter` is missing or an object; `null`, `""` or another non-object value raises |
| Client.MapResponse | qubit.py:44-71 | a missing or empty `data` object gives no data; a returned record always has a truthy attribute |
| Client.MapResponseSpec | qubit.py:44-71 | full case split of the mapping: a non-object body raises; falsy `data` gives no data; a truthy non-object `data` or an ill-typed one raises; a well-typed one gives the reference record, or no data when all of its attributes are falsy |
| Client.FoundIsExpected | qubit.py:44-71 | a record only comes from a well-typed `data` object and equals that object's reference record |
| Client.FoundFields | qubit.py:57-68 | in a returned record each string attribute is its source stripped, or `""` when the source is missing, `None` or empty; `followerCount` is copied unchanged, or is `0` when missing; without `headquarter` the four location attributes are `""` |
| Client.NoDataIffAllFalsy | qubit.py:47-71 | for a well-typed `data` object, empty or not, the result is "no data" exactly when every attribute is falsy, and it never raises |
| Client.MapsToExpected | qubit.py:44-71 | an object body, whatever its other top-level keys, whose `data` is a well-typed object with a truthy reference attribute maps to that reference record |
| Client.SampleResponse | qubit.py:56-71 | `{"data": {"followerCount": 500, "tagline": " Leading B2B ", "headquarter": {"country": "US"}}}` maps to 500, "Leading B2B", "US" and empty strings elsewhere |
| Client.EnrichCompanyDataSpec | qubit.py:40-78 | `EnrichCompanyData` (`enrich_company_data` after the request) raises exactly on a decoded body that is not an object, or whose truthy `data` is not a well-typed object; a transport failure or an undecodable body never raises; a returned record is the reference record of `data` and has a truthy attribute |
| Sink.EnsureSchemaIdempotent | qubit.py:83-102 | `EnsureSchema` (create the table if missing): creating the table when it already exists changes nothing |
| Sink.InsertEnrichedData | qubit.py:81-128 | the insert succeeds exactly when the key is new and the database reports no fault; a success stores the record under its key; a rejection leaves the table as it was; other keys are never touched and no other key is added |
| Sink.InsertThenRead | qubit.py:104-123 | after a successful insert, reading the key gives back exactly the inserted record, and every other key reads as before |
| Job.ProcessRows | qubit.py:138-141 | the fold that defines the loop aborts only at a row whose enrichment raises, and attempts at most one insert per row |
| Job.ProcessRowsLoop | qubit.py:138-141 | the row-by-row loop computes the same result as the fold that defines the loop |
| Job.CompletesIffNoneRaises | qubit.py:135-148 | the loop completes exactly when no row's enrichment raises; insert errors and rows without data never stop it; an abort happens at the first raising row |
| Job.AttemptsFollowFetchOrder | qubit.py:138-141 | an insert is attempted for exactly the rows whose enrichment is a record, in fetch order, with that record |
| Job.ExistingRowsKept | qubit.py:104-128 | rows already in the table are never changed by the loop |
| Job.NewRowsComeFromFetchedRows | qubit.py:104-141 | every row the loop adds is keyed by a fetched `company_id` and holds the record of the first fetched row with that key that enriched to a record and was not faulted; later rows with the key are rejected on the primary key |
| Job.FoundRowsStored | qubit.py:138-141 | every row that enriches to a record and is not faulted ends up with its key in the table |
| Job.NoRecordNoWrite | qubit.py:138-141 | rows that all enrich to no data leave the table unchanged, not even created |
| Job.StoredRowsHaveData | qubit.py:71 | if every stored row had a truthy attribute before the loop, that still holds after it |
| Job.ClientKeepsOnlyData | qubit.py:71 | the client's enrichment never returns a record with all attributes falsy |
| Job.CommitIsDurable | qubit.py:143 | `Commit` publishes the pending table; a `Rollback` after it changes nothing, and `Close` keeps the committed table |
| Job.RollbackDiscards | qubit.py:146-148 | `Rollback` resets the pending table to the committed one, so a commit after it leaves the committed table unchanged |
| Job.RunJob | qubit.py:131-152 | the connection ends closed on every path; a committed run's committed table is its pending table; any other run leaves both tables as they were before the run |
| Job.CommitsIff | qubit.py:135-148 | the run (through `LoopTable`, the loop's outcome inside the transaction) commits exactly when connecting, the SELECT and the commit succeed and no enrichment raises |
| Job.CommittedTable | qubit.py:138-143 | after a commit, the old rows are unchanged, every unfaulted row that enriched to a record has its key stored, every new row holds the record of the first storable fetched row with its key, and stored rows keep a truthy attribute |
| Job.TransportFailureThenSuccess | qubit.py:73-75 | with two rows whose first API call fails in transport, the run commits, skips the first row and writes the second |
| Job.DuplicateKeyDoesNotRollBack | qubit.py:127-143 | a duplicate `company_id` on the second of three rows is swallowed; the run commits with the first row's record in place |

## Behaviour worth noting

A failed insert does not roll the batch back. `insert_enriched_data` catches every
`pyodbc.Error` and only prints it (qubit.py:127-128), so the loop goes on and the batch commits.
With a duplicate `company_id` on the second of three rows, `Job.DuplicateKeyDoesNotRollBack`
proves that the first row's record is committed.

The model assumes that each swallowed insert error fails only its own statement, as SQL Server
does by default for a duplicate key or a string too long for its column. Some errors end the
whole transaction instead. One is being chosen as a deadlock victim. Another may be a conversion
error, such as a non-numeric `followerCount` bound to the INT column. Those are left out (see
below).

The sink only inserts. It has no update-on-conflict, so a second record for a `company_id` is
rejected, not merged.

`follower_count` is not checked to be a non-negative integer. The code copies whatever JSON value
`followerCount` holds (qubit.py:57), so the model stores a JSON value.

The `CREATE TABLE` is not a step of its own. It runs inside `insert_enriched_data`
(qubit.py:83-102), so the table is only created when some row enriches to a record.
`Job.NoRecordNoWrite` states this.

## Left out

- Connecting to the database (qubit.py:6-18) is out of scope. Only whether it succeeds is modelled, as `Environment.connects`.
- The SELECT (qubit.py:21-28) is out of scope. Its rows, or its failure, are an input.
- The HTTP POST, its URL, headers, API key and status check (qubit.py:31-42) are a network client. Their outcome is the `ApiReply` input.
- All `print` logging is out of scope. Error kinds are kept in the data instead: `InsertError` for the kind of swallowed insert error, and `TransportError`/`DecodeError` for failed requests.
- Sink.InsertEnrichedData: every rejected insert leaves the transaction's table as it was. An insert error that ends the whole transaction is not modelled. Examples are a deadlock victim and, possibly, a conversion error such as a non-numeric `followerCount` for the INT column. After such an error the earlier uncommitted rows are lost, and the commit at qubit.py:143 publishes only the rows written later. So `Job.FoundRowsStored` and `Job.CommittedTable` hold only for runs without such an error.
- The literal SQL text, the column types and the column widths are left out. A string too long for its column makes the INSERT statement fail. That failure is covered by the per-row `writeFault` input, not derived from the widths. A successful insert can also store a converted value: `tagline` goes into a non-Unicode `TEXT` column (qubit.py:89), and a string or boolean `followerCount` is converted to INT (qubit.py:88). So `Sink.InsertThenRead`'s "exactly the inserted record" is about the model's table, not the stored column values.
- JSON floating-point numbers are left out. Numbers are integers only.
- A failure of the `CREATE TABLE` statement itself is left out, as are failures of `rollback()` and `close()`.
- A failure of `conn.cursor()` (qubit.py:133) is left out. It happens outside the `try`, so it would leave the connection unclosed.
- The row loop (`ProcessRows` in `Job`) and its lemmas take the enrichment function as a parameter. `LoopTable`, which `RunJob` calls, passes `Client.EnrichCompanyData`. This keeps the loop's reasoning independent of the mapping's details.
- Code points that Dafny strings cannot hold (lone surrogates that a JSON decoder may produce) are not modelled.
