# sis-ms affiliate lookup — a Dafny model

This project models the core of the `sis-ms` service, which answers
affiliate-eligibility lookups backed by the SIS registry (a remote SOAP
service). The core is made of four pieces:

- **The cache-aside lookup** (`AfiliadoService`). Before calling the registry,
  a lookup asks the audit log whether the same document number was already
  looked up successfully today. If it was, the service serves the stored
  record and logs a local hit. Otherwise it calls the registry, upserts the
  record it gets back and logs the attempt, whether it succeeded or failed.
  Any exception is reported as `CONSULTAR_AFILIADO_FUAE_ERROR` with status 500.
- **The audit log** (`ConsultaRepository`). It appends one entry per attempt
  and answers the "looked up successfully today" test.
- **The affiliate store** (`AfiliadoRepository`). It looks records up by
  document number. Its upsert merges into the stored record only the fields
  the payload explicitly set.
- **Session acquisition** (`SISService.get_session`). It classifies the
  registry's `GetSession` reply and clears the held token when the registry
  rejects the credentials.

Modules, one per source file:

| module | file | source |
|---|---|---|
| `Wrappers` | wrappers.dfy | the `result` package's `Ok`/`Err`, and `X \| None` |
| `Exceptions` | exceptions.dfy | app/api/exceptions.py |
| `Requests` | requests.dfy | app/api/requests.py |
| `AfiliadoModel` | afiliado.dfy | app/models/afiliado.py |
| `Consultas` | consulta_repository.dfy | app/repositories/consulta_repository.py |
| `Afiliados` | afiliado_repository.dfy | app/repositories/afiliado_repository.py |
| `Sis` | sis_service.dfy | app/services/sis_service.py |
| `AfiliadoServices` | afiliado_service.dfy | app/services/afiliado_service.py |

How the model is built:

- **State.** The shared database session becomes two classes. The first is a
  `ConsultaRepository` whose `entries: seq<Consulta>` is the audit table. The
  second is an `AfiliadoRepository` whose `rows: seq<Afiliado>` is the
  affiliate table. `AfiliadoService` holds one of each. `commit`, `add` and
  `refresh` mean "staged writes become visible". The one exception is that
  `refresh` of `None` raises (see below).
- **Proofs.** The service and upsert methods are proved against pure
  functions of the old state: `Upsert`, `CachePath`, `RemotePath`, `Consult`.
  `RegistrarConsulta` states its new log outright (the old log plus one
  entry), and `GetSession`'s result is `ClassifySession` of the registry's
  reply. The lemmas then state the properties of those functions.
- **Records.** An `Afiliado` is a map from column (`Field`) to `Value`,
  together with its pydantic fields-set (the columns that were explicitly
  assigned). `model_dump(exclude_unset=True)` is `DumpSet`. Unset and
  explicitly-`None` are different: a column set to `None` is in the
  fields-set with value `Null`, so the merge writes it.
- **Time.** A time is an integer count of seconds on the America/Lima wall
  clock. `DayStart(t)` is the midnight of that day. The clock is read twice,
  and both readings are parameters: `now` for the daily test and `loggedAt`
  for the new entry's `created_at`.
- **Registry calls.** The registry's answers are parameters too.
  `RemoteOutcome` is the result of `consultar_afiliado_fuae` (a record, an
  error tuple, or an exception). `SessionReply` is the result of `GetSession`
  (an exception, a string, or a value that is not a string).
- **Remote calls are recorded.** The ghost field `remoteCalls` logs each
  `(token, request)` pair passed to the registry lookup. This makes "a cache
  hit makes no remote call" something a contract can state.
- **Two keys.** The cache test and the cache-path lookup use the request's
  `nro_documento`. The upsert uses the payload's own `NroDocumento`. The model
  keeps the two apart. `MismatchedPayloadDocument` and `StaleRecordServed`
  show what happens when they differ.

Behaviour of the code worth knowing:

- **Missing record on the cache path.** `_consultar_desde_cache` calls
  `refresh(afiliado)` (app/services/afiliado_service.py:67) before it tests for
  `None` (line 68). The ORM raises on `refresh(None)`. The catch-all therefore
  returns `(CONSULTAR_AFILIADO_FUAE_ERROR, 500, <exception text>)`, and the 404
  at line 69 is never reached. The local audit entry was already committed at
  line 66. The model returns the 500. The exception text is the constant
  `UnmappedInstanceMessage`.
- **Description of a failed attempt.** The audit entry of a failed remote
  attempt records the error code's `message` attribute, not the message the
  registry returned (lines 90-94).
- **Day window.** The daily test has a lower bound only: `created_at` at or
  after today's midnight (app/repositories/consulta_repository.py:21-25).
  There is no end-of-day bound.
- **Explicit `None` in the upsert.** A field the payload explicitly set to
  `None` does overwrite the stored value
  (app/repositories/afiliado_repository.py:28-29).
- **Token.** The lookup does not acquire a session token. The caller passes
  it in (app/services/afiliado_service.py:36).

## Model

| member | source | states |
|---|---|---|
| `Consultas.DayStart` | app/repositories/consulta_repository.py:20-21 | today's midnight is at or before `now`, less than a day before it, and falls on a day boundary |
| `Consultas.FirstCounting` | app/repositories/consulta_repository.py:23-30 | the query's `.first()`: the first entry with the same document, `created_at` at or after today's midnight and no error code; none exactly when no entry qualifies |
| `Consultas.ConsultaRepository.constructor` | app/repositories/consulta_repository.py:13-16 | the repository sees the session's audit table |
| `Consultas.ConsultaRepository.VerificarConsultaHoy` | app/repositories/consulta_repository.py:18-30 | true iff some entry matches the document, has `created_at >= DayStart(now)` and no error code; it is a pure read |
| `Consultas.ConsultaRepository.RegistrarConsulta` | app/repositories/consulta_repository.py:32-48 | appends exactly one entry and leaves earlier ones unchanged; document and user come from the request; `es_local` defaults to false; error code and description default to None |
| `Consultas.QueriedAfterAppend` | app/repositories/consulta_repository.py:18-30 | after an append the test holds iff it held before or the new entry itself qualifies |
| `Consultas.AppendKeepsQueried` | app/repositories/consulta_repository.py:32-48 | appending never turns a true test false |
| `Consultas.ErrorEntryNeverCounts` | app/repositories/consulta_repository.py:26 | an error-tagged entry never changes the test, so a failed attempt does not suppress a retry |
| `Consultas.ForeignOrStaleEntryNeverCounts` | app/repositories/consulta_repository.py:24-25 | an entry for another document, or one from before today's midnight, never changes the test |
| `Consultas.SuccessTodayCounts` | app/repositories/consulta_repository.py:24-26 | an error-free entry stamped at or after today's midnight makes the test true, however late in the day it is checked |
| `Consultas.DayStartWithinDay` | app/repositories/consulta_repository.py:20-21 | every instant of a day has that day's midnight as its start |
| `Consultas.DayBoundary` | app/repositories/consulta_repository.py:20-25 | a success stamped one second before midnight counts at that second and no longer counts one second after midnight |
| `Afiliados.FirstIndex` | app/repositories/afiliado_repository.py:17-20 | the SELECT's `.first()`: the first row, in table order, whose `NroDocumento` equals the key; none exactly when no row has it |
| `Afiliados.AfiliadoRepository.constructor` | app/repositories/afiliado_repository.py:13-15 | the repository sees the session's affiliate table |
| `Afiliados.AfiliadoRepository.BuscarPorDocumento` | app/repositories/afiliado_repository.py:17-20 | returns a stored record whose `NroDocumento` is the argument, or None iff no such record exists |
| `Afiliados.Merge` | app/repositories/afiliado_repository.py:28-29 | every field set in the payload overwrites the stored value, including fields explicitly set to None; every other field keeps its value; assigned fields become set |
| `Afiliados.AfiliadoRepository.GuardarOActualizar` | app/repositories/afiliado_repository.py:22-37 | the loop's `setattr` of each set field, or the insert, leaves the table and returned record of `Upsert` |
| `Afiliados.LookupAgreesWithTable` | app/repositories/afiliado_repository.py:17-20 | the lookup finds nothing iff no row carries the document number |
| `Afiliados.UpsertInserts` | app/repositories/afiliado_repository.py:34-37 | with no row for the document, the payload is added unchanged and returned |
| `Afiliados.UpsertUpdates` | app/repositories/afiliado_repository.py:24-33 | with a row for the document, the row `FirstIndex` picks is merged and returned, no row is added, other rows are untouched, set fields overwrite and unset fields keep their value |
| `Afiliados.OnlyMatchingRow` | app/repositories/afiliado_repository.py:17-20 | when document numbers are unique, the lookup returns the one row carrying the key, whatever the row order |
| `Afiliados.UpsertKeepsOtherLookups` | app/repositories/afiliado_repository.py:17-33 | an upsert does not change what a lookup by any other document number returns |
| `Afiliados.UpsertKeepsDocument` | app/repositories/afiliado_repository.py:22-37 | the returned record carries the payload's document number |
| `Afiliados.UpsertIsFound` | app/repositories/afiliado_repository.py:22-37 | afterwards the lookup by the payload's document number finds exactly the returned record |
| `Afiliados.UpsertKeepsUnique` | app/repositories/afiliado_repository.py:22-37 | the upsert preserves "at most one record per document number" |
| `Afiliados.MergeTwice` | app/repositories/afiliado_repository.py:28-29 | merging the same payload twice equals merging it once |
| `Afiliados.MergeIntoItself` | app/repositories/afiliado_repository.py:28-29 | a complete record merged into itself is unchanged |
| `Afiliados.UpsertIdempotent` | app/repositories/afiliado_repository.py:22-37 | upserting the same payload twice gives the same table and record as once |
| `Sis.ContainsIffOccurs` | app/services/sis_service.py:53 | Python's `msg in response` holds iff `msg` occurs at some position of the response (case-sensitive) |
| `Sis.AbsentFirstCharacter` | app/services/sis_service.py:53 | a marker whose first character never appears in the reply is not contained in it |
| `Sis.ClassifySession` | app/services/sis_service.py:45-62 | an exception gives GET_SESSION_ERROR; a non-string gives BAD_RESPONSE; a string containing "INVALIDO" or "INCORRECTA" gives INVALID_CREDENTIALS; any other string gives Ok of exactly that string |
| `Sis.SISService.constructor` | app/services/sis_service.py:34-38 | no session token and no expiry are held |
| `Sis.SISService.GetSession` | app/services/sis_service.py:40-62 | returns the classification; only the invalid-credentials branch writes `_session_token`, setting it to None; every other outcome leaves it unchanged |
| `Sis.WrongPasswordIsRejected` | app/services/sis_service.py:49-56 | the reply "CLAVE INCORRECTA" is an INVALID_CREDENTIALS rejection |
| `Sis.MarkersAreCaseSensitive` | app/services/sis_service.py:49-58 | the lower-case reply "clave incorrecta" is accepted as a token |
| `AfiliadoServices.AfiliadoService.constructor` | app/services/afiliado_service.py:28-33 | the service's two repositories are fresh and see the session's tables; no remote call was made |
| `AfiliadoServices.AfiliadoService.ConsultarAfiliado` | app/services/afiliado_service.py:35-58 | the new tables and the result are `Consult` of the old tables; exactly one remote call with the caller's token and request on a miss, none on a hit |
| `AfiliadoServices.AfiliadoService.ConsultarDesdeCache` | app/services/afiliado_service.py:60-72 | looks up by the request's document, logs a local entry, then returns the record or raises on a missing one |
| `AfiliadoServices.AfiliadoService.ConsultarServicioExterno` | app/services/afiliado_service.py:74-102 | one remote call; on success upsert and log clean; on failure log the code and its message and return the tuple; on exception write nothing |
| `AfiliadoServices.CacheHit` | app/services/afiliado_service.py:50-51 | a hit leaves the records alone and logs exactly one local error-free entry; the result is Ok of a stored record with the request's document iff one exists, else CONSULTAR_AFILIADO_FUAE_ERROR with status 500 and the `refresh(None)` exception text |
| `AfiliadoServices.RemoteSuccess` | app/services/afiliado_service.py:81-87 | the payload is upserted; one remote entry with no error code and no description is logged; the returned record is the upserted one, and the lookup finds it |
| `AfiliadoServices.RemoteFailure` | app/services/afiliado_service.py:89-102 | there is no upsert; one remote entry carries the code's `error_code` and `message`; the error tuple is returned unchanged |
| `AfiliadoServices.RemoteException` | app/services/afiliado_service.py:56-58 | an exception becomes `(CONSULTAR_AFILIADO_FUAE_ERROR, 500, str(e))`, with nothing written |
| `AfiliadoServices.OneEntryPerAttempt` | app/services/afiliado_service.py:65-94 | every path except an exception from the registry appends exactly one entry for the request's document and user, local exactly on a hit, and keeps earlier entries |
| `AfiliadoServices.RemoteSuccessThenCacheHit` | app/services/afiliado_service.py:81-87 | after a remote success stamped no earlier than today's midnight, the same document is a cache hit for the rest of that day |
| `AfiliadoServices.FailureDoesNotPoisonCache` | app/services/afiliado_service.py:89-95 | a failed remote attempt leaves the daily test for that document as it was |
| `AfiliadoServices.CacheHitRepeats` | app/services/afiliado_service.py:50-72 | a hit repeated later the same day is again a hit, returns the same result and leaves the records unchanged, whatever the registry would answer |
| `AfiliadoServices.MismatchedPayloadDocument` | app/services/afiliado_service.py:64-83 | when the registry returns a record for another document and no record for the requested document is stored, the same-day repeat is a cache hit that fails, because cache and upsert key on different document numbers |
| `AfiliadoServices.StaleRecordServed` | app/services/afiliado_service.py:64-83 | when the registry returns a record for another document and a record for the requested document is already stored, the same-day repeat is a cache hit that serves that earlier stored record, untouched by the upsert |
| `AfiliadoServices.FirstThenRepeatSameDay` | app/services/afiliado_service.py:35-102 | a first lookup stores the fetched record and returns it; a repeat the same day returns the same record from the cache and logs a local entry |

## Left out

- `get_soap_client` and the zeep client (app/services/sis_service.py:18-28) are left out. They build a network client, and the registry's replies are parameters here.
- The body of the registry lookup `consultar_afiliado_fuae` is not part of this model. The lookup is an oracle: `RemoteOutcome` is its answer.
- The database engine, connection pool and session lifecycle (app/database.py) are left out. So are the FastAPI application and its endpoints (app/main.py).
- Storage faults are left out. The model assumes that reads, `add` and `commit` never raise, so the catch-all sees only the exceptions modelled here: one from the registry lookup, and one from `refresh` of a missing record.
- ORM object identity is not modelled. A merged record is written back into the table as a value, not mutated in place. The primary key `id` that the database assigns on insert is not generated.
- Clock and time zone: `datetime.now`, `ZoneInfo("America/Lima")` and `datetime.combine` become integer Lima wall-clock seconds. The model does not capture that `created_at` is a naive server-local time compared with a naive Lima midnight.
- `async`, logging and the `Logger` are left out. The async methods are modelled as sequential methods.
- Column types are left out. The model does not check a value's kind per column. A `NroDocumento` that is not a string reads as `None`.
- `_session_expires` is only ever initialised, and is carried unchanged. `get_session`'s `request` is passed only to the registry, so it does not affect the modelled outcome.
- `Afiliados.FirstIndex`: the SQL query behind `.first()` (app/repositories/afiliado_repository.py:19-20) has no ORDER BY, and the `NroDocumento` column has no unique constraint (app/models/afiliado.py:13). The model resolves `.first()` to table order. With duplicate document numbers the database may return another matching row, and the upsert may merge into that one instead. `OnlyMatchingRow` shows the choice is forced while document numbers are unique, and `UpsertKeepsUnique` shows the upsert itself never creates a duplicate. Concurrent inserts, which can create one, are not modelled.
