/** The cache-aside lookup (app/services/afiliado_service.py). A lookup first
    asks the audit log whether the document was already looked up successfully
    today; if so it serves the stored record and logs a local hit, otherwise it
    calls the registry, upserts what it returns and logs the attempt, failed or
    not. Any exception becomes a CONSULTAR_AFILIADO_FUAE_ERROR with status 500. */
module AfiliadoServices {
  import opened Wrappers
  import opened Exceptions
  import opened Requests
  import opened AfiliadoModel
  import opened Consultas
  import opened Afiliados

  /** What the registry's `consultar_afiliado_fuae(token, consulta)` produced:
      a record, the error tuple `(error_code, status_code, message)`, or an
      exception with its text. */
  datatype RemoteOutcome =
    | Fetched(afiliado: Afiliado)
    | Rejected(failure: Failure)
    | Raised(message: string)

  /** How a private path ended: it returned a result, or an exception with the
      given text escaped from it. */
  datatype Flow = Returned(result: Result<Afiliado, Failure>) | Threw(message: string)

  /** The text of the ORM's exception when `refresh` is given None. */
  const UnmappedInstanceMessage: string := "Class 'builtins.NoneType' is not mapped"

  /** The two tables the service's session writes to. */
  datatype Tables = Tables(afiliados: seq<Afiliado>, consultas: seq<Consulta>)

  /** The decision at the top of `consultar_afiliado`. */
  predicate ServedFromCache(t: Tables, consulta: ConsultaAfiliadoRequest, now: int)
  {
    FirstCounting(t.consultas, consulta.nroDocumento, now).Some?
  }

  /** `_consultar_desde_cache`: look the record up by the request's document
      number, log a local hit and commit; then `refresh` the record, which
      raises when there is none, so the 404 branch after it is never reached. */
  function CachePath(t: Tables, consulta: ConsultaAfiliadoRequest, loggedAt: int): (Tables, Flow)
  {
    var logged := t.(consultas := t.consultas + [Consulta(consulta.nroDocumento, consulta.usuario, true, None, None, loggedAt)]);
    match FirstIndex(t.afiliados, Some(consulta.nroDocumento))
    case None => (logged, Threw(UnmappedInstanceMessage))
    case Some(i) => (logged, Returned(Ok(t.afiliados[i])))
  }

  /** `_consultar_servicio_externo`: on success upsert the payload (keyed by the
      payload's own document number) and log a clean remote attempt; on failure
      log the error code and its message and hand the error tuple back. */
  function RemotePath(t: Tables, consulta: ConsultaAfiliadoRequest, loggedAt: int, fuae: RemoteOutcome): (Tables, Flow)
  {
    match fuae
    case Fetched(afiliado) =>
      var (rows, saved) := Upsert(t.afiliados, afiliado);
      (Tables(rows, t.consultas + [Consulta(consulta.nroDocumento, consulta.usuario, false, None, None, loggedAt)]),
       Returned(Ok(saved)))
    case Rejected(failure) =>
      (t.(consultas := t.consultas + [Consulta(consulta.nroDocumento, consulta.usuario, false,
                                               Some(failure.code.Code()), Some(failure.code.Message()), loggedAt)]),
       Returned(Err(failure)))
    case Raised(message) => (t, Threw(message))
  }

  /** The `except Exception` of `consultar_afiliado`. */
  function CatchAll(flow: Flow): Result<Afiliado, Failure>
  {
    match flow
    case Returned(result) => result
    case Threw(message) => Err(Failure(ConsultarAfiliadoFuaeError, 500, Some(message)))
  }

  /** One call of `consultar_afiliado`: the tables afterwards and the result.
      `now` is the clock reading of the daily check, `loggedAt` the
      `created_at` of the audit entry, `fuae` the registry's answer. */
  function Consult(t: Tables, consulta: ConsultaAfiliadoRequest, now: int, loggedAt: int, fuae: RemoteOutcome)
    : (Tables, Result<Afiliado, Failure>)
  {
    var (t', flow) :=
      if ServedFromCache(t, consulta, now) then CachePath(t, consulta, loggedAt)
      else RemotePath(t, consulta, loggedAt, fuae);
    (t', CatchAll(flow))
  }

  class AfiliadoService {
    const cacheManager: ConsultaRepository
    const repository: AfiliadoRepository
    /** The (token, request) pairs passed to the registry's lookup, in order. */
    ghost var remoteCalls: seq<(string, ConsultaAfiliadoRequest)>

    /** The service over a session whose tables hold `consultas` and `afiliados`. */
    constructor (consultas: seq<Consulta>, afiliados: seq<Afiliado>)
      ensures fresh(cacheManager) && fresh(repository)
      ensures cacheManager.entries == consultas && repository.rows == afiliados
      ensures remoteCalls == []
    {
      cacheManager := new ConsultaRepository(consultas);
      repository := new AfiliadoRepository(afiliados);
      remoteCalls := [];
    }

    ghost function State(): Tables
      reads cacheManager, repository
    {
      Tables(repository.rows, cacheManager.entries)
    }

    /** `consultar_afiliado`. The token is the caller's; it only travels to
        the registry. */
    method ConsultarAfiliado(token: string, consulta: ConsultaAfiliadoRequest, now: int, loggedAt: int, fuae: RemoteOutcome)
      returns (r: Result<Afiliado, Failure>)
      modifies this, cacheManager, repository
      ensures (State(), r) == Consult(old(State()), consulta, now, loggedAt, fuae)
      ensures remoteCalls == if ServedFromCache(old(State()), consulta, now) then old(remoteCalls)
                             else old(remoteCalls) + [(token, consulta)]
    {
      var flow: Flow;
      if cacheManager.VerificarConsultaHoy(consulta.nroDocumento, now) {
        flow := ConsultarDesdeCache(consulta, loggedAt);
      } else {
        flow := ConsultarServicioExterno(token, consulta, loggedAt, fuae);
      }
      match flow
      case Returned(result) =>
        r := result;
      case Threw(message) =>
        r := Err(Failure(ConsultarAfiliadoFuaeError, 500, Some(message)));
    }

    /** `_consultar_desde_cache`. */
    method ConsultarDesdeCache(consulta: ConsultaAfiliadoRequest, loggedAt: int) returns (flow: Flow)
      modifies cacheManager
      ensures (State(), flow) == CachePath(old(State()), consulta, loggedAt)
    {
      var afiliado := repository.BuscarPorDocumento(Some(consulta.nroDocumento));
      cacheManager.RegistrarConsulta(consulta, loggedAt, esLocal := true);
      // commit: the staged entry becomes durable before the refresh below
      match afiliado
      case None =>
        flow := Threw(UnmappedInstanceMessage);
      case Some(a) =>
        flow := Returned(Ok(a));
    }

    /** `_consultar_servicio_externo`. */
    method ConsultarServicioExterno(token: string, consulta: ConsultaAfiliadoRequest, loggedAt: int, fuae: RemoteOutcome)
      returns (flow: Flow)
      modifies this, cacheManager, repository
      ensures (State(), flow) == RemotePath(old(State()), consulta, loggedAt, fuae)
      ensures remoteCalls == old(remoteCalls) + [(token, consulta)]
    {
      remoteCalls := remoteCalls + [(token, consulta)];
      match fuae
      case Fetched(afiliado) =>
        var afiliadoGuardado := repository.GuardarOActualizar(afiliado);
        cacheManager.RegistrarConsulta(consulta, loggedAt);
        flow := Returned(Ok(afiliadoGuardado));
      case Rejected(Failure(errorCode, statusCode, message)) =>
        cacheManager.RegistrarConsulta(consulta, loggedAt,
          errorCode := Some(errorCode.Code()), errorDescription := Some(errorCode.Message()));
        flow := Returned(Err(Failure(errorCode, statusCode, message)));
      case Raised(message) =>
        flow := Threw(message);
    }
  }

  /** A cache hit calls nothing remote, upserts nothing and logs exactly one
      local, error-free entry; its result is Ok of the first stored record whose
      document number is the request's, and, when there is none, the 500 that
      the catch-all makes of `refresh(None)`. */
  lemma CacheHit(t: Tables, consulta: ConsultaAfiliadoRequest, now: int, loggedAt: int, fuae: RemoteOutcome)
    requires ServedFromCache(t, consulta, now)
    ensures var (t', r) := Consult(t, consulta, now, loggedAt, fuae);
      && t'.afiliados == t.afiliados
      && t'.consultas == t.consultas + [Consulta(consulta.nroDocumento, consulta.usuario, true, None, None, loggedAt)]
      && (r.Ok? <==> exists a :: a in t.afiliados && NroDocumentoOf(a) == Some(consulta.nroDocumento))
      && (r.Ok? ==> r.value in t.afiliados && NroDocumentoOf(r.value) == Some(consulta.nroDocumento))
      && (r.Err? ==> r.error == Failure(ConsultarAfiliadoFuaeError, 500, Some(UnmappedInstanceMessage)))
  {
  }

  /** A miss whose registry call succeeds upserts the payload, logs one remote
      error-free entry and returns the upserted record, which a lookup by the
      payload's document number then finds. */
  lemma RemoteSuccess(t: Tables, consulta: ConsultaAfiliadoRequest, now: int, loggedAt: int, afiliado: Afiliado)
    requires !ServedFromCache(t, consulta, now)
    ensures var (t', r) := Consult(t, consulta, now, loggedAt, Fetched(afiliado));
      && t'.afiliados == Upsert(t.afiliados, afiliado).0
      && t'.consultas == t.consultas + [Consulta(consulta.nroDocumento, consulta.usuario, false, None, None, loggedAt)]
      && r == Ok(Upsert(t.afiliados, afiliado).1)
      && FirstIndex(t'.afiliados, NroDocumentoOf(afiliado)).Some?
      && t'.afiliados[FirstIndex(t'.afiliados, NroDocumentoOf(afiliado)).value] == r.value
  {
    UpsertIsFound(t.afiliados, afiliado);
  }

  /** A miss whose registry call fails leaves the records alone, logs one
      remote entry tagged with the code's `error_code` and `message` (not the
      returned message) and hands back the error tuple unchanged. */
  lemma RemoteFailure(t: Tables, consulta: ConsultaAfiliadoRequest, now: int, loggedAt: int, failure: Failure)
    requires !ServedFromCache(t, consulta, now)
    ensures var (t', r) := Consult(t, consulta, now, loggedAt, Rejected(failure));
      && t'.afiliados == t.afiliados
      && t'.consultas == t.consultas + [Consulta(consulta.nroDocumento, consulta.usuario, false,
                                                 Some(failure.code.Code()), Some(failure.code.Message()), loggedAt)]
      && r == Err(failure)
  {
  }

  /** An exception escaping the registry call reaches the caller as
      CONSULTAR_AFILIADO_FUAE_ERROR with status 500 and the exception's text,
      and nothing is written. */
  lemma RemoteException(t: Tables, consulta: ConsultaAfiliadoRequest, now: int, loggedAt: int, message: string)
    requires !ServedFromCache(t, consulta, now)
    ensures Consult(t, consulta, now, loggedAt, Raised(message))
         == (t, Err(Failure(ConsultarAfiliadoFuaeError, 500, Some(message))))
  {
  }

  /** Every path except an exception from the registry appends exactly one
      audit entry, for the request's document and user, stamped `loggedAt`,
      local exactly on a cache hit; earlier entries are untouched. */
  lemma OneEntryPerAttempt(t: Tables, consulta: ConsultaAfiliadoRequest, now: int, loggedAt: int, fuae: RemoteOutcome)
    requires ServedFromCache(t, consulta, now) || !fuae.Raised?
    ensures var t' := Consult(t, consulta, now, loggedAt, fuae).0;
      && |t'.consultas| == |t.consultas| + 1
      && t'.consultas[..|t.consultas|] == t.consultas
      && var e := t'.consultas[|t.consultas|];
         e.numeroDocumento == consulta.nroDocumento && e.usuario == consulta.usuario
         && e.createdAt == loggedAt && e.esLocal == ServedFromCache(t, consulta, now)
  {
  }

  /** After a successful remote lookup stamped no earlier than today's
      midnight, the next lookup of the same document that day is a cache hit. */
  lemma RemoteSuccessThenCacheHit(t: Tables, consulta: ConsultaAfiliadoRequest, now: int, loggedAt: int,
                                  afiliado: Afiliado, later: int)
    requires !ServedFromCache(t, consulta, now)
    requires DayStart(later) <= loggedAt
    ensures ServedFromCache(Consult(t, consulta, now, loggedAt, Fetched(afiliado)).0, consulta, later)
  {
    var e := Consulta(consulta.nroDocumento, consulta.usuario, false, None, None, loggedAt);
    SuccessTodayCounts(t.consultas, e, later);
  }

  /** A failed remote lookup does not poison the cache: the same document is
      still not served from the cache at any later check, unless some other
      success already was enough. */
  lemma FailureDoesNotPoisonCache(t: Tables, consulta: ConsultaAfiliadoRequest, now: int, loggedAt: int,
                                  failure: Failure, later: int)
    requires !ServedFromCache(t, consulta, now)
    ensures ServedFromCache(Consult(t, consulta, now, loggedAt, Rejected(failure)).0, consulta, later)
        == ServedFromCache(t, consulta, later)
  {
    var e := Consulta(consulta.nroDocumento, consulta.usuario, false,
                      Some(failure.code.Code()), Some(failure.code.Message()), loggedAt);
    ErrorEntryNeverCounts(t.consultas, e, consulta.nroDocumento, later);
  }

  /** Cache hits repeat: a second lookup later the same day is again a hit,
      returns the same result and leaves the records as they were, whatever the
      registry would have answered. */
  lemma CacheHitRepeats(t: Tables, consulta: ConsultaAfiliadoRequest, now: int, loggedAt: int, fuae: RemoteOutcome,
                        now2: int, loggedAt2: int, fuae2: RemoteOutcome)
    requires ServedFromCache(t, consulta, now)
    requires DayStart(now2) == DayStart(now)
    ensures var (t', r) := Consult(t, consulta, now, loggedAt, fuae);
      && ServedFromCache(t', consulta, now2)
      && Consult(t', consulta, now2, loggedAt2, fuae2).1 == r
      && Consult(t', consulta, now2, loggedAt2, fuae2).0.afiliados == t.afiliados
  {
    var e := Consulta(consulta.nroDocumento, consulta.usuario, true, None, None, loggedAt);
    var i := FirstCounting(t.consultas, consulta.nroDocumento, now).value;
    assert CountsToday(t.consultas[i], consulta.nroDocumento, now2);
    AppendKeepsQueried(t.consultas, e, consulta.nroDocumento, now2);
  }

  /** The upsert keys on the payload's document number and the cache on the
      request's: when the registry answers with a record for another document
      and none is stored for the requested one, the same-day repeat is a cache
      hit that finds no record and fails. */
  lemma MismatchedPayloadDocument(t: Tables, consulta: ConsultaAfiliadoRequest, now: int, loggedAt: int,
                                  afiliado: Afiliado, fuae2: RemoteOutcome)
    requires !ServedFromCache(t, consulta, now)
    requires DayStart(now) <= loggedAt
    requires NroDocumentoOf(afiliado) != Some(consulta.nroDocumento)
    requires forall a :: a in t.afiliados ==> NroDocumentoOf(a) != Some(consulta.nroDocumento)
    ensures var t' := Consult(t, consulta, now, loggedAt, Fetched(afiliado)).0;
      && ServedFromCache(t', consulta, now)
      && Consult(t', consulta, now, loggedAt, fuae2).1.Err?
  {
    var key := Some(consulta.nroDocumento);
    var t' := Consult(t, consulta, now, loggedAt, Fetched(afiliado)).0;
    RemoteSuccessThenCacheHit(t, consulta, now, loggedAt, afiliado, now);
    LookupAgreesWithTable(t.afiliados, NroDocumentoOf(afiliado));
    UpsertKeepsDocument(t.afiliados, afiliado);
    forall a | a in t'.afiliados
      ensures NroDocumentoOf(a) != key
    {
      var k :| 0 <= k < |t'.afiliados| && t'.afiliados[k] == a;
      if FirstIndex(t.afiliados, NroDocumentoOf(afiliado)).None? {
        if k < |t.afiliados| { assert a == t.afiliados[k]; }
      } else {
        var i := FirstIndex(t.afiliados, NroDocumentoOf(afiliado)).value;
        if k != i { assert a == t.afiliados[k]; }
      }
    }
    CacheHit(t', consulta, now, loggedAt, fuae2);
  }

  /** The other side of the two keys: when a record for the requested document
      is already stored and the registry answers with a record for another
      document, the same-day repeat is a cache hit that serves the stored
      record, which the successful lookup did not touch. */
  lemma StaleRecordServed(t: Tables, consulta: ConsultaAfiliadoRequest, now: int, loggedAt: int,
                          afiliado: Afiliado, fuae2: RemoteOutcome)
    requires !ServedFromCache(t, consulta, now)
    requires DayStart(now) <= loggedAt
    requires NroDocumentoOf(afiliado) != Some(consulta.nroDocumento)
    requires FirstIndex(t.afiliados, Some(consulta.nroDocumento)).Some?
    ensures var t' := Consult(t, consulta, now, loggedAt, Fetched(afiliado)).0;
      && ServedFromCache(t', consulta, now)
      && Consult(t', consulta, now, loggedAt, fuae2).1
         == Ok(t.afiliados[FirstIndex(t.afiliados, Some(consulta.nroDocumento)).value])
  {
    RemoteSuccessThenCacheHit(t, consulta, now, loggedAt, afiliado, now);
    UpsertKeepsOtherLookups(t.afiliados, afiliado, Some(consulta.nroDocumento));
  }

  /** First lookup of a document into empty tables, then a repeat the same day:
      the first goes to the registry and stores the record, the second is
      served from the cache with the same record and a local audit entry. */
  lemma FirstThenRepeatSameDay(consulta: ConsultaAfiliadoRequest, payload: Afiliado, midnight: int,
                               first: int, second: int, fuae2: RemoteOutcome)
    requires NroDocumentoOf(payload) == Some(consulta.nroDocumento)
    requires midnight % SecondsPerDay == 0 && midnight <= first <= second < midnight + SecondsPerDay
    ensures var (t1, r1) := Consult(Tables([], []), consulta, first, first, Fetched(payload));
      && t1 == Tables([payload], [Consulta(consulta.nroDocumento, consulta.usuario, false, None, None, first)])
      && r1 == Ok(payload)
      && var (t2, r2) := Consult(t1, consulta, second, second, fuae2);
         && t2.afiliados == [payload]
         && t2.consultas == t1.consultas + [Consulta(consulta.nroDocumento, consulta.usuario, true, None, None, second)]
         && r2 == Ok(payload)
  {
  }
}
