/** The query audit log (app/repositories/consulta_repository.py): one entry per
    lookup attempt, and the "already looked up successfully today" test that
    drives the cache. Times are integer seconds on the America/Lima wall clock. */
module Consultas {
  import opened Wrappers
  import opened Requests

  const SecondsPerDay: int := 86400

  /** Midnight (America/Lima) of the day containing `now`. */
  function DayStart(now: int): (start: int)
    ensures start <= now < start + SecondsPerDay
    ensures start % SecondsPerDay == 0
  {
    now - now % SecondsPerDay
  }

  /** One audit entry, with the columns `registrar_consulta` writes. */
  datatype Consulta = Consulta(
    numeroDocumento: string,
    usuario: string,
    esLocal: bool,
    errorCode: Option<string>,
    errorDescription: Option<string>,
    createdAt: int)

  /** The WHERE clause of `verificar_consulta_hoy`: same document, created at or
      after today's midnight (no upper bound), and no error code. */
  predicate CountsToday(e: Consulta, numeroDocumento: string, now: int)
  {
    && e.numeroDocumento == numeroDocumento
    && e.createdAt >= DayStart(now)
    && e.errorCode.None?
  }

  /** Some entry of the log satisfies the WHERE clause. */
  ghost predicate QueriedToday(log: seq<Consulta>, numeroDocumento: string, now: int)
  {
    exists i :: 0 <= i < |log| && CountsToday(log[i], numeroDocumento, now)
  }

  /** The `.first()` of the query: the position of the first entry that counts. */
  function FirstCounting(log: seq<Consulta>, numeroDocumento: string, now: int): (r: Option<nat>)
    ensures r.Some? ==> r.value < |log| && CountsToday(log[r.value], numeroDocumento, now)
    ensures r.Some? ==> forall j :: 0 <= j < r.value ==> !CountsToday(log[j], numeroDocumento, now)
    ensures r.None? <==> !QueriedToday(log, numeroDocumento, now)
  {
    if |log| == 0 then None
    else if CountsToday(log[0], numeroDocumento, now) then Some(0)
    else
      match FirstCounting(log[1..], numeroDocumento, now)
      case None => None
      case Some(i) => Some(i + 1)
  }

  /** The audit table as the shared session sees it. */
  class ConsultaRepository {
    var entries: seq<Consulta>

    constructor (entries: seq<Consulta>)
      ensures this.entries == entries
    {
      this.entries := entries;
    }

    /** `verificar_consulta_hoy`: a pure read of the log. */
    function VerificarConsultaHoy(numeroDocumento: string, now: int): (found: bool)
      reads this
      ensures found <==> QueriedToday(entries, numeroDocumento, now)
    {
      FirstCounting(entries, numeroDocumento, now).Some?
    }

    /** `registrar_consulta`: stage exactly one new entry for the request. The
        keyword-only options default to a remote, error-free attempt; `createdAt` is
        the clock reading that fills `created_at`. */
    method RegistrarConsulta(
      consulta: ConsultaAfiliadoRequest,
      createdAt: int,
      nameonly esLocal: bool := false,
      nameonly errorCode: Option<string> := None,
      nameonly errorDescription: Option<string> := None)
      modifies this
      ensures entries == old(entries) + [Consulta(consulta.nroDocumento, consulta.usuario, esLocal, errorCode, errorDescription, createdAt)]
    {
      var historialConsulta := Consulta(consulta.nroDocumento, consulta.usuario, esLocal, errorCode, errorDescription, createdAt);
      entries := entries + [historialConsulta];
    }
  }

  /** Appending one entry makes the test true exactly when it was already true
      or the new entry itself counts. */
  lemma {:induction false} QueriedAfterAppend(log: seq<Consulta>, e: Consulta, numeroDocumento: string, now: int)
    ensures QueriedToday(log + [e], numeroDocumento, now)
        <==> QueriedToday(log, numeroDocumento, now) || CountsToday(e, numeroDocumento, now)
  {
    var log' := log + [e];
    if QueriedToday(log, numeroDocumento, now) {
      var i :| 0 <= i < |log| && CountsToday(log[i], numeroDocumento, now);
      assert log'[i] == log[i];
    }
    if CountsToday(e, numeroDocumento, now) {
      assert log'[|log|] == e;
    }
    if QueriedToday(log', numeroDocumento, now) {
      var i :| 0 <= i < |log'| && CountsToday(log'[i], numeroDocumento, now);
      if i < |log| {
        assert log'[i] == log[i];
      }
    }
  }

  /** Monotonicity: appending never turns a true test false. */
  lemma AppendKeepsQueried(log: seq<Consulta>, e: Consulta, numeroDocumento: string, now: int)
    requires QueriedToday(log, numeroDocumento, now)
    ensures QueriedToday(log + [e], numeroDocumento, now)
  {
    QueriedAfterAppend(log, e, numeroDocumento, now);
  }

  /** An error-tagged entry never makes the test true: a failed attempt today
      does not suppress a retry. */
  lemma ErrorEntryNeverCounts(log: seq<Consulta>, e: Consulta, numeroDocumento: string, now: int)
    requires e.errorCode.Some?
    ensures QueriedToday(log + [e], numeroDocumento, now) == QueriedToday(log, numeroDocumento, now)
  {
    QueriedAfterAppend(log, e, numeroDocumento, now);
  }

  /** Entries for another document, and entries from before today's midnight,
      never make the test true. */
  lemma ForeignOrStaleEntryNeverCounts(log: seq<Consulta>, e: Consulta, numeroDocumento: string, now: int)
    requires e.numeroDocumento != numeroDocumento || e.createdAt < DayStart(now)
    ensures QueriedToday(log + [e], numeroDocumento, now) == QueriedToday(log, numeroDocumento, now)
  {
    QueriedAfterAppend(log, e, numeroDocumento, now);
  }

  /** A successful entry for the document, stamped today, makes the test true,
      however late in the day it is checked: the bound is lower-only. */
  lemma SuccessTodayCounts(log: seq<Consulta>, e: Consulta, now: int)
    requires e.errorCode.None? && DayStart(now) <= e.createdAt
    ensures QueriedToday(log + [e], e.numeroDocumento, now)
  {
    QueriedAfterAppend(log, e, e.numeroDocumento, now);
  }

  /** The midnight of a day is the start of every instant of that day. */
  lemma DayStartWithinDay(midnight: int, offset: int)
    requires midnight % SecondsPerDay == 0 && 0 <= offset < SecondsPerDay
    ensures DayStart(midnight + offset) == midnight
  {
  }

  /** Day boundary: a successful entry stamped one second before midnight
      counts when checked that second, and no longer counts one second after
      midnight. */
  lemma DayBoundary(e: Consulta, midnight: int)
    requires midnight % SecondsPerDay == 0
    requires e.errorCode.None? && e.createdAt == midnight - 1
    ensures CountsToday(e, e.numeroDocumento, midnight - 1)
    ensures !CountsToday(e, e.numeroDocumento, midnight + 1)
  {
  }
}
