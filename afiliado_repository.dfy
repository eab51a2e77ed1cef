/** The affiliate store (app/repositories/afiliado_repository.py): lookup by
    document number and the upsert that merges only explicitly assigned fields. */
module Afiliados {
  import opened Wrappers
  import opened AfiliadoModel

  /** The `.first()` of `SELECT ... WHERE NroDocumento == numeroDocumento`:
      the position of the first row with that document number. A `None` key
      matches rows whose document number is NULL. */
  function FirstIndex(rows: seq<Afiliado>, numeroDocumento: Option<string>): (r: Option<nat>)
    ensures r.Some? ==> r.value < |rows| && NroDocumentoOf(rows[r.value]) == numeroDocumento
    ensures r.Some? ==> forall j :: 0 <= j < r.value ==> NroDocumentoOf(rows[j]) != numeroDocumento
    ensures r.None? <==> forall j :: 0 <= j < |rows| ==> NroDocumentoOf(rows[j]) != numeroDocumento
  {
    if |rows| == 0 then None
    else if NroDocumentoOf(rows[0]) == numeroDocumento then Some(0)
    else
      match FirstIndex(rows[1..], numeroDocumento)
      case None => None
      case Some(i) => Some(i + 1)
  }

  /** The existing record after `setattr` of every explicitly assigned field of
      the payload; assigning a field also marks it as set. */
  function Merge(existing: Afiliado, payload: Afiliado): (merged: Afiliado)
    ensures forall f :: Column(merged, f) == if f in payload.fieldsSet then Column(payload, f) else Column(existing, f)
    ensures merged.fieldsSet == existing.fieldsSet + payload.fieldsSet
  {
    Afiliado(existing.values + DumpSet(payload), existing.fieldsSet + payload.fieldsSet)
  }

  /** The table after `guardar_o_actualizar(payload)`, with the record it returns. */
  function Upsert(rows: seq<Afiliado>, payload: Afiliado): (seq<Afiliado>, Afiliado)
  {
    match FirstIndex(rows, NroDocumentoOf(payload))
    case Some(i) => var merged := Merge(rows[i], payload); (rows[i := merged], merged)
    case None => (rows + [payload], payload)
  }

  /** At most one row per document number. */
  ghost predicate UniqueDocuments(rows: seq<Afiliado>)
  {
    forall i, j :: 0 <= i < j < |rows| ==> NroDocumentoOf(rows[i]) != NroDocumentoOf(rows[j])
  }

  /** With unique document numbers the lookup does not depend on row order:
      the row it returns is the only row carrying that document number, so
      whichever matching row the database hands back, it is this one. */
  lemma OnlyMatchingRow(rows: seq<Afiliado>, numeroDocumento: Option<string>, k: nat)
    requires UniqueDocuments(rows)
    requires k < |rows| && NroDocumentoOf(rows[k]) == numeroDocumento
    ensures FirstIndex(rows, numeroDocumento) == Some(k)
  {
  }

  /** The affiliate table as the shared session sees it. */
  class AfiliadoRepository {
    var rows: seq<Afiliado>

    constructor (rows: seq<Afiliado>)
      ensures this.rows == rows
    {
      this.rows := rows;
    }

    /** `buscar_por_documento`. */
    function BuscarPorDocumento(numeroDocumento: Option<string>): (found: Option<Afiliado>)
      reads this
      ensures found.Some? ==> found.value in rows && NroDocumentoOf(found.value) == numeroDocumento
      ensures found.None? <==> forall a :: a in rows ==> NroDocumentoOf(a) != numeroDocumento
    {
      match FirstIndex(rows, numeroDocumento)
      case None => None
      case Some(i) => Some(rows[i])
    }

    /** `guardar_o_actualizar`: merge the payload into the row with its document
        number, field by field, or stage the payload as a new row. */
    method GuardarOActualizar(afiliadoData: Afiliado) returns (saved: Afiliado)
      modifies this
      ensures (rows, saved) == Upsert(old(rows), afiliadoData)
    {
      match FirstIndex(rows, NroDocumentoOf(afiliadoData))
      case Some(i) =>
        var existente := rows[i];
        var dump := DumpSet(afiliadoData);
        var pending := dump.Keys;
        var afiliadoExistente := existente;
        while pending != {}
          invariant pending <= dump.Keys
          invariant afiliadoExistente.values
                 == existente.values + map f | f in dump.Keys - pending :: dump[f]
          invariant afiliadoExistente.fieldsSet == existente.fieldsSet + (dump.Keys - pending)
          decreases pending
        {
          var key :| key in pending;
          afiliadoExistente := Afiliado(afiliadoExistente.values[key := dump[key]], afiliadoExistente.fieldsSet + {key});
          pending := pending - {key};
        }
        assert dump.Keys == afiliadoData.fieldsSet;
        assert dump.Keys - pending == dump.Keys;
        assert (map f | f in dump.Keys :: dump[f]) == dump;
        rows := rows[i := afiliadoExistente];
        saved := afiliadoExistente;
      case None =>
        rows := rows + [afiliadoData];
        saved := afiliadoData;
    }
  }

  /** Lookup finds a row with the asked-for document number, and finds nothing
      only when no row has it. */
  lemma LookupAgreesWithTable(rows: seq<Afiliado>, numeroDocumento: Option<string>)
    ensures FirstIndex(rows, numeroDocumento).None?
        <==> !exists a :: a in rows && NroDocumentoOf(a) == numeroDocumento
  {
  }

  /** With no row for the document, the payload is added unchanged and returned. */
  lemma UpsertInserts(rows: seq<Afiliado>, payload: Afiliado)
    requires forall a :: a in rows ==> NroDocumentoOf(a) != NroDocumentoOf(payload)
    ensures Upsert(rows, payload) == (rows + [payload], payload)
  {
    LookupAgreesWithTable(rows, NroDocumentoOf(payload));
  }

  /** With a row for the document, that row (the first one) is merged in place
      and returned; no row is added and every other row is untouched. Fields the
      payload set overwrite, even with None; unset fields keep their values. */
  lemma UpsertUpdates(rows: seq<Afiliado>, payload: Afiliado, i: nat)
    requires FirstIndex(rows, NroDocumentoOf(payload)) == Some(i)
    ensures |Upsert(rows, payload).0| == |rows|
    ensures Upsert(rows, payload).1 == Upsert(rows, payload).0[i]
    ensures forall j :: 0 <= j < |rows| && j != i ==> Upsert(rows, payload).0[j] == rows[j]
    ensures forall f :: f in payload.fieldsSet ==> Column(Upsert(rows, payload).1, f) == Column(payload, f)
    ensures forall f :: f !in payload.fieldsSet ==> Column(Upsert(rows, payload).1, f) == Column(rows[i], f)
  {
  }

  /** The returned record carries the payload's document number. */
  lemma UpsertKeepsDocument(rows: seq<Afiliado>, payload: Afiliado)
    ensures NroDocumentoOf(Upsert(rows, payload).1) == NroDocumentoOf(payload)
  {
  }

  /** Where the upsert leaves the record for the payload's document: at the
      position of the row it merged into, or at the end when it inserted. */
  function UpsertPosition(rows: seq<Afiliado>, payload: Afiliado): nat
  {
    match FirstIndex(rows, NroDocumentoOf(payload))
    case Some(i) => i
    case None => |rows|
  }

  /** After an upsert, looking up the payload's document number finds exactly
      the record the upsert returned. */
  lemma UpsertIsFound(rows: seq<Afiliado>, payload: Afiliado)
    ensures var (rows', saved) := Upsert(rows, payload);
      && FirstIndex(rows', NroDocumentoOf(payload)) == Some(UpsertPosition(rows, payload))
      && rows'[UpsertPosition(rows, payload)] == saved
  {
    var key := NroDocumentoOf(payload);
    var (rows', saved) := Upsert(rows, payload);
    UpsertKeepsDocument(rows, payload);
    var p := UpsertPosition(rows, payload);
    assert rows'[p] == saved;
    assert forall j :: 0 <= j < p ==> rows'[j] == rows[j];
  }

  /** The first-match conditions pin the lookup's answer down. */
  lemma FirstIndexIs(rows: seq<Afiliado>, numeroDocumento: Option<string>, k: nat)
    requires k < |rows| && NroDocumentoOf(rows[k]) == numeroDocumento
    requires forall j :: 0 <= j < k ==> NroDocumentoOf(rows[j]) != numeroDocumento
    ensures FirstIndex(rows, numeroDocumento) == Some(k)
  {
  }

  /** An upsert does not change what a lookup by any other document number
      finds: the only row it writes carries the payload's document number. */
  lemma UpsertKeepsOtherLookups(rows: seq<Afiliado>, payload: Afiliado, numeroDocumento: Option<string>)
    requires numeroDocumento != NroDocumentoOf(payload)
    ensures FirstIndex(Upsert(rows, payload).0, numeroDocumento) == FirstIndex(rows, numeroDocumento)
  {
    var rows' := Upsert(rows, payload).0;
    UpsertKeepsDocument(rows, payload);
    assert forall k :: 0 <= k < |rows'| ==> rows'[k] == Upsert(rows, payload).1 || (k < |rows| && rows'[k] == rows[k]);
    match FirstIndex(rows, numeroDocumento)
    case None =>
      assert forall k :: 0 <= k < |rows'| ==> NroDocumentoOf(rows'[k]) != numeroDocumento;
    case Some(j) =>
      FirstIndexIs(rows', numeroDocumento, j);
  }

  /** The upsert keeps the table free of duplicate document numbers. */
  lemma UpsertKeepsUnique(rows: seq<Afiliado>, payload: Afiliado)
    requires UniqueDocuments(rows)
    ensures UniqueDocuments(Upsert(rows, payload).0)
  {
  }

  /** Merging the same payload a second time changes nothing. */
  lemma MergeTwice(existing: Afiliado, payload: Afiliado)
    ensures Merge(Merge(existing, payload), payload) == Merge(existing, payload)
  {
  }

  /** A well-formed payload merged into itself is itself. */
  lemma MergeIntoItself(payload: Afiliado)
    requires WellFormed(payload)
    ensures Merge(payload, payload) == payload
  {
  }

  /** Upserting the same payload twice leaves the same table, and returns the
      same record, as upserting it once. */
  lemma UpsertIdempotent(rows: seq<Afiliado>, payload: Afiliado)
    requires WellFormed(payload)
    ensures Upsert(Upsert(rows, payload).0, payload) == Upsert(rows, payload)
  {
    var (rows', saved) := Upsert(rows, payload);
    UpsertIsFound(rows, payload);
    var k := UpsertPosition(rows, payload);
    match FirstIndex(rows, NroDocumentoOf(payload))
    case None =>
      MergeIntoItself(payload);
      assert rows'[k := Merge(rows'[k], payload)] == rows';
    case Some(i) =>
      MergeTwice(rows[i], payload);
      assert rows'[k := Merge(rows'[k], payload)] == rows';
  }
}
