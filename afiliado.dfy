/** The affiliate record (app/models/afiliado.py). A record is the value of
    each of its columns together with the set of columns that were explicitly
    assigned (pydantic's fields-set), which is what `model_dump(exclude_unset=True)`
    consults. */
module AfiliadoModel {
  import opened Wrappers

  /** The columns of the `Afiliado` table. */
  datatype Field =
    | Id | IdError | Resultado | TipoDocumento | NroDocumento | ApePaterno
    | ApeMaterno | Nombres | FecAfiliacion | EESS | DescEESS | EESSUbigeo
    | DescEESSUbigeo | Regimen | TipoSeguro | DescTipoSeguro | Contrato
    | FecCaducidad | Estado | Tabla | IdNumReg | Genero | FecNacimiento
    | IdUbigeo | Disa | TipoFormato | NroContrato | Correlativo | IdPlan
    | IdGrupoPoblacional | MsgConfidencial | ServerError | CreatedAt

  /** A column value: SQL NULL (Python None), an integer, a string or a timestamp. */
  datatype Value = Null | Int(i: int) | Str(s: string) | Timestamp(t: int)

  datatype Afiliado = Afiliado(values: map<Field, Value>, fieldsSet: set<Field>)

  /** Every column has a value, as on every instance of the model class. */
  ghost predicate WellFormed(a: Afiliado)
  {
    forall f: Field :: f in a.values
  }

  /** The value of column `f`; a column missing from the map reads as None. */
  function Column(a: Afiliado, f: Field): Value
  {
    if f in a.values then a.values[f] else Null
  }

  /** The `NroDocumento` attribute, the key lookups and upserts use. */
  function NroDocumentoOf(a: Afiliado): Option<string>
  {
    match Column(a, NroDocumento)
    case Str(s) => Some(s)
    case _ => None
  }

  /** `model_dump(exclude_unset=True)`: the explicitly assigned columns and their values. */
  function DumpSet(a: Afiliado): map<Field, Value>
  {
    map f | f in a.fieldsSet :: Column(a, f)
  }
}
