/** Request bodies (app/api/requests.py). */
module Requests {
  import opened Wrappers

  /** Credentials for the registry's GetSession call. */
  datatype CredencialesRequest = CredencialesRequest(usuario: string, clave: string)

  /** One affiliate lookup, as the caller submits it. */
  datatype ConsultaAfiliadoRequest = ConsultaAfiliadoRequest(
    opcion: int,
    dni: string,
    tipoDocumento: string,
    nroDocumento: string,
    disa: Option<string>,
    tipoFormato: Option<string>,
    nroContrato: Option<string>,
    correlativo: Option<string>,
    usuario: string)
}
