/** The error codes of the API (app/api/exceptions.py). Each code is the triple
    (error_code, message, description) of its enumeration member. */
module Exceptions {
  import opened Wrappers

  datatype ErrorCode =
    | ConsultarAfiliadoFuaeError
    | GetSessionError
    | DisconectedSisService
    | BadResponse
    | InvalidCredentials
    | PermissionDenied
  {
    /** The `error_code` attribute. */
    function Code(): string
    {
      match this
      case ConsultarAfiliadoFuaeError => "API-504"
      case GetSessionError => "API-505"
      case DisconectedSisService => "API-503"
      case BadResponse => "API-422"
      case InvalidCredentials => "API-401"
      case PermissionDenied => "PERM-403"
    }

    /** The `message` attribute. */
    function Message(): string
    {
      match this
      case ConsultarAfiliadoFuaeError => "SOAP Fault en ConsultarAfiliadoFuaE"
      case GetSessionError => "SOAP Fault en GetSession."
      case DisconectedSisService => "Error al conectar con el servicio SIS."
      case BadResponse => "Respuesta del servicio invalida."
      case InvalidCredentials => "Credenciales inválidas"
      case PermissionDenied => "Permission denied."
    }

    /** The `description` attribute. */
    function Description(): string
    {
      match this
      case ConsultarAfiliadoFuaeError => "Error al consultar afiliado"
      case GetSessionError => "Error al conectar con el servicio SIS."
      case DisconectedSisService => "Porfavor intente mas tarde."
      case BadResponse => "Porfavor intente mas tarde."
      case InvalidCredentials => "Porfavor intente mas tarde."
      case PermissionDenied => "Access to this resource is forbidden."
    }
  }

  /** The error tuple `(error_code, status_code, message)` the affiliate service returns. */
  datatype Failure = Failure(code: ErrorCode, status: int, message: Option<string>)
}
