/** Optional values, the errors an attempt can raise, and results that carry either. */
module Outcomes {

  datatype Option<+T> = None | Some(value: T) {
    function GetOr(default: T): T {
      match this
      case Some(v) => v
      case None => default
    }
  }

  /** The errors a single attempt can throw. */
  datatype Error =
    | EmptyResponse                 // "Resposta vazia da IA"
    | InvalidJsonFormat             // "Formato de JSON inválido retornado pela IA"
    | TypeError                     // reading a property of a parsed `null`
    | Upstream(reason: string)      // the generation call itself failed, passed through as-is

  datatype Result<+T> = Ok(value: T) | Err(error: Error)
}
