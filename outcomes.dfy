/** Optional values and the error results the modelled code raises as exceptions. */
module Outcomes {

  datatype Option<+T> = None | Some(value: T)

  /** The exceptions of the original code that the model keeps, as values. */
  datatype Error =
    | GitHubException(message: string)  // a GitHub response that is not the expected one
    | IndexError                        // `labels[i]` past the end of the label list
    | JsonDecodeError                   // an existing output file that is not JSON
    | TypeError                         // `+` between a JSON array and something else
    | ConfigError(message: string)      // a field configuration the model cannot represent

  datatype Result<+T> = Ok(value: T) | Err(error: Error)
}
