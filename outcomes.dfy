/** Optional values, the exceptions the tool raises, and a failure-compatible
    Result type used wherever the Python code can raise. */
module Outcomes {

  datatype Option<+T> = None | Some(value: T)

  /** The exceptions raised by the modelled code, one constructor per
      distinct cause. */
  datatype Error =
    | KeyError(key: string)            // d[k] with k missing
    | AttributeError(attr: string)     // o.attr with attr missing, or a str method on a non-str
    | IndexError                       // s[i] out of range
    | TypeError                        // a value of the wrong shape (e.g. ** on a non-dict)
    | ValueError                       // a wrong value: dict.update with an element that is not a pair, random.sample with a negative n
    | GuaranteesNotMet(what: string)   // the assert in a check_guarantees
    | InvalidRegistry(name: string)    // Dataset: unknown registry name
    | MissingHeader                    // CsvLoader: more cells than headers
    | MissingNameOrVersion             // Dataset.to_inputset without name and version
    | NoInputSetType                   // vanilla Project/Version cannot be exported
    | NoVersions(name: string)         // npm/pypi project exported without versions
    | BadGithubToken                   // github 401
    | GithubRateLimited(hasToken: bool)// github 403; the advice depends on the token
    | NpmRateLimited                   // npm 429
    | NonexistentSortKey               // sort on a missing uuid/meta key
    | UnorderedSortKey                 // sort key that is not a string (outside the model)
    | CannotSample                     // sample on projects with n >= len(projects)
    | NoDataset                        // CLI context without a dataset
    | NoApi                            // Dataset without a registry API client
    | KeyboardInterrupt                // ctrl-c during a network call

  datatype Result<+T> = Ok(value: T) | Err(error: Error) {
    predicate IsFailure() { Err? }

    function PropagateFailure<U>(): Result<U>
      requires Err?
    {
      Err(error)
    }

    function Extract(): T
      requires Ok?
    {
      value
    }
  }
}
