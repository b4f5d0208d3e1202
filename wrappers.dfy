/** Result and error values shared by the binders and the materializers. */
module Wrappers {

  datatype Option<+T> = None | Some(value: T)

  /** The ways the modelled operations fail: the Python code raises here. */
  datatype FetchError =
    | MissingRole(role: string)             // KeyError on a role-keyed template lookup
    | StageIndexOutOfRange(index: nat)      // IndexError on a positional stage write
    | NoArrays                              // IndexError on `arrays[0]` when the engine returned none
    | RowTooShort(row: nat)                 // IndexError on `lst[2]` for a row of fewer than three fields
    | AppendOnArray(row: nat)               // AttributeError: `append` called on a numpy array

  datatype Result<+T> = Ok(value: T) | Err(error: FetchError)

  datatype Outcome = Pass | Fail(error: FetchError)
}
