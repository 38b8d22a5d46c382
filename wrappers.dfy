/** The usual optional-value and result datatypes, used for the JSON values
    a job descriptor may leave out, for a job whose transform is missing and
    for a configuration check that fails. */
module Wrappers {

  datatype Option<+T> = None | Some(value: T)

  datatype Result<+T, +E> = Ok(value: T) | Err(error: E)

}
