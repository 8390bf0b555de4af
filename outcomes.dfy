/** Option and Result values, used for the null fields of the stored records
    and for the error answers of the handlers. */
module Outcomes {

  datatype Option<+T> = None | Some(value: T)

  datatype Result<+T, +E> = Ok(value: T) | Err(error: E)
}
