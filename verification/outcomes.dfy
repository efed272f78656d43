/** Option and Result values used across the model.

    `Result` stands for a call into a foreign service (BigQuery, Cloud Storage,
    Document AI) that either returns a value or raises; the error carries the
    text `str(e)` that the Python code reports for the exception. */
module Outcomes {

  datatype Option<+T> = None | Some(value: T)

  datatype Result<+T> = Ok(value: T) | Raised(message: string)
}
