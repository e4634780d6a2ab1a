/** Option and Result values for the model: a Python `False`/`None` becomes `None`,
    a raised `Warning` or failed `assert` becomes `Err`. */
module Results {

  datatype Option<+T> = None | Some(value: T)

  datatype Result<+T, +E> = Ok(value: T) | Err(error: E)
}
