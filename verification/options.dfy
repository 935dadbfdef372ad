/** The outcome of an operation that Python would abort with an exception
    (a ZeroDivisionError, or numpy's ValueError for a negative count):
    None stands for the exception. */
module Options {
  datatype Option<T> = None | Some(value: T)
}
