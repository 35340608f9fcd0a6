/** Value types shared by the whole model. */
module Types {

  datatype Option<+T> = None | Some(value: T)

  /** The two faults the program can raise: the `assert os.path.isdir(path)` in
      image_files and the `assert fromfile != tofile` in add_transition. */
  datatype Error = NotADirectory | SelfTransition

  datatype Result<+T> = Success(value: T) | Failure(error: Error)

  datatype Outcome = Pass | Fail(error: Error)

  /** A resolved image path. os.path.realpath always returns an absolute path,
      so it is never the empty string. */
  type Path = s: string | s != [] witness "/"

  /** Python truthiness of `None` or a string: false for None and for "". */
  predicate Truthy(o: Option<string>)
  {
    o.Some? && o.value != []
  }
}
