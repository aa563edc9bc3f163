/** Types shared by the result evaluation and the task configuration. */
module Common {

  /** A Java reference that may be null. */
  datatype Option<+T> = None | Some(value: T)

  /** A file-system path, as a `java.io.File` names it. */
  type Path = string
}
