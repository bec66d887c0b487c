/** Vocabulary shared by the modules of the project. */
module Common {

  datatype Option<+T> = None | Some(value: T)

  /** The value of an optional number, with absence read as zero. */
  function OrZero(o: Option<nat>): nat {
    match o
    case None => 0
    case Some(n) => n
  }
}
