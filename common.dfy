/** Value types shared by every component: bytes, optional values, results and
    the shared mutable cell that stands for `Rc<RefCell<T>>`. */
module Common {

  /** An unsigned 8-bit word, the unit every SPI transfer exchanges. */
  newtype Byte = b: int | 0 <= b < 0x100

  datatype Option<T> = None | Some(value: T)

  datatype Result<T, E> = Ok(value: T) | Err(error: E)

  /** Forgets the success value of a result, keeping only whether it failed and how. */
  function Status<T, E>(r: Result<T, E>): Result<(), E>
  {
    match r
    case Ok(_) => Ok(())
    case Err(e) => Err(e)
  }

  function Min(a: int, b: int): int
  {
    if a <= b then a else b
  }

  /** A cell shared by reference between several handles; a write through one
      handle is seen by every other handle at once. */
  class Shared<T> {
    var value: T

    constructor (value: T)
      ensures this.value == value
    {
      this.value := value;
    }
  }
}
