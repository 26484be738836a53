/** Values shared by every model in this project. */
module Values {

  type Id = nat

  datatype Option<+T> = None | Some(value: T) {
    function GetOr(default: T): T {
      match this
      case Some(v) => v
      case None => default
    }
  }

  datatype Error = NotFound | InvalidArgument | Forbidden | Conflict

  datatype Result<+T> = Ok(value: T) | Err(error: Error)

  function Min(a: int, b: int): int {
    if a <= b then a else b
  }

  // The identity a caller presents. A blank name and the literal "unknown"
  // prove nothing about who is acting.
  datatype Actor = Blank | Unknown | Named(name: nat)

  predicate SameActor(a: Actor, b: Actor) {
    a.Named? && a == b
  }
}
