/** Shared vocabulary: optional values and the message channels. */
module Base {

  datatype Option<+T> = None | Some(value: T) {
    /** The value, or `default` when there is none. */
    function GetOr(default: T): T {
      match this
      case Some(v) => v
      case None => default
    }

    /** This value when there is one, otherwise `other` (the `??` of the source). */
    function OrElse(other: Option<T>): Option<T> {
      if Some? then this else other
    }
  }

  datatype Channel = Email | Whatsapp | Sms

  const MINUTE: int := 60000

  function Min(a: nat, b: nat): nat {
    if a < b then a else b
  }

  function Max(a: int, b: int): int {
    if a >= b then a else b
  }
}
