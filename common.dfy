/** Small value types and integer helpers shared by the three evaluators. */
module Common {

  /** A dictionary lookup that may find nothing: `None` stands for a missing key. */
  datatype Option<+T> = None | Some(value: T) {

    /** The value, or `default` when the key is missing (Python's `dict.get(key, default)`). */
    function GetOr(default: T): T {
      match this
      case Some(v) => v
      case None => default
    }
  }

  /** Python's `min` on two integers. */
  function Min(a: int, b: int): int {
    if a <= b then a else b
  }

  /** Python's `abs` on an integer. */
  function Abs(x: int): nat {
    if x < 0 then -x else x
  }
}
