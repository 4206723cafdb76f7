/** Small shared vocabulary: an optional value (Python's `None`, JavaScript's
    `null`) and the minimum of two integers. */
module Common {

  datatype Option<+T> = None | Some(value: T)

  function Min(a: int, b: int): (m: int)
    ensures m <= a && m <= b
    ensures m == a || m == b
  {
    if a <= b then a else b
  }
}
