/** Small shared vocabulary: optional values and integer helpers. */
module Common {

  /** A value that may be absent; stands for a null pointer or an empty result. */
  datatype Option<T> = None | Some(value: T)

  function Max(a: int, b: int): int { if a >= b then a else b }

  function Min(a: int, b: int): int { if a <= b then a else b }
}
