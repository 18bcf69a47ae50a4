/** Result and option types shared by every module, and a default-zero map lookup. */
module Wrappers {

  datatype Option<+T> = None | Some(value: T)

  datatype Result<+T, +E> = Ok(value: T) | Err(error: E) {
    predicate IsFailure() {
      Err?
    }

    function PropagateFailure<U>(): Result<U, E>
      requires Err?
    {
      Err(error)
    }

    function Extract(): T
      requires Ok?
    {
      value
    }
  }

  datatype Unit = Unit

  /** `map.get(key).copied().unwrap_or_default()` for numeric values. */
  function Get<K>(m: map<K, int>, k: K): int {
    if k in m then m[k] else 0
  }
}
