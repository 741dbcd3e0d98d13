/** Optional values, error results and partial-update fields shared by every module. */
module Wrappers {

  /** A value that may be missing (`undefined` / `null` in the application). */
  datatype Option<T> = None | Some(value: T) {
    function GetOr(default: T): T {
      match this
      case Some(v) => v
      case None => default
    }
  }

  /** The outcome of an operation that can be refused with a user-facing message. */
  datatype Result<T> = Ok(value: T) | Err(message: string)

  /**
   * One key of a `Partial<...>` update object: `Keep` when the key is absent,
   * `Put(v)` when the update carries the key with value `v`.
   */
  datatype Patch<T> = Keep | Put(value: T) {
    /** The field after the object spread `{ ...current, ...update }`. */
    function Over(current: T): T {
      match this
      case Keep => current
      case Put(v) => v
    }
  }

  /** JavaScript truthiness of an optional string: defined and not empty. */
  predicate Truthy(o: Option<string>) {
    o.Some? && o.value != ""
  }

  /** The expression `o || fallback` on an optional string. */
  function OrElse(o: Option<string>, fallback: string): (r: string)
    ensures Truthy(o) ==> r == o.value
    ensures !Truthy(o) ==> r == fallback
    ensures fallback != "" ==> r != ""
  {
    if Truthy(o) then o.value else fallback
  }
}
