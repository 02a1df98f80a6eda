/**
 * The optional value used wherever the source reads a property that may be absent,
 * a string property that may be undefined in particular.
 */
module Wrappers {

  datatype Option<+T> = None | Some(value: T) {

    /** Returns the value held in Some, or the default when None. */
    function GetOr(default: T): T {
      match this
      case Some(v) => v
      case None => default
    }
  }

  /** A property as a template literal prints it: undefined prints as "undefined". */
  function Shown(v: Option<string>): string {
    match v
    case None => "undefined"
    case Some(s) => s
  }

  /** JavaScript truthiness of a string-valued property. */
  predicate Truthy(v: Option<string>) {
    v.Some? && v.value != ""
  }
}
