/** JavaScript values as the notifier sees them: a string property that may be `undefined`,
    its truthiness, and how a template literal prints it. */
module Values {

  /** A value that may be absent; for a string-valued property, `None` is `undefined`. */
  datatype Option<+T> = None | Some(value: T) {

    /** The value, or `default` when absent: JavaScript's `v || default` for a string. */
    function GetOr(default: T): T {
      match this
      case Some(v) => v
      case None => default
    }
  }

  /** JavaScript truthiness of a string property: `undefined` and `""` are falsy. */
  predicate Truthy(v: Option<string>) {
    v.Some? && v.value != ""
  }

  /** How `${v}` prints a string property inside a template literal. */
  function Interpolate(v: Option<string>): string {
    match v
    case Some(s) => s
    case None => "undefined"
  }
}
