/** Shared building blocks: an optional value and the control plane's time constants. */
module Base {

  datatype Option<+T> = None | Some(value: T)

  // Durations are milliseconds.
  const SECOND := 1000
  const MINUTE := 60 * SECOND
  const HOUR := 60 * MINUTE

  // Any element, as ranging over a Go map yields one.
  method Pick<T>(s: set<T>) returns (x: T)
    requires s != {}
    ensures x in s
  {
    x :| x in s;
  }

  ghost function AnyOf<T>(s: set<T>): (x: T)
    requires s != {}
    ensures x in s
  {
    var x :| x in s; x
  }

  function Min(a: int, b: int): int {
    if a < b then a else b
  }
}
