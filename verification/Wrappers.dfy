// An optional value: a TypeScript field that may be `undefined`.
module Wrappers {
  datatype Option<+T> = None | Some(value: T) {
    function Or(fallback: T): T {
      if Some? then value else fallback
    }
  }
}
