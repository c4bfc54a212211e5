/** The optional value used throughout the model for the source's `undefined` and SQL NULL. */
module Options {
  datatype Option<+T> = None | Some(value: T) {
    function UnwrapOr(default: T): T {
      if this.Some? then value else default
    }
  }
}
