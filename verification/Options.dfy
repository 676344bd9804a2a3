/** The stock option type: TypeScript's optional fields and `undefined` results. */
module Options {

  datatype Option<+T> = None | Some(value: T) {

    /** The `??` operator. */
    function GetOr(default: T): T {
      match this
      case Some(v) => v
      case None => default
    }
  }
}
