/** The optional value used for scala.Option and for nullable Java references. */
module Options {

  datatype Option<+T> = None | Some(value: T) {

    /** The carried value, or `default` when there is none (OptionHelper.getOrElse). */
    function GetOrElse(default: T): T
    {
      match this
      case Some(v) => v
      case None => default
    }
  }
}
