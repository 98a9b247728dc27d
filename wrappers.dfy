/** Optional values: the Dafny counterpart of the nil-able pointers the AWS SDK hands back. */
module Wrappers {

  datatype Option<+T> = None | Some(value: T) {

    /** The wrapped value, or `default` when there is none (the shape of aws.ToString / aws.ToInt64). */
    function GetOr(default: T): T {
      match this
      case Some(v) => v
      case None => default
    }
  }
}
