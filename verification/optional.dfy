/** Optional values: the model's stand-in for Go's nil-able pointer arguments
    and for the empty-string "unset" state of the filter record's enum fields. */
module Optional {

  datatype Option<+T> = None | Some(value: T)
}
