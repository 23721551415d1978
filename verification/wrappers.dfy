/** Optional values, used wherever the alarm code returns `None` instead of
    an object (a rejected construction or derivation) and for the optional
    `id_` and `timestamp` fields. */
module Wrappers {

  datatype Option<+T> = None | Some(value: T)
}
