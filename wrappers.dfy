/** Optional values. `None` stands for a result the source cannot produce:
    a NaN from numpy, or Python's `None` returned by a guarded computation. */
module Wrappers {

  datatype Option<+T> = None | Some(value: T)
}
