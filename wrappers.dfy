/** Optional values: a landmark the pose tracker did not report, or a frame
    whose processing stopped before it produced a verdict. */
module Wrappers {
  datatype Option<+T> = None | Some(value: T)
}
