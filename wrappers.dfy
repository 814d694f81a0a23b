/** The optional value used for the answers of the mapping service that may be missing. */
module Wrappers {

  /** `None` stands for Python's `None`, an empty result list, or "no route". */
  datatype Option<+T> = None | Some(value: T)
}
