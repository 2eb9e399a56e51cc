/** The optional-value wrapper used for every optional field of the fetched guard and asset
    data and for results that may be absent (undefined). */
module Wrappers {

  datatype Option<+T> = None | Some(value: T)
}
