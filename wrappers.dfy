/** The conventional Option datatype: `None` stands for a pandas NaN (a missing value). */
module Wrappers {

  datatype Option<+T> = None | Some(value: T)
}
