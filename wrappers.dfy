/** Optional values. What `None` stands for depends on the use: for a form
    reading it is the `NaN` that `parseFloat` yields for a blank or
    non-numeric field; for the current profile it is `null`; for what storage
    holds it is "nothing stored"; for the result of `LoadProfile` it is
    "`calculateResults` did not run". */
module Wrappers {

  datatype Option<+T> = None | Some(value: T)
}
