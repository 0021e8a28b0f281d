/** The C# source uses `null` for "no value" (a missing argument, a rejected
    project script). This module gives that absence a datatype. */
module Wrappers {

  datatype Option<+T> = None | Some(value: T)
}
