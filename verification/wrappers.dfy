/** Optional values: the C# code answers "no such member" with a sentinel
    (an undeclared enum value, an empty string); the model answers with None. */
module Wrappers {

  datatype Option<+T> = None | Some(value: T)

}
