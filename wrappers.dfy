/** The optional value used wherever the source may see `null` or a failed `TryGetValue`. */
module Wrappers {

  datatype Option<+T> = None | Some(value: T)
}
