/** The optional value used for the nullable columns of the users table and
    for the keys of the conversation's per-user dictionary. */
module Wrappers {
  datatype Option<+T> = None | Some(value: T)
}
