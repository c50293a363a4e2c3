/** Small value wrappers shared by the client and the server model. */
module Wrappers {

  /** An optional value: a missing JSON field, an absent lookup result, a request not sent. */
  datatype Option<+T> = None | Some(value: T)
}
