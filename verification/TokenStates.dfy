/** Tokens and the states of the connection that carries them. */
module TokenStates {
  type Data(==, !new)

  /** A token without data is sent where a node has published nothing. */
  datatype Token = NoMessage | Value(data: Data)

  /** `Done` is also the initial state: the two are one value of the enumeration. */
  datatype State = Done | Unread | Read

  datatype Option<+T> = None | Some(value: T)
}
