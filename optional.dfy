/** The optional value used for empty spell slots, a missing previous card and absent allowed-state lists. */
module Optional {
  datatype Option<+T> = None | Some(value: T)
}
