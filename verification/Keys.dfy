/** The two type parameters of the channels. */
module Keys {
  /** Any type of key (the source asks for an order to keep its tables in). */
  type Key(==, !new)

  /** Any type of message value. */
  type Value(!new)
}
