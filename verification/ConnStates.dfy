/** The state of a TCP connection, which its own code and the server's life cycle both go by. */
module ConnStates {
  datatype ConnState = Connecting | Connected | Disconnecting | Disconnected
}
