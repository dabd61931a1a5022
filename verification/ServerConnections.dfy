/** The stages of a server connection, for the models of the sessions and of the snapshots it shares in. */
module ServerConnections {
  type ConnId = nat

  datatype ConnStage = AwaitingHello | Handshaking | Ready | Closing | Closed

  function Order(stage: ConnStage): nat {
    match stage
    case AwaitingHello => 0
    case Handshaking => 1
    case Ready => 2
    case Closing => 3
    case Closed => 4
  }
}
