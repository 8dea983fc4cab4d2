/** The HTTP client connection a request arrives on (an external collaborator). */
module Connection {

  class ClientConnection {
    /** Set by the connection layer when the client goes away; the calculator only reads it. */
    var disconnected: bool
    /** Request ids of the generation handles that the registered disconnection callbacks drop. */
    var dropCallbacks: seq<nat>

    /** registerDisconnectionCallback with a callback that drops the handle of request `requestId`. */
    method RegisterDisconnectionCallback(requestId: nat)
      modifies this`dropCallbacks
      ensures dropCallbacks == old(dropCallbacks) + [requestId]
    {
      dropCallbacks := dropCallbacks + [requestId];
    }
  }
}
