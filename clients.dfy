/** A websocket client as the gateway sees it: the heartbeat flag the gateway stores on
    the socket, and whether the socket was terminated. Sending is recorded by the
    gateway and the proxies, not here. */
module Clients {

  class Client {
    /** `socket._receivedHeartbeat`; `undefined` (falsy) until the connection handler runs. */
    var receivedHeartbeat: bool
    /** `socket.terminate()` was called. */
    var terminated: bool
    /** Pings sent to the client. */
    ghost var pings: nat

    constructor()
      ensures !receivedHeartbeat && !terminated && pings == 0
    {
      receivedHeartbeat := false;
      terminated := false;
      pings := 0;
    }
  }
}
