/** Listener sockets and the accept loop's registrations of them. */
module Listeners {
  import opened Mdns

  /** Which handler a registered listener leads to. */
  datatype Endpoint = Endpoint(uid: string, kind: ServiceType)

  class AcceptLoop {
    /** Sockets this process has bound and not closed, with their ports. */
    var open: map<nat, nat>
    var registered: map<nat, Endpoint>
    var nextSocket: nat
    var stopped: bool
    /** The port the system picks for the n-th socket when asked for any. */
    const ephemeral: nat -> nat

    constructor (ephemeral: nat -> nat)
      ensures open == map[] && registered == map[] && nextSocket == 0 && !stopped
      ensures this.ephemeral == ephemeral
    {
      this.ephemeral := ephemeral;
      open, registered, nextSocket, stopped := map[], map[], 0, false;
    }

    ghost predicate Valid()
      reads this
    {
      && (forall s :: s in open ==> s < nextSocket)
      && registered.Keys <= open.Keys
    }

    /** Bind and listen on `port`, or on any free one for port 0. */
    method Bind(port: nat) returns (sock: nat, actual: nat)
      requires Valid()
      modifies this`open, this`nextSocket
      ensures Valid() && sock == old(nextSocket) && nextSocket == sock + 1
      ensures actual == if port == 0 then ephemeral(sock) else port
      ensures open == old(open)[sock := actual] && sock !in old(open)
    {
      sock := nextSocket;
      nextSocket := nextSocket + 1;
      actual := if port == 0 then ephemeral(sock) else port;
      open := open[sock := actual];
    }

    method Register(sock: nat, endpoint: Endpoint)
      requires Valid() && sock in open
      modifies this`registered
      ensures Valid() && registered == old(registered)[sock := endpoint]
    {
      registered := registered[sock := endpoint];
    }

    /** A no-op for a socket that is not registered. */
    method Unregister(sock: nat)
      requires Valid()
      modifies this`registered
      ensures Valid() && registered == old(registered) - {sock}
    {
      registered := registered - {sock};
    }

    method CloseSocket(sock: nat)
      requires Valid() && sock !in registered
      modifies this`open
      ensures Valid() && open == old(open) - {sock}
    {
      open := open - {sock};
    }

    /** Stop the loop and release the selector. */
    method Close()
      modifies this`stopped
      ensures stopped
    {
      stopped := true;
    }
  }
}
