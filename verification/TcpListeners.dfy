/** The TCP proxy's open listeners, by port, with the relay handler that opened each. */
module TcpListeners {
  import Itoa

  type Table = map<int, nat>

  /** A port that has to be opened and whose number does not fit the formatting buffer. */
  predicate Panics(t: Table, port: int) {
    port > 0 && port !in t && !Itoa.Formats(port)
  }

  function Listen(t: Table, port: int, owner: nat, available: bool): Table {
    if port <= 0 || port in t || Panics(t, port) || !available then t else t[port := owner]
  }

  function Unlisten(t: Table, port: int): Table {
    t - {port}
  }

  datatype Ensured = Done | Failed | Panicked

  class TCPProxy {
    var listeners: Table

    constructor ()
      ensures listeners == map[]
    {
      listeners := map[];
    }

    /** `available` is whether the operating system grants the address. */
    method EnsureListener(port: Itoa.int64, owner: nat, available: bool) returns (result: Ensured)
      modifies this
      ensures listeners == Listen(old(listeners), port, owner, available)
      ensures result.Panicked? <==> Panics(old(listeners), port)
      ensures result.Done? <==> port <= 0 || port in listeners
    {
      if port <= 0 || port in listeners {
        return Done;
      }
      var text := Itoa.Itoa(port);
      if text.None? {
        return Panicked;
      }
      if !available {
        return Failed;
      }
      listeners := listeners[port := owner];
      return Done;
    }

    method RemoveListener(port: int)
      modifies this
      ensures listeners == Unlisten(old(listeners), port)
    {
      if port !in listeners {
        return;
      }
      listeners := listeners - {port};
    }
  }
}
