/** What every component shares: bytes, errors, outcomes, the drop event and the client. */
module Ble {
  newtype Byte = b: int | 0 <= b < 256
  type Bytes = seq<Byte>
  type Frame = Bytes

  datatype Option<+T> = None | Some(value: T) {
    function GetOr(default: T): T {
      if Some? then value else default
    }
  }

  /** `Backend` is any exception of the backend or of a callback, told apart by a code. */
  datatype Error =
    | SessionDropped(step: string)
    | NotificationTimeout(step: string)
    | WriteTimeout(step: string)
    | ValueError
    | TimeoutError
    | CancelledError
    | Backend(code: int)

  /** `Unfinished`: the call is still suspended when the run ends. */
  datatype Result<+T> = Returned(value: T) | Raised(error: Error) | Unfinished

  /** `asyncio.Event`, as the session registers it for a link. */
  class DropEvent {
    var isSet: bool

    constructor ()
      ensures !isSet
    {
      isSet := false;
    }
  }

  ghost predicate IsSet(event: DropEvent?)
    reads event
  {
    event != null && event.isSet
  }

  /** One `write_gatt_char` call: what was sent and whether the link was known to be down. */
  datatype Issue = Issue(data: Bytes, linkDown: bool)

  /** A connected client. `issued` is every write started, `written` every write
      that returned; `registered` is the drop event `dropped_event` finds. */
  class Client {
    const registered: DropEvent?
    var issued: seq<Issue>
    var written: seq<Bytes>

    constructor (registered: DropEvent?)
      ensures this.registered == registered && issued == [] && written == []
    {
      this.registered := registered;
      issued, written := [], [];
    }
  }

  function Join(parts: seq<Bytes>): Bytes {
    if parts == [] then [] else parts[0] + Join(parts[1..])
  }

  lemma {:induction false} JoinAppend(a: seq<Bytes>, b: seq<Bytes>)
    ensures Join(a + b) == Join(a) + Join(b)
  {
    if a == [] {
      assert a + b == b;
    } else {
      assert (a + b)[1..] == a[1..] + b;
      JoinAppend(a[1..], b);
    }
  }
}
