/**
 The vocabulary of the relay hub: connection handles, their ready states,
 client roles, how an inbound text message is classified, and the messages
 the hub sends out.
 */
module Protocol {

  datatype Option<T> = None | Some(value: T)

  /** A connection. The server compares socket objects only by identity
      (as Map keys and in `client !== sender`); a number stands for that identity. */
  type Handle = nat

  /** The four values of a socket's `readyState`. */
  datatype ReadyState = Connecting | Open | Closing | Closed

  /** The states the periodic sweep treats as gone. */
  predicate IsStale(s: ReadyState)
  {
    s == Closed || s == Closing
  }

  /** A client's `type`: `"unknown"` until it registers as `web` or `unity`. */
  datatype Role = Unknown | Web | Unity

  /** The text of a role, as it appears in `type`, in confirmations and in envelopes. */
  function RoleName(r: Role): string
  {
    match r
    case Unknown => "unknown"
    case Web => "web"
    case Unity => "unity"
  }

  const RegisterPrefix: string := "register:"

  /** What the message handler does with one inbound text message. */
  datatype Action =
    | SetRole(role: Role)        // `register:web` or `register:unity`
    | Ignore                     // `register:` followed by anything else
    | RelayData(payload: string) // everything without the `register:` prefix

  /** Classifies a message the way the message handler does: the `register:`
      prefix test, then an exact comparison of the rest against `web` and `unity`. */
  function Classify(message: string): (a: Action)
    ensures forall r ::
              a == SetRole(r) <==> r != Unknown && message == RegisterPrefix + RoleName(r)
    ensures a == Ignore <==>
              && RegisterPrefix <= message
              && message != RegisterPrefix + RoleName(Web)
              && message != RegisterPrefix + RoleName(Unity)
    ensures a.RelayData? <==> !(RegisterPrefix <= message)
    ensures a.RelayData? ==> a.payload == message
  {
    if RegisterPrefix <= message then
      var clientType := message[|RegisterPrefix|..];
      assert message == RegisterPrefix + clientType;
      if clientType == "web" then SetRole(Web)
      else if clientType == "unity" then SetRole(Unity)
      else Ignore
    else
      RelayData(message)
  }

  /** The text of a system broadcast: `<type>-client-connected:<id>` or
      `<type>-client-disconnected:<id>`. */
  datatype SystemEvent =
    | ClientConnected(role: Role, id: nat)
    | ClientDisconnected(role: Role, id: nat)

  /** An outbound payload, standing for the text the server sends. */
  datatype Msg =
    | Welcome                                          // the registration prompt
    | Registered(role: Role, id: nat)                  // `registered:<type>:<id>`
    | System(event: SystemEvent)                       // `{source: "system", data}`
    | Data(source: Role, sourceId: nat, data: string)  // `{source, sourceId, data}`

  /** One call of `send` on one socket. */
  datatype Delivery = Delivery(to: Handle, msg: Msg)
}
