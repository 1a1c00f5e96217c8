/** Wire-level vocabulary shared by the browser client and the pairing server:
    the `{type, data}` envelope, already parsed from JSON, and the outcome of
    an event handler. */
module Protocol {

  datatype Option<T> = None | Some(value: T)

  /** A JSON value, as far as either side inspects it.  `Undefined` is a key
      that `JSON.stringify` dropped (`_send('rtc.connect')` has no data);
      `PeerInfo` is the `{initiator: b}` object carried by `peer.found`;
      `Opaque` stands for any other object (application payloads, signaling
      blobs), which both sides pass along without looking inside. */
  datatype Data =
    | Undefined
    | Null
    | Text(s: string)
    | PeerInfo(initiator: bool)
    | Opaque(token: nat)

  /** One frame on the relay: `{type: kind, data: data}`. */
  datatype Envelope = Envelope(kind: string, data: Data)

  /** A received frame: either text that `JSON.parse` rejects, or an envelope. */
  datatype Incoming = Malformed | Parsed(env: Envelope)

  /** How an event handler ended: it ran to its end, or it threw a TypeError
      partway (dereferencing null, calling `forEach`/`indexOf` on a value that
      is not an array).  State changed before the throw stays changed. */
  datatype Outcome = Completed | Threw

  /** The string a JavaScript object uses as the property key for a value:
      this is how the server turns a `pair` message's data into the code that
      indexes its tables.  Arrays (keyed by their comma join), numbers and
      booleans have keys of their own; `Data` has no variant for them. */
  function PropertyKey(d: Data): (r: string)
    ensures d.Text? ==> r == d.s
    ensures d.Null? ==> r == "null"
    ensures d.Undefined? ==> r == "undefined"
    ensures d.PeerInfo? || d.Opaque? ==> r == "[object Object]"
  {
    match d
    case Undefined => "undefined"
    case Null => "null"
    case Text(s) => s
    case PeerInfo(_) => "[object Object]"
    case Opaque(_) => "[object Object]"
  }
}
