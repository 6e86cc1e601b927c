/** The kernel boundary: the low-level types the process sees through its
    generated bindings, and a reference model of the kernel's capability
    store. Nothing here is library logic; it is what the library consumes. */
module Standard {
  import opened Wrappers
  import opened Identifiers

  newtype byte = b: int | 0 <= b < 0x100

  type Bytes = seq<byte>

  /** A lazily fetched attachment: optional MIME type plus raw bytes. */
  datatype Payload = Payload(mime: Option<string>, bytes: Bytes)

  /** A capability: the issuer it lets us reach, and opaque parameters. */
  datatype Capability = Capability(issuer: Address, params: string)

  /** The kernel's own failure kinds for an outbound message. */
  datatype SendErrorKind = Offline | Timeout

  /** The kernel's bounced-message record; `W` is the kernel message type. */
  datatype SendError<W> = SendError(kind: SendErrorKind, message: W, payload: Option<Payload>)

  /** What one blocking `receive()` hands back: a message with its source, or
      a bounced send together with the context of the request that caused it. */
  type Received<W> = Result<(Address, W), (SendError<W>, Option<Bytes>)>

  /** One `share_capability(target, cap)` call made into the kernel. */
  datatype ShareCall = ShareCall(target: ProcessId, cap: Capability)

  predicate Matches(c: Capability, issuer: Address, params: string) {
    c.issuer == issuer && c.params == params
  }

  /** A reference capability store: the first held capability whose issuer
      and parameters equal the query, compared byte for byte. */
  function FindCapability(held: seq<Capability>, issuer: Address, params: string): (r: Option<Capability>)
    ensures r.Some? <==> exists k :: 0 <= k < |held| && Matches(held[k], issuer, params)
    ensures r.Some? ==> r.value in held && Matches(r.value, issuer, params)
  {
    if |held| == 0 then None
    else if Matches(held[0], issuer, params) then Some(held[0])
    else
      var rest := FindCapability(held[1..], issuer, params);
      assert forall k :: 1 <= k < |held| ==> held[k] == held[1..][k - 1];
      rest
  }
}
