/** `await_message`: the translation of one kernel `receive()` result into
    the library's `Result<Message, SendError>`. */
module Receive {
  import opened Wrappers
  import opened Identifiers
  import Standard
  import opened Message

  /** The one-to-one mapping of kernel error kinds onto library kinds. */
  function TranslateKind(k: Standard.SendErrorKind): (r: SendErrorKind)
    ensures r.Offline? <==> k.Offline?
    ensures r.Timeout? <==> k.Timeout?
  {
    match k
    case Offline => Offline
    case Timeout => Timeout
  }

  /** The kernel kind a library kind stands for. */
  function KindToKernel(k: SendErrorKind): (r: Standard.SendErrorKind)
    ensures r.Offline? <==> k.Offline?
  {
    match k
    case Offline => Standard.Offline
    case Timeout => Standard.Timeout
  }

  /** The two kind mappings undo each other. */
  lemma KindRoundTrip(k: Standard.SendErrorKind, l: SendErrorKind)
    ensures KindToKernel(TranslateKind(k)) == k
    ensures TranslateKind(KindToKernel(l)) == l
  {
  }

  /** `received` is what the kernel's blocking `receive()` returned; `convert`
      is the library's kernel-message converter, applied to a source address
      and a kernel message. */
  function AwaitMessage<W, M>(received: Standard.Received<W>, convert: (Address, W) -> M): (r: Result<M, SendError<M>>)
    ensures r.Ok? <==> received.Ok?
    ensures received.Ok? ==> r.value == convert(received.value.0, received.value.1)
    ensures received.Err? ==> (r.error.kind.Offline? <==> received.error.0.kind.Offline?)
    ensures received.Err? ==> (r.error.kind.Timeout? <==> received.error.0.kind.Timeout?)
    ensures received.Err? ==> r.error.message == convert(NetAddress, received.error.0.message)
    ensures received.Err? ==> r.error.payload == received.error.0.payload
    ensures received.Err? ==> r.error.context == received.error.1
  {
    match received
    case Ok((source, message)) => Ok(convert(source, message))
    case Err((sendErr, context)) =>
      Err(SendError(TranslateKind(sendErr.kind),
                    convert(NetAddress, sendErr.message),
                    sendErr.payload,
                    context))
  }

  /** Rebuilds the kernel's view of a bounced send from the library's, given
      a way back from a library message to the kernel message it came from. */
  function Unbounce<W, M>(e: SendError<M>, unconvert: M -> W): (r: (Standard.SendError<W>, Option<Standard.Bytes>))
    ensures r.0.payload == e.payload && r.1 == e.context
    ensures TranslateKind(r.0.kind) == e.kind
  {
    (Standard.SendError(KindToKernel(e.kind), unconvert(e.message), e.payload), e.context)
  }

  /** No information about a bounce is lost: when the converter can be undone
      for messages sourced at the network process, the kernel's error and
      context are recovered exactly from the library's `SendError`. */
  lemma BounceRoundTrip<W, M>(sendErr: Standard.SendError<W>, context: Option<Standard.Bytes>,
                              convert: (Address, W) -> M, unconvert: M -> W)
    requires unconvert(convert(NetAddress, sendErr.message)) == sendErr.message
    ensures AwaitMessage(Err((sendErr, context)), convert).Err?
    ensures Unbounce(AwaitMessage(Err((sendErr, context)), convert).error, unconvert) == (sendErr, context)
  {
  }

  /** The bounced message depends on the kernel message alone: two receive
      errors carrying the same kernel message yield the same library message,
      whatever their kinds, payloads and contexts. */
  lemma BounceMessageOnlyFromKernelMessage<W, M>(e1: Standard.SendError<W>, c1: Option<Standard.Bytes>,
                                                 e2: Standard.SendError<W>, c2: Option<Standard.Bytes>,
                                                 convert: (Address, W) -> M)
    requires e1.message == e2.message
    ensures AwaitMessage(Err((e1, c1)), convert).error.message
         == AwaitMessage(Err((e2, c2)), convert).error.message
  {
  }

  /** The context echoed by a bounce is passed through and affects nothing
      else in the translated error. */
  lemma ContextOnlyAffectsContext<W, M>(sendErr: Standard.SendError<W>, c1: Option<Standard.Bytes>, c2: Option<Standard.Bytes>,
                                       convert: (Address, W) -> M)
    ensures AwaitMessage(Err((sendErr, c1)), convert).error
         == AwaitMessage(Err((sendErr, c2)), convert).error.(context := c1)
  {
  }
}
