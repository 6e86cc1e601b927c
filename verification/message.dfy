/** The library's own send-error record. The library's `Message` type is left
    abstract (the type parameter `M`): it is built from a kernel message by a
    converter that is not part of this model. */
module Message {
  import opened Wrappers
  import opened Standard

  datatype SendErrorKind = Offline | Timeout

  /** A send that bounced: why, the message that bounced, its attachment,
      and the context of the request it belonged to. */
  datatype SendError<M> = SendError(kind: SendErrorKind, message: M, payload: Option<Payload>, context: Option<Bytes>)
}
