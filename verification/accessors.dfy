/** `make_payload`, `get_typed_payload` and `get_typed_state`: option and
    result plumbing around a caller-supplied serializer or decoder. The
    kernel's `get_payload()` and `get_state()` results are passed in. */
module Accessors {
  import opened Wrappers
  import opened Standard

  /** A payload with no MIME type holding the serializer's bytes; the
      serializer's error is propagated unchanged. */
  function MakePayload<T, E>(payload: T, serializer: T -> Result<Bytes, E>): (r: Result<Payload, E>)
    ensures r.Ok? <==> serializer(payload).Ok?
    ensures r.Ok? ==> r.value.mime.None? && r.value.bytes == serializer(payload).value
    ensures r.Err? ==> r.error == serializer(payload).error
  {
    match serializer(payload)
    case Ok(bytes) => Ok(Payload(None, bytes))
    case Err(e) => Err(e)
  }

  /** `current` is the attachment of the most recent message, as the kernel
      reports it. Absent and undecodable are both `None`. */
  function GetTypedPayload<T, E>(current: Option<Payload>, deserializer: Bytes -> Result<T, E>): (r: Option<T>)
    ensures r.Some? <==> current.Some? && deserializer(current.value.bytes).Ok?
    ensures r.Some? ==> deserializer(current.value.bytes) == Ok(r.value)
  {
    match current
    case Some(p) =>
      (match deserializer(p.bytes)
       case Ok(thing) => Some(thing)
       case Err(_) => None)
    case None => None
  }

  /** `state` is this process's persisted state blob, as the kernel reports
      it. Absent and undecodable are both `None`. */
  function GetTypedState<T, E>(state: Option<Bytes>, deserializer: Bytes -> Result<T, E>): (r: Option<T>)
    ensures r.Some? <==> state.Some? && deserializer(state.value).Ok?
    ensures r.Some? ==> deserializer(state.value) == Ok(r.value)
  {
    match state
    case Some(bytes) =>
      (match deserializer(bytes)
       case Ok(thing) => Some(thing)
       case Err(_) => None)
    case None => None
  }

  /** Both getters decode the same way: the MIME type of an attachment plays
      no part, only its bytes. */
  lemma PayloadAndStateAgree<T, E>(mime: Option<string>, bytes: Bytes, deserializer: Bytes -> Result<T, E>)
    ensures GetTypedPayload(Some(Payload(mime, bytes)), deserializer) == GetTypedState(Some(bytes), deserializer)
  {
  }

  /** A decoder rejection is indistinguishable from an absent blob. */
  lemma RejectedLooksAbsent<T, E>(mime: Option<string>, bytes: Bytes, deserializer: Bytes -> Result<T, E>)
    requires deserializer(bytes).Err?
    ensures GetTypedState(Some(bytes), deserializer) == GetTypedState(None, deserializer)
    ensures GetTypedPayload(Some(Payload(mime, bytes)), deserializer) == GetTypedPayload(None, deserializer)
  {
  }

  /** The typed getters are `Result::ok` of the decoder on the present bytes. */
  lemma TypedStateIsDecodeOk<T, E>(state: Option<Bytes>, deserializer: Bytes -> Result<T, E>)
    ensures state.Some? ==> GetTypedState(state, deserializer) == deserializer(state.value).ToOption()
  {
  }

  /** A payload made with a serializer comes back as the original value when
      the kernel hands the same attachment back and the decoder inverts the
      serializer on it. */
  lemma PayloadRoundTrip<T, E>(x: T, serializer: T -> Result<Bytes, E>, deserializer: Bytes -> Result<T, E>)
    requires serializer(x).Ok?
    requires deserializer(serializer(x).value) == Ok(x)
    ensures MakePayload(x, serializer).Ok?
    ensures GetTypedPayload(MakePayload(x, serializer).ToOption(), deserializer) == Some(x)
  {
  }

  /** A failed serialization yields no attachment at all. */
  lemma FailedPayloadIsAbsent<T, E>(x: T, serializer: T -> Result<Bytes, E>, deserializer: Bytes -> Result<T, E>)
    requires serializer(x).Err?
    ensures GetTypedPayload(MakePayload(x, serializer).ToOption(), deserializer).None?
  {
  }
}
