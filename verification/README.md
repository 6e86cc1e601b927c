# process_lib: kernel-boundary translation layer

This project models the top-level functions of the Uqbar process standard
library (`src/lib.rs`), the layer that turns what a WASM process receives
from the Uqbar kernel into typed library values:

- `await_message` turns one kernel `receive()` result into
  `Result<Message, SendError>`. A bounced send keeps its kind, payload and
  context. Its message is re-sourced to the networking process
  `our@net:sys:uqbar`.
- `make_payload`, `get_typed_payload` and `get_typed_state` wrap a
  caller-supplied serializer or decoder. The two getters report both "absent"
  and "decoder rejected" as `None`.
- `can_message` and `grant_messaging` ask the kernel's capability store for
  the messaging capability `"\"messaging\""`. `grant_messaging` then shares
  our own messaging capability with each target in turn.

The kernel imports become inputs:

- The results of `receive()`, `get_payload()` and `get_state()` are plain
  values.
- `get_capability` is a total lookup function.
- Each `share_capability` call becomes one entry of a returned trace.
- The message converter `wit_message_to_message` is an arbitrary function
  parameter (`convert`). The library `Message` type and the kernel message
  type are type parameters.
- The `unwrap` panic in `grant_messaging` is modelled as
  `Err(MissingMessagingCapability)` with no share call. The panic happens
  before the first share.

`Standard.FindCapability` is a reference capability store: the first held
capability whose issuer and params are byte-equal to the query. It is used
only to state `can_message` and `grant_messaging` against a concrete set of
held capabilities.

Files: `wrappers.dfy` (Option/Result), `identifiers.dfy` (ProcessId,
Address, the network address), `standard.dfy` (kernel boundary types),
`message.dfy` (library SendError), `receive.dfy`, `accessors.dfy`,
`capabilities.dfy`.

Naming and comparison in `lib.rs`:

- The attachment is called `payload` and its getter `get_typed_payload`.
- Capability params are never compared in `lib.rs`; the literal string goes
  to the kernel's `get_capability`.

## Model

| member | source | states |
|---|---|---|
| Receive.AwaitMessage | src/lib.rs:89-112 | A received message becomes `Ok` of the converter applied to that source and message. A receive error becomes `Err`. Its kind is Offline iff the kernel kind is Offline, and Timeout iff the kernel kind is Timeout. Its message is converted with source `our@net:sys:uqbar`. Its payload is the kernel error's payload and its context is the received context. |
| Receive.TranslateKind | src/lib.rs:93-96 | Library kind Offline iff kernel kind Offline; Timeout iff Timeout. |
| Receive.KindToKernel | src/lib.rs:93-96 | The inverse direction of the kind mapping: Offline iff Offline. |
| Receive.KindRoundTrip | src/lib.rs:93-96 | The kind mapping is a bijection: both round trips are the identity. |
| Receive.Unbounce | src/lib.rs:92-110 | Rebuilding the kernel error from a library SendError keeps payload and context, and its kind translates back to the library kind. |
| Receive.BounceRoundTrip | src/lib.rs:92-110 | If the converter can be undone at the network address, the kernel error and context are recovered exactly from the SendError. The translation loses nothing. |
| Receive.BounceMessageOnlyFromKernelMessage | src/lib.rs:97-107 | Two receive errors carrying the same kernel message give the same library message, whatever their kinds, payloads and contexts: the bounced message depends only on the kernel message, never on where it was sent. |
| Receive.ContextOnlyAffectsContext | src/lib.rs:108-109 | Changing only the received context changes only the SendError's context field. |
| Accessors.MakePayload | src/lib.rs:118-126 | `Ok` iff the serializer succeeds. Then the payload has no MIME type and carries the serializer's bytes. Otherwise the serializer's error is returned unchanged. |
| Accessors.GetTypedPayload | src/lib.rs:139-150 | `None` when there is no payload. `Some(v)` exactly when a payload is present and the decoder returns `Ok(v)` on its bytes. A decoder error gives `None`. |
| Accessors.GetTypedState | src/lib.rs:163-174 | `None` when there is no state. `Some(v)` exactly when state is present and the decoder returns `Ok(v)` on it. A decoder error gives `None`. |
| Accessors.PayloadAndStateAgree | src/lib.rs:139-174 | Both getters decode alike: the payload's MIME type plays no part. |
| Accessors.RejectedLooksAbsent | src/lib.rs:143-173 | Present bytes the decoder rejects, as state or as a payload of any MIME type, give the same result as no bytes at all. |
| Accessors.TypedStateIsDecodeOk | src/lib.rs:167-173 | With state present, the typed getter is the decoder's result with its error dropped. |
| Accessors.PayloadRoundTrip | src/lib.rs:118-150 | A payload made by a serializer decodes back to the original value when the decoder inverts the serializer on those bytes. |
| Accessors.FailedPayloadIsAbsent | src/lib.rs:118-126 | A failed serialization yields no payload, so the typed getter returns `None`. |
| Capabilities.CanMessageIffHeld | src/lib.rs:197-199 | Against a store holding a list of capabilities, `can_message(a)` holds iff the list contains the capability issued by `a` with params `"\"messaging\""`. |
| Capabilities.SharesFor | src/lib.rs:191-193 | Exactly one share call per target, in input order, each carrying the given capability. |
| Capabilities.GrantMessaging | src/lib.rs:184-194 | Succeeds iff our own messaging capability is found; otherwise it fails with no calls. On success the trace has one entry per target, in order, each sharing that same capability. |
| Capabilities.GrantNeedsOwnMessaging | src/lib.rs:184-199 | Granting succeeds exactly when `can_message(our)` holds. |
| Capabilities.GrantSharesOnlyOwnCapability | src/lib.rs:190-193 | Every call in the trace shares our messaging capability, and every call targets one of the listed targets. |
| Capabilities.SharesForAppend | src/lib.rs:191-193 | Sharing with `a + b` makes the calls for `a` followed by the calls for `b`. |
| Capabilities.GrantAgainstStore | src/lib.rs:189-193 | Against a store holding a list of capabilities, granting succeeds iff the list holds our own messaging capability. Each share then carries exactly that capability. |

## Left out

- `call_init!` (src/lib.rs:56-66): host glue. Its only logic is parsing the address string, and the address parser is not part of this model.
- `println!` (src/lib.rs:73-80): terminal output.
- The kernel imports `receive`, `get_payload`, `get_state`, `get_capability` and `share_capability`. They are foreign calls and become inputs or a returned trace.
- `wit_message_to_message`: the message converter is not part of this model. It is an arbitrary function parameter, so the model promises nothing about the shape of the library `Message`.
- The `filesystem`, `http`, `kernel_types` and `timer` submodules: service wrappers, not part of this model.
- The `package_id`, `process_id`, `address`, `request`, `response` and `message` modules are not part of this model. Their text encodings, parsers and builders are not modelled. Only the field shapes `lib.rs` uses are kept.
- Comparing capability params as parsed JSON, so that key order does not matter: `lib.rs` leaves all comparison to the kernel. The reference store compares params byte for byte.
- `await_next_message_body` is not defined in `lib.rs` and is not modelled.
- Capabilities.GrantMessaging: a panic is modelled as an error result, not as aborting the process.
- Capabilities.GrantMessaging: the `Into<ProcessId>` conversion is an arbitrary function parameter.
- Capabilities.GrantMessaging: the targets are a finite sequence; the source accepts any `IntoIterator`, which may be lazy or never end, in which case the source never returns.
