/** `can_message` and `grant_messaging`. The kernel's `get_capability` is a
    total lookup `(issuer, params) -> Option<Capability>` passed in; each
    `share_capability` call is returned as an entry of a trace. */
module Capabilities {
  import opened Wrappers
  import opened Identifiers
  import opened Standard

  /** The parameters of the messaging capability: the JSON string "messaging". */
  const MessagingParams: string := "\"messaging\""

  type Lookup = (Address, string) -> Option<Capability>

  /** Whether the kernel holds a messaging capability for `address`. */
  function CanMessage(address: Address, lookup: Lookup): bool
  {
    lookup(address, MessagingParams).Some?
  }

  /** One share call per target, in order, each with `cap`. */
  function SharesFor<T>(targets: seq<T>, into: T -> ProcessId, cap: Capability): (trace: seq<ShareCall>)
    ensures |trace| == |targets|
    ensures forall i :: 0 <= i < |targets| ==> trace[i] == ShareCall(into(targets[i]), cap)
  {
    if |targets| == 0 then []
    else [ShareCall(into(targets[0]), cap)] + SharesFor(targets[1..], into, cap)
  }

  /** `grant_messaging` unwraps the lookup of our own messaging capability;
      when it is absent the unwrap panics before any share is made. */
  datatype GrantError = MissingMessagingCapability

  function GrantMessaging<T>(our: Address, grantTo: seq<T>, into: T -> ProcessId, lookup: Lookup): (r: Result<seq<ShareCall>, GrantError>)
    ensures r.Ok? <==> lookup(our, MessagingParams).Some?
    ensures r.Ok? ==> |r.value| == |grantTo|
    ensures r.Ok? ==> forall i :: 0 <= i < |grantTo| ==>
                        r.value[i] == ShareCall(into(grantTo[i]), lookup(our, MessagingParams).value)
  {
    match lookup(our, MessagingParams)
    case None => Err(MissingMessagingCapability)
    case Some(cap) => Ok(SharesFor(grantTo, into, cap))
  }

  /** Granting succeeds exactly when we can message ourselves. */
  lemma GrantNeedsOwnMessaging<T>(our: Address, grantTo: seq<T>, into: T -> ProcessId, lookup: Lookup)
    ensures GrantMessaging(our, grantTo, into, lookup).Ok? <==> CanMessage(our, lookup)
  {
  }

  /** Nothing but our own messaging capability is shared, and only with the
      listed targets. */
  lemma GrantSharesOnlyOwnCapability<T>(our: Address, grantTo: seq<T>, into: T -> ProcessId, lookup: Lookup)
    requires GrantMessaging(our, grantTo, into, lookup).Ok?
    ensures forall call :: call in GrantMessaging(our, grantTo, into, lookup).value ==>
              call.cap == lookup(our, MessagingParams).value
    ensures forall call :: call in GrantMessaging(our, grantTo, into, lookup).value ==>
              exists i :: 0 <= i < |grantTo| && call.target == into(grantTo[i])
  {
  }

  /** Granting to two lists in turn makes the same calls as granting to
      their concatenation: targets are served in iteration order. */
  lemma SharesForAppend<T>(a: seq<T>, b: seq<T>, into: T -> ProcessId, cap: Capability)
    ensures SharesFor(a + b, into, cap) == SharesFor(a, into, cap) + SharesFor(b, into, cap)
  {
  }

  /** Against a kernel store holding exactly `held`, `can_message` is true iff
      some held capability is issued by `address` with the messaging params. */
  lemma CanMessageIffHeld(address: Address, held: seq<Capability>)
    ensures CanMessage(address, (i, p) => FindCapability(held, i, p))
        <==> exists k :: 0 <= k < |held| && held[k] == Capability(address, MessagingParams)
  {
  }

  /** Against a kernel store holding exactly `held`, granting succeeds iff we
      hold our own messaging capability, and every share carries that very
      capability. */
  lemma GrantAgainstStore<T>(our: Address, grantTo: seq<T>, into: T -> ProcessId, held: seq<Capability>)
    ensures var r := GrantMessaging(our, grantTo, into, (i, p) => FindCapability(held, i, p));
            && (r.Ok? <==> Capability(our, MessagingParams) in held)
            && (r.Ok? ==> forall i :: 0 <= i < |grantTo| ==>
                            r.value[i] == ShareCall(into(grantTo[i]), Capability(our, MessagingParams)))
  {
  }
}
