/**
 * The capability surface consensus code holds: a `PermissionResolver`
 * answers `resolve_slot`, `resolve_round` and `resolve_session` with a
 * boolean verdict. This module also holds the two constant resolvers used
 * for bootstrap and for switching arbitration off, and their factories.
 */
module Permission {

  newtype u64 = x: int | 0 <= x < 0x1_0000_0000_0000_0000
  newtype u32 = x: int | 0 <= x < 0x1_0000_0000

  /** The independent monotonic tracks a numeric claim can target. */
  datatype Dimension = Slot | Round | Session

  /** One call on the capability surface, with the argument width each call takes. */
  datatype Query = SlotQuery(slot: u64) | RoundQuery(round: u64) | SessionQuery(sessionIndex: u32)
  {
    function Dim(): Dimension {
      match this
      case SlotQuery(_) => Slot
      case RoundQuery(_) => Round
      case SessionQuery(_) => Session
    }

    function Value(): nat {
      match this
      case SlotQuery(s) => s as nat
      case RoundQuery(r) => r as nat
      case SessionQuery(i) => i as nat
    }
  }

  /** The stateless resolvers: neither carries a field, so no verdict can depend on earlier calls. */
  datatype TrivialResolver = AlwaysPermissionGranted | NeverPermissionGranted

  function ResolveSlot(r: TrivialResolver, slot: u64): (granted: bool)
    ensures granted <==> r == AlwaysPermissionGranted
  {
    match r
    case AlwaysPermissionGranted => true
    case NeverPermissionGranted => false
  }

  function ResolveRound(r: TrivialResolver, round: u64): (granted: bool)
    ensures granted <==> r == AlwaysPermissionGranted
  {
    match r
    case AlwaysPermissionGranted => true
    case NeverPermissionGranted => false
  }

  function ResolveSession(r: TrivialResolver, sessionIndex: u32): (granted: bool)
    ensures granted <==> r == AlwaysPermissionGranted
  {
    match r
    case AlwaysPermissionGranted => true
    case NeverPermissionGranted => false
  }

  /** Dispatch of one query to the matching entry point. */
  function Resolve(r: TrivialResolver, q: Query): bool {
    match q
    case SlotQuery(s) => ResolveSlot(r, s)
    case RoundQuery(n) => ResolveRound(r, n)
    case SessionQuery(i) => ResolveSession(r, i)
  }

  /** The verdicts one resolver hands out to a history of calls, in call order. */
  function ResolveAll(r: TrivialResolver, qs: seq<Query>): (verdicts: seq<bool>)
    ensures |verdicts| == |qs|
  {
    if qs == [] then [] else ResolveAll(r, qs[..|qs| - 1]) + [Resolve(r, qs[|qs| - 1])]
  }

  /**
   * Statelessness: in any history, the verdict for a call is the verdict that
   * call gets on its own, so it depends on nothing that came before.
   */
  lemma {:induction false} VerdictIgnoresHistory(r: TrivialResolver, qs: seq<Query>, i: nat)
    requires i < |qs|
    ensures ResolveAll(r, qs)[i] == Resolve(r, qs[i])
    ensures ResolveAll(r, qs)[i] <==> r == AlwaysPermissionGranted
  {
    if i < |qs| - 1 {
      VerdictIgnoresHistory(r, qs[..|qs| - 1], i);
    }
  }

  /** The factories of the two constant resolvers. */
  datatype ResolverFactory = AlwaysPermissionGrantedFactory | NeverPermissionGrantedFactory

  /** `PermissionResolverFactory::create`: each factory yields the resolver of its own kind. */
  function Create(f: ResolverFactory): (r: TrivialResolver)
    ensures r == AlwaysPermissionGranted <==> f == AlwaysPermissionGrantedFactory
    ensures forall q :: Resolve(r, q) <==> f == AlwaysPermissionGrantedFactory
  {
    match f
    case AlwaysPermissionGrantedFactory => AlwaysPermissionGranted
    case NeverPermissionGrantedFactory => NeverPermissionGranted
  }
}
