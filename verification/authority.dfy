/**
 * The state of the central arbiter: the last granted value of each numeric
 * dimension and the fixed turn order. The counters are signed 64-bit in the
 * service and start at the sentinel -1, below every claimable value.
 */
module Authority {
  import RotationConfig
  import opened Permission

  /** The "nothing granted yet" value of every counter. */
  const Unset: int := -1

  datatype AuthorityData = AuthorityData(
    currentSlot: int,
    currentRound: int,
    currentSession: int,
    config: RotationConfig.Config)
  {
    /** The last granted value on one dimension. */
    function Counter(dim: Dimension): int {
      match dim
      case Slot => currentSlot
      case Round => currentRound
      case Session => currentSession
    }

    /** This state with one counter set to `v` and everything else as it was. */
    function WithCounter(dim: Dimension, v: int): (d: AuthorityData)
      ensures d.Counter(dim) == v
      ensures forall other :: other != dim ==> d.Counter(other) == Counter(other)
      ensures d.config == config
    {
      match dim
      case Slot => this.(currentSlot := v)
      case Round => this.(currentRound := v)
      case Session => this.(currentSession := v)
    }
  }

  /** `AuthorityData::new`: every counter unset and an empty turn order, which authorizes nobody. */
  function New(): (d: AuthorityData)
    ensures forall dim :: d.Counter(dim) == Unset
    ensures forall name :: !RotationConfig.IsAuthorized(d.config, name)
    ensures d == Create(RotationConfig.New())
  {
    AuthorityData(Unset, Unset, Unset, RotationConfig.New())
  }

  /** `AuthorityData::create`: every counter unset, the given turn order kept as it is. */
  function Create(cfg: RotationConfig.Config): (d: AuthorityData)
    ensures forall dim :: d.Counter(dim) == Unset
    ensures d.config == cfg
  {
    AuthorityData(Unset, Unset, Unset, cfg)
  }
}
