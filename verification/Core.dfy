/** Types and small facts shared by the models of the agent and the controller. */
module Core {

  datatype Option<+T> = None | Some(value: T) {
    function GetOr(default: T): T {
      match this
      case Some(v) => v
      case None => default
    }
  }

  /** A directed link: `from`'s tunnel `iface` towards `to`. The source's string
      id `from/to/iface` is injective because no part contains a slash, so the
      key itself stands for the id. */
  datatype LinkKey = LinkKey(from: string, to: string, iface: string)

  const U32_MAX: nat := 0xFFFF_FFFF

  function Min(a: int, b: int): int { if a <= b then a else b }

  function Max(a: int, b: int): int { if a >= b then a else b }

  /** `u64::saturating_sub`. */
  function SatSub(a: nat, b: nat): nat { if a >= b then a - b else 0 }

  lemma SubsetSize<T>(a: set<T>, b: set<T>)
    requires a <= b
    ensures |a| <= |b|
  {
    assert b == a + (b - a);
    assert |b| == |a| + |b - a|;
  }
}
