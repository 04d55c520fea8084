/** The identifiers everything is known by, and the two small values that cross between
    Configuration and the live side: a permission and a volume. */
module Names {
  import opened Basics

  datatype UserId = UserId(word: string)
  datatype RoleId = RoleId(word: string)
  datatype LoopId = LoopId(word: string)
  datatype SessionId = SessionId(word: string)
  datatype SignInToken = SignInToken(word: string)

  /** Four rungs from the bottom up; a pair with no row is on the lowest. */
  datatype Permission = Nothing | Monitor | Emit | Control {
    function Rung(): nat {
      match this
      case Nothing => 0
      case Monitor => 1
      case Emit => 2
      case Control => 3
    }

    predicate Carries(rung: Permission) {
      Rung() >= rung.Rung()
    }
  }

  /** Per cent of unity gain, which is also the most there is. */
  type Volume = percent: nat | percent <= 100 witness 100

  const UNITY: Volume := 100

  function VolumePresented(percent: nat): (r: Option<Volume>)
    ensures r.Some? <==> percent <= UNITY
    ensures r.Some? ==> r.value == percent
  {
    if percent <= UNITY then Some(percent) else None
  }

  /** A loop a session's role may monitor, with what the role holds on it. */
  datatype InReach = InReach(id: LoopId, name: string, permission: Permission)

  /** A staffed loop as the live side is handed it: ids and nothing else. */
  datatype StaffedBy = StaffedBy(heldOn: LoopId, roles: seq<RoleId>)
}
