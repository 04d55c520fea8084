/** One session, the presence document projected from it, and everything that is read off a
    session alone (`Session`, `Counting` and the value types of `src/state.rs`). */
module Sessions {
  import opened Basics
  import opened Names
  import opened Deployment

  const THE_BEACON_SOUNDS_EVERY: nat := 5 * SECOND
  const A_BEACON_IS_LOST_AFTER: nat := 15 * SECOND
  const TOMBSTONES_ARE_KEPT_FOR: nat := 15 * 60 * SECOND

  // ---- The axes a session is read on -----------------------------------------------------

  datatype Connection = Confirmed | Unconfirmed | Disconnected {
    function Rung(): nat {
      match this
      case Confirmed => 0
      case Unconfirmed => 1
      case Disconnected => 2
    }

    predicate CarriesEmission() { this != Disconnected }
  }

  datatype MediaPath = Connected | Impaired | Lost {
    function Rung(): nat {
      match this
      case Connected => 0
      case Impaired => 1
      case Lost => 2
    }

    function PessimisticallyWith(other: MediaPath): MediaPath {
      if Rung() >= other.Rung() then this else other
    }
  }

  datatype LoopHealth = Receiving | Checking | NotReceiving

  /** The reasons a loop goes unheard, each upstream of those after it. */
  datatype NotHearing = Unreachable | OffConsole | NotSubscribed | NotReceiving | Muted {
    function Order(): nat {
      match this
      case Unreachable => 0
      case OffConsole => 1
      case NotSubscribed => 2
      case NotReceiving => 3
      case Muted => 4
    }
  }

  const FURTHEST_UPSTREAM_FIRST: seq<NotHearing> :=
    [Unreachable, OffConsole, NotSubscribed, NotHearing.NotReceiving, Muted]

  datatype Tally = Tally(reason: NotHearing, occupants: nat)

  datatype Staffing = Staffed | Away(counts: seq<Tally>) | Vacant

  // ---- A beacon, as the client has counted it ---------------------------------------------

  datatype Counting = Counting(heldOn: LoopId, counted: nat, arrived: Option<Instant>, since: Instant) {
    static function Starting(heldOn: LoopId, now: Instant): Counting {
      Counting(heldOn, 0, None, now)
    }

    function Counted(packets: nat, now: Instant): Counting {
      Counting(heldOn, packets, if packets != counted && packets > 0 then Some(now) else arrived, since)
    }

    function Again(now: Instant): Counting {
      Counting(heldOn, counted, None, now)
    }

    function Health(now: Instant): LoopHealth {
      match arrived
      case Some(at) =>
        if Since(now, at) < A_BEACON_IS_LOST_AFTER then Receiving else LoopHealth.NotReceiving
      case None =>
        if Since(now, since) < A_BEACON_IS_LOST_AFTER then Checking else LoopHealth.NotReceiving
    }
  }

  /** One loop's running total, as a client reported it. */
  datatype Total = Total(heldOn: LoopId, packets: nat)

  function BeaconFor(beacons: seq<Counting>, heldOn: LoopId): (r: Option<Counting>)
    ensures r.Some? ==> r.value in beacons && r.value.heldOn == heldOn
    ensures r.None? ==> forall c :: c in beacons ==> c.heldOn != heldOn
  {
    if beacons == [] then None
    else if beacons[0].heldOn == heldOn then Some(beacons[0])
    else BeaconFor(beacons[1..], heldOn)
  }

  function HeldOn(beacons: seq<Counting>): (r: seq<LoopId>)
    ensures |r| == |beacons| && forall i :: 0 <= i < |r| ==> r[i] == beacons[i].heldOn
  {
    if beacons == [] then [] else [beacons[0].heldOn] + HeldOn(beacons[1..])
  }

  function AllStarting(loops: seq<LoopId>, now: Instant): (r: seq<Counting>)
    ensures |r| == |loops| && forall i :: 0 <= i < |r| ==> r[i] == Counting.Starting(loops[i], now)
  {
    seq(|loops|, i requires 0 <= i < |loops| => Counting.Starting(loops[i], now))
  }

  function AllAgain(beacons: seq<Counting>, now: Instant): (r: seq<Counting>)
    ensures |r| == |beacons| && forall i :: 0 <= i < |r| ==> r[i] == beacons[i].Again(now)
  {
    seq(|beacons|, i requires 0 <= i < |beacons| => beacons[i].Again(now))
  }

  function WithoutBeacon(beacons: seq<Counting>, heldOn: LoopId): (r: seq<Counting>)
    ensures forall c :: c in r <==> c in beacons && c.heldOn != heldOn
  {
    if beacons == [] then []
    else if beacons[|beacons| - 1].heldOn == heldOn then WithoutBeacon(beacons[..|beacons| - 1], heldOn)
    else WithoutBeacon(beacons[..|beacons| - 1], heldOn) + [beacons[|beacons| - 1]]
  }

  /** Take one total: the first beacon on that loop counts it, and a total for a loop nobody
      is measuring is not taken. */
  function CountOne(beacons: seq<Counting>, total: Total, now: Instant): (r: seq<Counting>)
    ensures |r| == |beacons| && forall i :: 0 <= i < |r| ==> r[i].heldOn == beacons[i].heldOn
  {
    if beacons == [] then []
    else if beacons[0].heldOn == total.heldOn then [beacons[0].Counted(total.packets, now)] + beacons[1..]
    else [beacons[0]] + CountOne(beacons[1..], total, now)
  }

  function CountAll(beacons: seq<Counting>, totals: seq<Total>, now: Instant): (r: seq<Counting>)
    ensures |r| == |beacons| && forall i :: 0 <= i < |r| ==> r[i].heldOn == beacons[i].heldOn
  {
    if totals == [] then beacons
    else CountOne(CountAll(beacons, totals[..|totals| - 1], now), totals[|totals| - 1], now)
  }

  // ---- The document -----------------------------------------------------------------------

  datatype Asserted = Asserted(lastActiveSeconds: nat)

  datatype Standing = Standing(
    heldOn: InReach, subscribed: bool, armed: bool, talking: bool, priority: bool, muted: bool,
    volume: Volume, health: Option<LoopHealth>, staffing: Option<Staffing>, staffs: bool)

  datatype Presence = Presence(
    session: SessionId, role: RoleId, mediaPath: MediaPath, connection: Connection, keyed: bool,
    priority: bool, offConsole: Option<Asserted>, loops: seq<Standing>)

  // ---- Priority presses -------------------------------------------------------------------

  datatype Pressing = Pressing(began: Instant, at: nat, armedOn: seq<string>)

  datatype Pressed = Pressed(occupant: UserId, role: RoleId, armedOn: seq<string>, at: nat, lasted: nat)

  // ---- The session ------------------------------------------------------------------------

  datatype SetOn = SetOn(heldOn: LoopId, volume: Volume)

  function LoopsSet(volumes: seq<SetOn>): (r: seq<LoopId>)
    ensures |r| == |volumes| && forall i :: 0 <= i < |r| ==> r[i] == volumes[i].heldOn
  {
    if volumes == [] then [] else [volumes[0].heldOn] + LoopsSet(volumes[1..])
  }

  function VolumeOn(volumes: seq<SetOn>, heldOn: LoopId): (r: Option<Volume>)
    ensures r.Some? <==> heldOn in LoopsSet(volumes)
    ensures r.Some? ==> SetOn(heldOn, r.value) in volumes
  {
    if volumes == [] then None
    else if volumes[0].heldOn == heldOn then Some(volumes[0].volume)
    else VolumeOn(volumes[1..], heldOn)
  }

  /** The level replaced where the loop has one, and added at the end where it has not. */
  function VolumeSet(volumes: seq<SetOn>, heldOn: LoopId, volume: Volume): seq<SetOn> {
    if volumes == [] then [SetOn(heldOn, volume)]
    else if volumes[0].heldOn == heldOn then [SetOn(heldOn, volume)] + volumes[1..]
    else [volumes[0]] + VolumeSet(volumes[1..], heldOn, volume)
  }

  /** Setting a level moves that loop's level and no other's. */
  lemma {:induction false} VolumeSetExactly(volumes: seq<SetOn>, heldOn: LoopId, volume: Volume, on: LoopId)
    ensures VolumeOn(VolumeSet(volumes, heldOn, volume), on)
         == if on == heldOn then Some(volume) else VolumeOn(volumes, on)
  {
    if volumes != [] && volumes[0].heldOn != heldOn {
      VolumeSetExactly(volumes[1..], heldOn, volume, on);
    }
  }

  /** Each loop keeps one level: a loop set again is replaced where it stood. */
  lemma {:induction false} VolumeSetKeepsOne(volumes: seq<SetOn>, heldOn: LoopId, volume: Volume)
    ensures LoopsSet(VolumeSet(volumes, heldOn, volume)) == With(LoopsSet(volumes), heldOn)
  {
    if volumes != [] && volumes[0].heldOn != heldOn {
      VolumeSetKeepsOne(volumes[1..], heldOn, volume);
      assert LoopsSet(VolumeSet(volumes, heldOn, volume))
          == [volumes[0].heldOn] + With(LoopsSet(volumes[1..]), heldOn);
    }
  }

  function NameWithin(reach: seq<InReach>, heldOn: LoopId): string {
    if reach == [] then heldOn.word
    else if reach[0].id == heldOn then reach[0].name
    else NameWithin(reach[1..], heldOn)
  }

  function NamesWithin(reach: seq<InReach>, loops: seq<LoopId>): (r: seq<string>)
    ensures |r| == |loops|
  {
    seq(|loops|, i requires 0 <= i < |loops| => NameWithin(reach, loops[i]))
  }

  predicate Reaches(reach: seq<InReach>, heldOn: LoopId) {
    exists within :: within in reach && within.id == heldOn
  }

  predicate EmitsOn(reach: seq<InReach>, heldOn: LoopId) {
    exists within :: within in reach && within.id == heldOn && within.permission.Carries(Emit)
  }

  /** The arms a role may still emit on, in order. */
  function StillRouted(arms: seq<LoopId>, reach: seq<InReach>): (r: seq<LoopId>)
    ensures forall armed :: armed in r <==> armed in arms && EmitsOn(reach, armed)
    ensures NoDuplicates(arms) ==> NoDuplicates(r)
  {
    if arms == [] then []
    else
      var front, last := arms[..|arms| - 1], arms[|arms| - 1];
      assert arms == front + [last];
      var kept := StillRouted(front, reach);
      assert NoDuplicates(arms) ==> last !in front;
      if EmitsOn(reach, last) then kept + [last] else kept
  }

  datatype Session = Session(
    id: SessionId, signIn: SignInToken, occupant: UserId, role: RoleId,
    version: nat, last: Option<Presence>,
    saidByTheClient: MediaPath, seenByTheServer: MediaPath,
    heardFrom: Instant, channelIsGone: bool,
    subscriptions: seq<LoopId>, beacons: seq<Counting>, arms: seq<LoopId>, mutes: seq<LoopId>,
    volumes: seq<SetOn>, keyed: bool, pressing: Option<Pressing>, reach: seq<InReach>,
    offConsole: bool, lastActive: Instant)
  {
    function ConnectionAt(ladder: Ladder, now: Instant): Connection {
      if channelIsGone then Disconnected
      else if Since(now, heardFrom) >= ladder.disconnected * SECOND then Disconnected
      else if Since(now, heardFrom) >= ladder.unconfirmed * SECOND then Unconfirmed
      else Confirmed
    }

    predicate IsTransmitting(ladder: Ladder, now: Instant) {
      keyed && ConnectionAt(ladder, now).CarriesEmission()
    }

    predicate IsAtPriority(ladder: Ladder, now: Instant) {
      pressing.Some? && IsTransmitting(ladder, now)
    }

    /** The press this session holds, as it is handed back to be audited. */
    function LetGo(now: Instant): Option<Pressed> {
      match pressing
      case None => None
      case Some(held) => Some(Pressed(occupant, role, held.armedOn, held.at, Since(now, held.began)))
    }

    function Path(): MediaPath {
      saidByTheClient.PessimisticallyWith(seenByTheServer)
    }

    function AssertedAt(now: Instant): Option<Asserted> {
      if offConsole then Some(Asserted(Since(now, lastActive) / SECOND)) else None
    }

    predicate Hears(heldOn: LoopId) {
      heldOn in subscriptions && heldOn !in mutes && Reaches(reach, heldOn)
    }

    predicate Monitors(heldOn: LoopId) {
      heldOn in subscriptions && Reaches(reach, heldOn)
    }

    function HealthOf(heldOn: LoopId, ladder: Ladder, now: Instant): Option<LoopHealth> {
      if !Monitors(heldOn) || ConnectionAt(ladder, now) != Confirmed then None
      else match BeaconFor(beacons, heldOn)
        case None => None
        case Some(counting) => Some(counting.Health(now))
    }

    function WhyNotHearing(heldOn: LoopId, ladder: Ladder, now: Instant): Option<NotHearing> {
      if ConnectionAt(ladder, now) == Disconnected then Some(Unreachable)
      else if offConsole then Some(OffConsole)
      else if !Monitors(heldOn) then Some(NotSubscribed)
      else if HealthOf(heldOn, ladder, now) == Some(LoopHealth.NotReceiving) then Some(NotHearing.NotReceiving)
      else if heldOn in mutes then Some(Muted)
      else None
    }

    function VolumeOf(heldOn: LoopId): Volume {
      match VolumeOn(volumes, heldOn)
      case Some(volume) => volume
      case None => UNITY
    }

    /** Reach arriving: recorded, and the arms it no longer carries taken away for good. */
    function Within(within: seq<InReach>): Session {
      this.(reach := within, arms := StillRouted(arms, within))
    }

    /** A document unlike the last one is kept and numbered one higher; the same one again is neither. */
    function Shown(document: Presence): Session {
      if last == Some(document) then this
      else this.(version := version + 1, last := Some(document))
    }
  }

  // ---- What is done to one session --------------------------------------------------------

  datatype Deed =
    | Subscribe(to: LoopId)
    | Unsubscribe(from: LoopId)
    | Mute(muted: LoopId)
    | Unmute(unmuted: LoopId)
    | StepAway
    | ActDeliberately
    | SetVolume(setOn: LoopId, volume: Volume)
    | Arm(armed: LoopId)
    | Disarm(disarmed: LoopId)
    | Key
    | Unkey
    | KeyPriority(wallClock: nat)
    | UnkeyPriority
    | LoseTheChannel
    | AnswerTheHeartbeat
    | CountBeacons(totals: seq<Total>)
    | SayMediaPath(said: MediaPath)
    | SeeMediaPath(seen: MediaPath)

  /** The session as each deed leaves it. */
  function Done(s: Session, ladder: Ladder, deed: Deed, now: Instant): Session {
    match deed
    case Subscribe(to) =>
      if to in s.subscriptions then s
      else s.(subscriptions := s.subscriptions + [to], beacons := s.beacons + [Counting.Starting(to, now)])
    case Unsubscribe(from) =>
      s.(subscriptions := Without(s.subscriptions, from),
         beacons := WithoutBeacon(s.beacons, from),
         mutes := Without(s.mutes, from))
    case Mute(on) => if on in s.subscriptions then s.(mutes := With(s.mutes, on)) else s
    case Unmute(on) => s.(mutes := Without(s.mutes, on))
    case StepAway => s.(offConsole := true)
    case ActDeliberately => s.(offConsole := false, lastActive := now)
    case SetVolume(on, volume) => s.(volumes := VolumeSet(s.volumes, on, volume))
    case Arm(to) => s.(arms := With(s.arms, to))
    case Disarm(from) => s.(arms := Without(s.arms, from))
    case Key => s.(keyed := true)
    case Unkey => s.(keyed := false)
    case KeyPriority(at) =>
      if s.pressing.Some? then s
      else s.(pressing := Some(Pressing(now, at, NamesWithin(s.reach, s.arms))))
    case UnkeyPriority => s.(pressing := None)
    case LoseTheChannel => s.(channelIsGone := true, pressing := None)
    case AnswerTheHeartbeat =>
      s.(beacons := if s.ConnectionAt(ladder, now) != Confirmed then AllAgain(s.beacons, now) else s.beacons,
         heardFrom := now, channelIsGone := false)
    case CountBeacons(totals) => s.(beacons := CountAll(s.beacons, totals, now))
    case SayMediaPath(path) => s.(saidByTheClient := path)
    case SeeMediaPath(path) => s.(seenByTheServer := path)
  }

  /** The press a deed hands back, where it ends one. */
  function HandedBack(s: Session, deed: Deed, now: Instant): Option<Pressed> {
    if deed.UnkeyPriority? || deed.LoseTheChannel? then s.LetGo(now) else None
  }
}
