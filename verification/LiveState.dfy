/** Everything live as one value, what each operation of the state authority does to it, and
    the projections computed from it (`Live` and `StateAuthority` of `src/state.rs`). */
module LiveState {
  import opened Basics
  import opened Names
  import opened Deployment
  import opened Sessions

  // ---- The values that cross --------------------------------------------------------------

  datatype Ended = ByRelinquishing | AssumedElsewhere

  datatype Tombstone = Tombstone(session: SessionId, occupant: UserId, why: Ended, at: Instant)

  datatype Relinquished = Relinquished(
    session: SessionId, signIn: SignInToken, occupant: UserId, role: RoleId, why: Ended,
    pressed: Option<Pressed>)

  datatype Assuming = Assuming(
    signIn: SignInToken, occupant: UserId, role: RoleId, limit: Option<nat>,
    subscribedTo: seq<LoopId>, volumes: seq<SetOn>)

  datatype Assumed = Assumed(session: SessionId, displaced: Option<Relinquished>)

  datatype Occupied = Occupied(limit: nat)

  datatype Heard = Heard(listener: SessionId, on: LoopId)

  datatype WhoHears = WhoHears(talker: SessionId, listeners: seq<Heard>)

  datatype WhoCounts = WhoCounts(listener: SessionId, on: seq<LoopId>)

  datatype Covered = Covered(heldOn: LoopId, staffing: Staffing)

  datatype Issued = Issued(version: nat, document: Presence)

  datatype Live = Live(
    ladder: Ladder, sessions: seq<Session>, tombstones: seq<Tombstone>,
    lastRouting: Option<seq<WhoHears>>, lastBeacons: Option<seq<WhoCounts>>)

  function Empty(ladder: Ladder): Live {
    Live(ladder, [], [], None, None)
  }

  // ---- Finding things ---------------------------------------------------------------------

  /** Where the session by that id is, or the length where there is none. */
  function At(sessions: seq<Session>, id: SessionId): (k: nat)
    ensures k <= |sessions|
    ensures k < |sessions| ==> sessions[k].id == id
    ensures forall i :: 0 <= i < k ==> sessions[i].id != id
  {
    if sessions == [] then 0
    else if sessions[0].id == id then 0
    else 1 + At(sessions[1..], id)
  }

  predicate IsLive(sessions: seq<Session>, id: SessionId) {
    At(sessions, id) < |sessions|
  }

  function Held(sessions: seq<Session>, id: SessionId): Session
    requires IsLive(sessions, id)
  {
    sessions[At(sessions, id)]
  }

  /** Where the session this user holds is, or the length where they hold none. */
  function SeatOf(sessions: seq<Session>, occupant: UserId): (k: nat)
    ensures k <= |sessions|
    ensures k < |sessions| ==> sessions[k].occupant == occupant
    ensures forall i :: 0 <= i < k ==> sessions[i].occupant != occupant
  {
    if sessions == [] then 0
    else if sessions[0].occupant == occupant then 0
    else 1 + SeatOf(sessions[1..], occupant)
  }

  predicate IsHeldBy(sessions: seq<Session>, id: SessionId, occupant: UserId) {
    exists s :: s in sessions && s.id == id && s.occupant == occupant
  }

  function TheRoleOf(sessions: seq<Session>, id: SessionId): Option<RoleId> {
    if IsLive(sessions, id) then Some(Held(sessions, id).role) else None
  }

  function SignInsHoldingASession(sessions: seq<Session>): (r: seq<SignInToken>)
    ensures |r| == |sessions| && forall i :: 0 <= i < |r| ==> r[i] == sessions[i].signIn
  {
    if sessions == [] then [] else [sessions[0].signIn] + SignInsHoldingASession(sessions[1..])
  }

  /** How many sessions are in this role that are not this user's. */
  function OthersIn(sessions: seq<Session>, role: RoleId, occupant: UserId): nat {
    if sessions == [] then 0
    else (if sessions[0].role == role && sessions[0].occupant != occupant then 1 else 0)
         + OthersIn(sessions[1..], role, occupant)
  }

  function OccupantsOf(sessions: seq<Session>, role: RoleId): seq<UserId> {
    if sessions == [] then []
    else (if sessions[0].role == role then [sessions[0].occupant] else [])
         + OccupantsOf(sessions[1..], role)
  }

  // ---- Tombstones -------------------------------------------------------------------------

  function OfOthers(tombstones: seq<Tombstone>, occupant: UserId): (r: seq<Tombstone>)
    ensures forall t :: t in r <==> t in tombstones && t.occupant != occupant
  {
    if tombstones == [] then []
    else (if tombstones[0].occupant != occupant then [tombstones[0]] else [])
         + OfOthers(tombstones[1..], occupant)
  }

  function Recent(tombstones: seq<Tombstone>, now: Instant): (r: seq<Tombstone>)
    ensures forall t :: t in r <==> t in tombstones && Since(now, t.at) < TOMBSTONES_ARE_KEPT_FOR
  {
    if tombstones == [] then []
    else (if Since(now, tombstones[0].at) < TOMBSTONES_ARE_KEPT_FOR then [tombstones[0]] else [])
         + Recent(tombstones[1..], now)
  }

  function TombstoneAt(tombstones: seq<Tombstone>, session: SessionId): (k: nat)
    ensures k <= |tombstones|
    ensures k < |tombstones| ==> tombstones[k].session == session
    ensures forall i :: 0 <= i < k ==> tombstones[i].session != session
  {
    if tombstones == [] then 0
    else if tombstones[0].session == session then 0
    else 1 + TombstoneAt(tombstones[1..], session)
  }

  // ---- Taking a seat up and giving it up ---------------------------------------------------

  predicate IsFull(sessions: seq<Session>, a: Assuming) {
    a.limit.Some? && OthersIn(sessions, a.role, a.occupant) >= a.limit.value
  }

  function Seated(a: Assuming, minted: SessionId, now: Instant): Session {
    Session(minted, a.signIn, a.occupant, a.role, 0, None, Lost, Lost, now, false,
            a.subscribedTo, AllStarting(a.subscribedTo, now), [], [], a.volumes, false, None, [],
            false, now)
  }

  function Ending(s: Session, why: Ended, now: Instant): Relinquished {
    Relinquished(s.id, s.signIn, s.occupant, s.role, why, s.LetGo(now))
  }

  function Displaced(l: Live, occupant: UserId, now: Instant): Option<Relinquished> {
    var held := SeatOf(l.sessions, occupant);
    if held < |l.sessions| then Some(Ending(l.sessions[held], AssumedElsewhere, now)) else None
  }

  function AfterAssume(l: Live, a: Assuming, minted: SessionId, now: Instant): Live {
    if IsFull(l.sessions, a) then l
    else
      var held := SeatOf(l.sessions, a.occupant);
      var kept := OfOthers(l.tombstones, a.occupant);
      if held < |l.sessions| then
        l.(sessions := Removed(l.sessions, held) + [Seated(a, minted, now)],
           tombstones := Recent(kept, now)
             + [Tombstone(l.sessions[held].id, a.occupant, AssumedElsewhere, now)])
      else
        l.(sessions := l.sessions + [Seated(a, minted, now)], tombstones := kept)
  }

  function AfterEnding(l: Live, id: SessionId): Live {
    if IsLive(l.sessions, id) then l.(sessions := Removed(l.sessions, At(l.sessions, id))) else l
  }

  function AfterWhy(l: Live, id: SessionId, now: Instant): Live {
    var recent := Recent(l.tombstones, now);
    var kept := TombstoneAt(recent, id);
    l.(tombstones := if kept < |recent| then Removed(recent, kept) else recent)
  }

  // ---- The projections --------------------------------------------------------------------

  /** Everybody else who hears one armed loop, in the order the sessions are in. */
  function HearersOn(sessions: seq<Session>, talker: SessionId, armed: LoopId): seq<Heard> {
    if sessions == [] then []
    else (if sessions[0].id != talker && sessions[0].Hears(armed) then [Heard(sessions[0].id, armed)] else [])
         + HearersOn(sessions[1..], talker, armed)
  }

  function HearersOver(sessions: seq<Session>, talker: SessionId, arms: seq<LoopId>): seq<Heard> {
    if arms == [] then []
    else HearersOn(sessions, talker, arms[0]) + HearersOver(sessions, talker, arms[1..])
  }

  /** One talker's listeners, loop by loop; there are none once the talker reads as disconnected. */
  function Audience(l: Live, talker: Session, now: Instant): seq<Heard> {
    if !talker.ConnectionAt(l.ladder, now).CarriesEmission() then []
    else HearersOver(l.sessions, talker.id, talker.arms)
  }

  /** The whole fan-out: every live talker with their audience. */
  function FanOut(l: Live, now: Instant): (r: seq<WhoHears>)
    ensures |r| == |l.sessions|
    ensures forall i :: 0 <= i < |r| ==> r[i] == WhoHears(l.sessions[i].id, Audience(l, l.sessions[i], now))
  {
    seq(|l.sessions|, i requires 0 <= i < |l.sessions| =>
      WhoHears(l.sessions[i].id, Audience(l, l.sessions[i], now)))
  }

  function MonitoredOf(s: Session, subscriptions: seq<LoopId>): (r: seq<LoopId>)
    ensures forall on :: on in r <==> on in subscriptions && s.Monitors(on)
  {
    if subscriptions == [] then []
    else (if s.Monitors(subscriptions[0]) then [subscriptions[0]] else [])
         + MonitoredOf(s, subscriptions[1..])
  }

  /** Who counts which beacon. */
  function BeaconCarriage(l: Live): (r: seq<WhoCounts>)
    ensures |r| == |l.sessions|
    ensures forall i :: 0 <= i < |r| ==>
      r[i] == WhoCounts(l.sessions[i].id, MonitoredOf(l.sessions[i], l.sessions[i].subscriptions))
  {
    seq(|l.sessions|, i requires 0 <= i < |l.sessions| =>
      WhoCounts(l.sessions[i].id, MonitoredOf(l.sessions[i], l.sessions[i].subscriptions)))
  }

  /** The loops with a transmitting session armed on them. */
  function SpokenOn(sessions: seq<Session>, ladder: Ladder, now: Instant): (r: seq<LoopId>)
    ensures forall on :: on in r <==> exists s :: s in sessions && s.IsTransmitting(ladder, now) && on in s.arms
  {
    if sessions == [] then []
    else (if sessions[0].IsTransmitting(ladder, now) then sessions[0].arms else [])
         + SpokenOn(sessions[1..], ladder, now)
  }

  /** The same, counting only transmissions at priority. */
  function SpokenOnAtPriority(sessions: seq<Session>, ladder: Ladder, now: Instant): (r: seq<LoopId>)
    ensures forall on :: on in r <==> exists s :: s in sessions && s.IsAtPriority(ladder, now) && on in s.arms
  {
    if sessions == [] then []
    else (if sessions[0].IsAtPriority(ladder, now) then sessions[0].arms else [])
         + SpokenOnAtPriority(sessions[1..], ladder, now)
  }

  // ---- Staffing ---------------------------------------------------------------------------

  predicate Occupies(s: Session, staffing: StaffedBy) {
    s.role in staffing.roles
  }

  predicate Hearing(s: Session, heldOn: LoopId, ladder: Ladder, now: Instant) {
    s.WhyNotHearing(heldOn, ladder, now).None?
  }

  /** An occupant not hearing the loop, for that reason and none further upstream. */
  predicate AwayFrom(s: Session, staffing: StaffedBy, ladder: Ladder, now: Instant, reason: NotHearing) {
    Occupies(s, staffing) && s.WhyNotHearing(staffing.heldOn, ladder, now) == Some(reason)
  }

  /** How many occupants are not hearing the loop for that reason. */
  function CountFor(sessions: seq<Session>, staffing: StaffedBy, ladder: Ladder, now: Instant,
      reason: NotHearing): nat {
    if sessions == [] then 0
    else CountFor(sessions[..|sessions| - 1], staffing, ladder, now, reason)
         + if AwayFrom(sessions[|sessions| - 1], staffing, ladder, now, reason) then 1 else 0
  }

  lemma {:induction false} CountNothing(staffing: StaffedBy, ladder: Ladder, now: Instant)
    ensures forall reason :: CountFor([], staffing, ladder, now, reason) == 0
  {
  }

  /** Counting one session further along. */
  lemma {:induction false} CountNext(sessions: seq<Session>, i: nat, staffing: StaffedBy, ladder: Ladder,
      now: Instant, n: nat)
    requires i < |sessions| && n < |FURTHEST_UPSTREAM_FIRST|
    ensures
      var s, reason := sessions[i], FURTHEST_UPSTREAM_FIRST[n];
      && CountFor(sessions[..i + 1], staffing, ladder, now, reason)
           == CountFor(sessions[..i], staffing, ladder, now, reason)
              + (if AwayFrom(s, staffing, ladder, now, reason) then 1 else 0)
      && (AwayFrom(s, staffing, ladder, now, reason) <==>
            Occupies(s, staffing) && s.WhyNotHearing(staffing.heldOn, ladder, now).Some?
            && s.WhyNotHearing(staffing.heldOn, ladder, now).value.Order() == n)
  {
    assert sessions[..i + 1][..i] == sessions[..i];
    assert FURTHEST_UPSTREAM_FIRST[n].Order() == n;
  }

  function CountsFor(sessions: seq<Session>, staffing: StaffedBy, ladder: Ladder, now: Instant): (r: seq<nat>)
    ensures |r| == |FURTHEST_UPSTREAM_FIRST|
    ensures forall i :: 0 <= i < |r| ==> r[i] == CountFor(sessions, staffing, ladder, now, FURTHEST_UPSTREAM_FIRST[i])
  {
    seq(|FURTHEST_UPSTREAM_FIRST|, i requires 0 <= i < |FURTHEST_UPSTREAM_FIRST| =>
      CountFor(sessions, staffing, ladder, now, FURTHEST_UPSTREAM_FIRST[i]))
  }

  /** The reasons anybody has, each with how many have it, in the order given. */
  function NonZero(reasons: seq<NotHearing>, counts: seq<nat>): seq<Tally>
    requires |reasons| == |counts|
  {
    if reasons == [] then []
    else (if counts[0] > 0 then [Tally(reasons[0], counts[0])] else []) + NonZero(reasons[1..], counts[1..])
  }

  function StaffingOf(l: Live, staffing: StaffedBy, now: Instant): Staffing {
    if forall s :: s in l.sessions ==> !Occupies(s, staffing) then Vacant
    else if exists s ::
      s in l.sessions && Occupies(s, staffing) && Hearing(s, staffing.heldOn, l.ladder, now) then Staffed
    else Away(NonZero(FURTHEST_UPSTREAM_FIRST, CountsFor(l.sessions, staffing, l.ladder, now)))
  }

  function TheStaffingOf(l: Live, staffed: seq<StaffedBy>, now: Instant): (r: seq<Covered>)
    ensures |r| == |staffed|
    ensures forall i :: 0 <= i < |r| ==> r[i] == Covered(staffed[i].heldOn, StaffingOf(l, staffed[i], now))
  {
    seq(|staffed|, i requires 0 <= i < |staffed| => Covered(staffed[i].heldOn, StaffingOf(l, staffed[i], now)))
  }

  /** The state worked out for that loop, where it has one. */
  function StaffingFor(covered: seq<Covered>, heldOn: LoopId): (r: Option<Staffing>)
    ensures r.Some? ==> Covered(heldOn, r.value) in covered
    ensures r.None? ==> forall c :: c in covered ==> c.heldOn != heldOn
  {
    if covered == [] then None
    else if covered[0].heldOn == heldOn then Some(covered[0].staffing)
    else StaffingFor(covered[1..], heldOn)
  }

  // ---- The presence document --------------------------------------------------------------

  /** Where one loop in reach stands, given what was worked out over every session. */
  function StandingOn(
    s: Session, within: InReach, spokenOn: seq<LoopId>, atPriority: seq<LoopId>, covered: seq<Covered>,
    staffed: seq<StaffedBy>, ladder: Ladder, now: Instant): Standing
  {
    Standing(
      within,
      within.id in s.subscriptions,
      within.id in s.arms,
      within.id in spokenOn,
      within.id in atPriority,
      within.id in s.mutes,
      s.VolumeOf(within.id),
      s.HealthOf(within.id, ladder, now),
      StaffingFor(covered, within.id),
      exists by_ :: by_ in staffed && by_.heldOn == within.id && s.role in by_.roles)
  }

  function StandingsOn(
    s: Session, spokenOn: seq<LoopId>, atPriority: seq<LoopId>, covered: seq<Covered>,
    staffed: seq<StaffedBy>, ladder: Ladder, now: Instant): (r: seq<Standing>)
    ensures |r| == |s.reach|
    ensures forall i :: 0 <= i < |r| ==>
      r[i] == StandingOn(s, s.reach[i], spokenOn, atPriority, covered, staffed, ladder, now)
  {
    seq(|s.reach|, i requires 0 <= i < |s.reach| =>
      StandingOn(s, s.reach[i], spokenOn, atPriority, covered, staffed, ladder, now))
  }

  function DocumentOf(l: Live, s: Session, staffed: seq<StaffedBy>, now: Instant): Presence {
    Presence(
      s.id, s.role, s.Path(), s.ConnectionAt(l.ladder, now), s.IsTransmitting(l.ladder, now),
      s.IsAtPriority(l.ladder, now), s.AssertedAt(now),
      StandingsOn(s, SpokenOn(l.sessions, l.ladder, now), SpokenOnAtPriority(l.sessions, l.ladder, now),
                  TheStaffingOf(l, staffed, now), staffed, l.ladder, now))
  }

  /** The live state once this session's reach has been recorded. */
  function Reached(l: Live, k: nat, within: seq<InReach>): Live
    requires k < |l.sessions|
  {
    l.(sessions := l.sessions[k := l.sessions[k].Within(within)])
  }

  /** The document a projection hands out: worked out after the reach is recorded. */
  function Projected(l: Live, k: nat, within: seq<InReach>, staffed: seq<StaffedBy>, now: Instant): Presence
    requires k < |l.sessions|
  {
    DocumentOf(Reached(l, k, within), l.sessions[k].Within(within), staffed, now)
  }

  // ---- One step ---------------------------------------------------------------------------

  datatype Act =
    | Assume(assuming: Assuming, minted: SessionId)
    | EndedByItsOwnHolder(ending: SessionId)
    | WhyItEnded(ended: SessionId)
    | Do(session: SessionId, deed: Deed)
    | Project(projected: SessionId, within: seq<InReach>, staffed: seq<StaffedBy>)
    | NothingIsCarried
    | TakeTheRouting
    | TakeTheBeacons

  datatype Event = Event(act: Act, at: Instant)

  datatype Answer =
    | Seat(assumed: Result<Assumed, Occupied>)
    | Gone(relinquished: Option<Relinquished>)
    | Reason(why: Option<Ended>)
    | Taken(took: bool, pressed: Option<Pressed>)
    | Document(issued: Option<Issued>)
    | Routing(moved: Option<seq<WhoHears>>)
    | Beacons(counted: Option<seq<WhoCounts>>)
    | Silence

  function AllUncarried(sessions: seq<Session>): (r: seq<Session>)
    ensures |r| == |sessions|
    ensures forall i :: 0 <= i < |r| ==> r[i] == sessions[i].(seenByTheServer := Lost)
  {
    if sessions == [] then []
    else [sessions[0].(seenByTheServer := Lost)] + AllUncarried(sessions[1..])
  }

  function Step(l: Live, e: Event): Live {
    match e.act
    case Assume(a, minted) => AfterAssume(l, a, minted, e.at)
    case EndedByItsOwnHolder(id) => AfterEnding(l, id)
    case WhyItEnded(id) => AfterWhy(l, id, e.at)
    case Do(id, deed) =>
      if IsLive(l.sessions, id) then
        l.(sessions := l.sessions[At(l.sessions, id) := Done(Held(l.sessions, id), l.ladder, deed, e.at)])
      else l
    case Project(id, within, staffed) =>
      if IsLive(l.sessions, id) then
        var k := At(l.sessions, id);
        l.(sessions := l.sessions[k := l.sessions[k].Within(within).Shown(Projected(l, k, within, staffed, e.at))])
      else l
    case NothingIsCarried => l.(sessions := AllUncarried(l.sessions))
    case TakeTheRouting => l.(lastRouting := Some(FanOut(l, e.at)))
    case TakeTheBeacons => l.(lastBeacons := Some(BeaconCarriage(l)))
  }

  function Told(l: Live, e: Event): Answer {
    match e.act
    case Assume(a, minted) =>
      if IsFull(l.sessions, a) then Seat(Err(Occupied(a.limit.value)))
      else Seat(Ok(Assumed(minted, Displaced(l, a.occupant, e.at))))
    case EndedByItsOwnHolder(id) =>
      if IsLive(l.sessions, id) then Gone(Some(Ending(Held(l.sessions, id), ByRelinquishing, e.at)))
      else Gone(None)
    case WhyItEnded(id) =>
      var recent := Recent(l.tombstones, e.at);
      var kept := TombstoneAt(recent, id);
      Reason(if kept < |recent| then Some(recent[kept].why) else None)
    case Do(id, deed) =>
      if IsLive(l.sessions, id) then Taken(true, HandedBack(Held(l.sessions, id), deed, e.at))
      else Taken(false, None)
    case Project(id, within, staffed) =>
      if IsLive(l.sessions, id) then
        var k := At(l.sessions, id);
        var document := Projected(l, k, within, staffed, e.at);
        Document(Some(Issued(l.sessions[k].Within(within).Shown(document).version, document)))
      else Document(None)
    case NothingIsCarried => Silence
    case TakeTheRouting =>
      var routing := FanOut(l, e.at);
      Routing(if l.lastRouting == Some(routing) then None else Some(routing))
    case TakeTheBeacons =>
      var counting := BeaconCarriage(l);
      Beacons(if l.lastBeacons == Some(counting) then None else Some(counting))
  }

  // ---- Runs -------------------------------------------------------------------------------

  type History = seq<Event>

  function Before(h: History): History
    requires h != []
  {
    h[..|h| - 1]
  }

  function Latest(h: History): Event
    requires h != []
  {
    h[|h| - 1]
  }

  /** The live state a run leaves, starting from a system with nobody on it. */
  ghost function After(ladder: Ladder, h: History): Live {
    if h == [] then Empty(ladder) else Step(After(ladder, Before(h)), Latest(h))
  }

  ghost function MintedIn(h: History): set<SessionId> {
    if h == [] then {}
    else MintedIn(Before(h)) + if Latest(h).act.Assume? then {Latest(h).act.minted} else {}
  }

  /** The instant of the latest thing that happened. */
  ghost function Clock(h: History): Instant {
    if h == [] then 0 else Latest(h).at
  }

  /** What one event demands of its caller: the clock does not go back, a minted id has never
      been used, and a remembered set arrives as the keyed table holds it, naming a loop once. */
  ghost predicate MayFollow(h: History, e: Event) {
    && Clock(h) <= e.at
    && (e.act.Assume? ==>
          && e.act.minted !in MintedIn(h)
          && NoDuplicates(e.act.assuming.subscribedTo)
          && NoDuplicates(LoopsSet(e.act.assuming.volumes)))
  }

  ghost predicate Legal(h: History) {
    h == [] || (Legal(Before(h)) && MayFollow(Before(h), Latest(h)))
  }

  lemma {:induction false} OneMore(ladder: Ladder, h: History, e: Event)
    ensures After(ladder, h + [e]) == Step(After(ladder, h), e)
    ensures Legal(h + [e]) <==> Legal(h) && MayFollow(h, e)
    ensures Before(h + [e]) == h && Latest(h + [e]) == e
  {
    assert (h + [e])[..|h|] == h;
  }

  lemma {:induction false} StepKeepsTheLadder(l: Live, e: Event)
    ensures Step(l, e).ladder == l.ladder
  {
    hide Done, Projected, FanOut, BeaconCarriage, Recent, OfOthers, Seated, IsFull;
  }

  lemma {:induction false} LadderStands(ladder: Ladder, h: History)
    ensures After(ladder, h).ladder == ladder
  {
    if h != [] {
      hide Step;
      LadderStands(ladder, Before(h));
      StepKeepsTheLadder(After(ladder, Before(h)), Latest(h));
    }
  }
}
