/** What every reachable live state satisfies, whatever was done to it and in whatever order. */
module Invariants {
  import opened Basics
  import opened Names
  import opened Deployment
  import opened Sessions
  import opened LiveState

  // ---- One session ------------------------------------------------------------------------

  ghost predicate SessionOk(s: Session) {
    && NoDuplicates(s.subscriptions)
    && HeldOn(s.beacons) == s.subscriptions
    && NoDuplicates(s.mutes)
    && (forall on :: on in s.mutes ==> on in s.subscriptions)
    && NoDuplicates(s.arms)
    && NoDuplicates(LoopsSet(s.volumes))
  }

  ghost predicate SamePerson(s: Session, t: Session) {
    s.id == t.id && s.signIn == t.signIn && s.occupant == t.occupant && s.role == t.role
  }

  lemma {:induction false} HeldOnLast(front: seq<Counting>, last: Counting)
    ensures HeldOn(front + [last]) == HeldOn(front) + [last.heldOn]
  {
    hide HeldOn;
  }

  lemma {:induction false} WithoutLast(front: seq<LoopId>, last: LoopId, x: LoopId)
    ensures Without(front + [last], x) == Without(front, x) + if last == x then [] else [last]
  {
    assert (front + [last])[..|front|] == front;
  }

  lemma {:induction false} WithoutBeaconLast(front: seq<Counting>, last: Counting, from: LoopId)
    ensures WithoutBeacon(front + [last], from)
         == WithoutBeacon(front, from) + if last.heldOn == from then [] else [last]
  {
    assert (front + [last])[..|front|] == front;
  }

  lemma {:induction false} OneBeaconFollows(front: seq<Counting>, last: Counting, from: LoopId)
    requires HeldOn(WithoutBeacon(front, from)) == Without(HeldOn(front), from)
    ensures HeldOn(WithoutBeacon(front + [last], from)) == Without(HeldOn(front + [last]), from)
  {
    hide HeldOn, Without, WithoutBeacon, NoDuplicates;
    var kept := WithoutBeacon(front, from);
    WithoutBeaconLast(front, last, from);
    HeldOnLast(front, last);
    WithoutLast(HeldOn(front), last.heldOn, from);
    if last.heldOn == from {
      assert kept + [] == kept && Without(HeldOn(front), from) + [] == Without(HeldOn(front), from);
    } else {
      HeldOnLast(kept, last);
    }
  }

  lemma {:induction false} BeaconsFollowTheSet(beacons: seq<Counting>, from: LoopId)
    ensures HeldOn(WithoutBeacon(beacons, from)) == Without(HeldOn(beacons), from)
  {
    if beacons != [] {
      hide HeldOn, Without, WithoutBeacon, NoDuplicates;
      var front, last := beacons[..|beacons| - 1], beacons[|beacons| - 1];
      assert beacons == front + [last];
      BeaconsFollowTheSet(front, from);
      OneBeaconFollows(front, last, from);
    }
  }

  lemma {:induction false} DeedKeepsSessionOk(s: Session, ladder: Ladder, deed: Deed, now: Instant)
    requires SessionOk(s)
    ensures SessionOk(Done(s, ladder, deed, now)) && SamePerson(s, Done(s, ladder, deed, now))
  {
    hide HeldOn, LoopsSet, With, Without, WithoutBeacon, VolumeSet, CountAll, AllAgain, NamesWithin;
    var t := Done(s, ladder, deed, now);
    match deed
    case Subscribe(to) =>
      if to !in s.subscriptions {
        assert HeldOn(t.beacons) == HeldOn(s.beacons) + [to];
      }
    case Unsubscribe(from) => BeaconsFollowTheSet(s.beacons, from);
    case SetVolume(on, volume) => VolumeSetKeepsOne(s.volumes, on, volume);
    case AnswerTheHeartbeat => assert HeldOn(t.beacons) == HeldOn(s.beacons);
    case CountBeacons(totals) => assert HeldOn(t.beacons) == HeldOn(s.beacons);
    case _ =>
  }

  lemma {:induction false} ProjectionKeepsSessionOk(s: Session, within: seq<InReach>, document: Presence)
    requires SessionOk(s)
    ensures SessionOk(s.Within(within).Shown(document)) && SamePerson(s, s.Within(within).Shown(document))
  {
  }

  // ---- All of them ------------------------------------------------------------------------

  ghost predicate SeatsApart(sessions: seq<Session>) {
    forall i, j :: 0 <= i < j < |sessions| ==>
      sessions[i].id != sessions[j].id && sessions[i].occupant != sessions[j].occupant
  }

  ghost predicate OwnersApart(tombstones: seq<Tombstone>) {
    forall i, j :: 0 <= i < j < |tombstones| ==> tombstones[i].occupant != tombstones[j].occupant
  }

  ghost predicate SessionsOk(sessions: seq<Session>, minted: set<SessionId>) {
    && SeatsApart(sessions)
    && (forall s :: s in sessions ==> SessionOk(s) && s.id in minted)
  }

  ghost predicate TombstonesOk(tombstones: seq<Tombstone>, sessions: seq<Session>, minted: set<SessionId>) {
    && OwnersApart(tombstones)
    && (forall t :: t in tombstones ==> t.session in minted && !IsLive(sessions, t.session))
  }

  /** At most one session to a user, every id its own, every session in order, and at most one
      tombstone to a user and none for a session that is live. */
  ghost predicate Coherent(l: Live, minted: set<SessionId>) {
    SessionsOk(l.sessions, minted) && TombstonesOk(l.tombstones, l.sessions, minted)
  }

  lemma {:induction false} FoundWhereItIs(sessions: seq<Session>, k: nat)
    requires SeatsApart(sessions) && k < |sessions|
    ensures At(sessions, sessions[k].id) == k && SeatOf(sessions, sessions[k].occupant) == k
  {
  }

  lemma {:induction false} OfOthersApart(tombstones: seq<Tombstone>, occupant: UserId)
    requires OwnersApart(tombstones)
    ensures OwnersApart(OfOthers(tombstones, occupant))
  {
    if tombstones != [] { OfOthersApart(tombstones[1..], occupant); }
  }

  lemma {:induction false} RecentApart(tombstones: seq<Tombstone>, now: Instant)
    requires OwnersApart(tombstones)
    ensures OwnersApart(Recent(tombstones, now))
  {
    if tombstones != [] { RecentApart(tombstones[1..], now); }
  }

  /** Changing one session in place keeps everything that is said of all of them. */
  lemma {:induction false} PutBackCoherent(l: Live, minted: set<SessionId>, k: nat, s: Session)
    requires Coherent(l, minted) && k < |l.sessions|
    requires SessionOk(s) && SamePerson(l.sessions[k], s)
    ensures Coherent(l.(sessions := l.sessions[k := s]), minted)
  {
    SameSeatsCoherent(l, minted, l.sessions[k := s]);
  }

  lemma {:induction false} SameSeatsCoherent(l: Live, minted: set<SessionId>, after: seq<Session>)
    requires Coherent(l, minted)
    requires |after| == |l.sessions|
    requires forall i :: 0 <= i < |after| ==> SamePerson(l.sessions[i], after[i]) && SessionOk(after[i])
    ensures Coherent(l.(sessions := after), minted)
  {
    forall id ensures IsLive(after, id) <==> IsLive(l.sessions, id) {
      SameSeats(l.sessions, after, id);
    }
  }

  lemma {:induction false} SameSeats(a: seq<Session>, b: seq<Session>, id: SessionId)
    requires |a| == |b| && forall i :: 0 <= i < |a| ==> a[i].id == b[i].id
    ensures At(a, id) == At(b, id)
  {
    if a != [] { SameSeats(a[1..], b[1..], id); }
  }

  lemma {:induction false} RemovedApart(sessions: seq<Session>, k: nat)
    requires SeatsApart(sessions) && k < |sessions|
    ensures SeatsApart(Removed(sessions, k))
    ensures forall s :: s in Removed(sessions, k) ==>
      s in sessions && s.id != sessions[k].id && s.occupant != sessions[k].occupant
  {
    RemovedHolds(sessions, k);
    var r := Removed(sessions, k);
    forall s | s in r
      ensures s in sessions && s.id != sessions[k].id && s.occupant != sessions[k].occupant
    {
      var i :| 0 <= i < |r| && r[i] == s;
    }
  }

  lemma {:induction false} LiveIfPresent(sessions: seq<Session>, id: SessionId)
    ensures IsLive(sessions, id) <==> exists s :: s in sessions && s.id == id
  {
    if IsLive(sessions, id) { assert sessions[At(sessions, id)] in sessions; }
  }

  lemma {:induction false} RemovalCoherent(l: Live, minted: set<SessionId>, k: nat)
    requires Coherent(l, minted) && k < |l.sessions|
    ensures Coherent(l.(sessions := Removed(l.sessions, k)), minted)
    ensures !IsLive(Removed(l.sessions, k), l.sessions[k].id)
  {
    RemovedApart(l.sessions, k);
    forall id ensures IsLive(Removed(l.sessions, k), id) ==> IsLive(l.sessions, id) && id != l.sessions[k].id {
      LiveIfPresent(l.sessions, id);
      LiveIfPresent(Removed(l.sessions, k), id);
    }
  }

  lemma {:induction false} SeatingCoherent(l: Live, minted: set<SessionId>, s: Session)
    requires Coherent(l, minted) && s.id !in minted && SessionOk(s)
    requires forall t :: t in l.sessions ==> t.occupant != s.occupant
    ensures Coherent(l.(sessions := l.sessions + [s]), minted + {s.id})
  {
    forall id ensures IsLive(l.sessions + [s], id) ==> IsLive(l.sessions, id) || id == s.id {
      LiveIfPresent(l.sessions, id);
      LiveIfPresent(l.sessions + [s], id);
    }
  }

  lemma {:induction false} BuryingCoherent(l: Live, minted: set<SessionId>, t: Tombstone)
    requires Coherent(l, minted) && t.session in minted && !IsLive(l.sessions, t.session)
    requires forall u :: u in l.tombstones ==> u.occupant != t.occupant
    ensures Coherent(l.(tombstones := l.tombstones + [t]), minted)
  {
  }

  lemma {:induction false} SeatedOk(a: Assuming, id: SessionId, now: Instant)
    requires NoDuplicates(a.subscribedTo) && NoDuplicates(LoopsSet(a.volumes))
    ensures SessionOk(Seated(a, id, now))
  {
    assert HeldOn(AllStarting(a.subscribedTo, now)) == a.subscribedTo;
  }

  lemma {:induction false} AssumeCoherent(l: Live, minted: set<SessionId>, a: Assuming, id: SessionId, now: Instant)
    requires Coherent(l, minted) && id !in minted
    requires NoDuplicates(a.subscribedTo) && NoDuplicates(LoopsSet(a.volumes))
    ensures Coherent(AfterAssume(l, a, id, now), minted + {id})
  {
    if !IsFull(l.sessions, a) {
      SeatedOk(a, id, now);
      var held := SeatOf(l.sessions, a.occupant);
      var kept := OfOthers(l.tombstones, a.occupant);
      OfOthersApart(l.tombstones, a.occupant);
      var spent := l.(tombstones := kept);
      assert Coherent(spent, minted);
      if held == |l.sessions| {
        SeatingCoherent(spent, minted, Seated(a, id, now));
      } else {
        RecentApart(kept, now);
        var recent := l.(tombstones := Recent(kept, now));
        assert Coherent(recent, minted);
        RemovalCoherent(recent, minted, held);
        RemovedApart(l.sessions, held);
        var without := recent.(sessions := Removed(l.sessions, held));
        var buried := without.(tombstones := without.tombstones
          + [Tombstone(l.sessions[held].id, a.occupant, AssumedElsewhere, now)]);
        BuryingCoherent(without, minted, Tombstone(l.sessions[held].id, a.occupant, AssumedElsewhere, now));
        SeatingCoherent(buried, minted, Seated(a, id, now));
      }
    }
  }

  lemma {:induction false} FewerTombstones(l: Live, minted: set<SessionId>, fewer: seq<Tombstone>)
    requires Coherent(l, minted) && OwnersApart(fewer) && forall t :: t in fewer ==> t in l.tombstones
    ensures Coherent(l.(tombstones := fewer), minted)
  {
    hide SessionsOk, OwnersApart, IsLive;
  }

  lemma {:induction false} OneTombstoneFewer(tombstones: seq<Tombstone>, k: nat)
    requires OwnersApart(tombstones) && k < |tombstones|
    ensures OwnersApart(Removed(tombstones, k)) && forall t :: t in Removed(tombstones, k) ==> t in tombstones
  {
    RemovedHolds(tombstones, k);
  }

  lemma {:induction false} WhyCoherent(l: Live, minted: set<SessionId>, id: SessionId, now: Instant)
    requires Coherent(l, minted)
    ensures Coherent(AfterWhy(l, id, now), minted)
  {
    hide SessionsOk, Removed, Recent;
    var recent := Recent(l.tombstones, now);
    RecentApart(l.tombstones, now);
    var kept := TombstoneAt(recent, id);
    if kept < |recent| { OneTombstoneFewer(recent, kept); }
    hide OwnersApart, Coherent;
    FewerTombstones(l, minted, AfterWhy(l, id, now).tombstones);
  }

  lemma {:induction false} DeedCoherent(l: Live, minted: set<SessionId>, e: Event)
    requires Coherent(l, minted) && e.act.Do?
    ensures Coherent(Step(l, e), minted)
  {
    var id, deed := e.act.session, e.act.deed;
    if IsLive(l.sessions, id) {
      DeedKeepsSessionOk(Held(l.sessions, id), l.ladder, deed, e.at);
      PutBackCoherent(l, minted, At(l.sessions, id), Done(Held(l.sessions, id), l.ladder, deed, e.at));
    }
  }

  lemma {:induction false} ProjectionCoherent(l: Live, minted: set<SessionId>, e: Event)
    requires Coherent(l, minted) && e.act.Project?
    ensures Coherent(Step(l, e), minted)
  {
    hide Projected, StillRouted, OwnersApart, TombstonesOk;
    var id := e.act.projected;
    if IsLive(l.sessions, id) {
      var k := At(l.sessions, id);
      var document := Projected(l, k, e.act.within, e.act.staffed, e.at);
      ProjectionKeepsSessionOk(l.sessions[k], e.act.within, document);
      PutBackCoherent(l, minted, k, l.sessions[k].Within(e.act.within).Shown(document));
    }
  }

  lemma {:induction false} StepCoherent(l: Live, minted: set<SessionId>, e: Event)
    requires Coherent(l, minted)
    requires e.act.Assume? ==>
      && e.act.minted !in minted
      && NoDuplicates(e.act.assuming.subscribedTo) && NoDuplicates(LoopsSet(e.act.assuming.volumes))
    ensures Coherent(Step(l, e), minted + if e.act.Assume? then {e.act.minted} else {})
  {
    assert minted + {} == minted;
    match e.act
    case Assume(a, id) => AssumeCoherent(l, minted, a, id, e.at);
    case EndedByItsOwnHolder(id) =>
      if IsLive(l.sessions, id) { RemovalCoherent(l, minted, At(l.sessions, id)); }
    case WhyItEnded(id) => WhyCoherent(l, minted, id, e.at);
    case Do(id, deed) => DeedCoherent(l, minted, e);
    case Project(id, within, staffed) => ProjectionCoherent(l, minted, e);
    case NothingIsCarried => SameSeatsCoherent(l, minted, AllUncarried(l.sessions));
    case TakeTheRouting =>
    case TakeTheBeacons =>
  }

  /** Every state a legal run reaches is coherent. */
  lemma {:induction false} EveryRunIsCoherent(ladder: Ladder, h: History)
    requires Legal(h)
    ensures Coherent(After(ladder, h), MintedIn(h))
  {
    if h != [] {
      EveryRunIsCoherent(ladder, Before(h));
      StepCoherent(After(ladder, Before(h)), MintedIn(Before(h)), Latest(h));
    }
  }

  // ---- The seats a role has ---------------------------------------------------------------

  /** The limits a run is administered under, as Configuration hands them in. */
  ghost predicate AdministeredBy(h: History, limits: map<RoleId, nat>) {
    forall i :: 0 <= i < |h| && h[i].act.Assume? ==>
      h[i].act.assuming.limit
        == if h[i].act.assuming.role in limits then Some(limits[h[i].act.assuming.role]) else None
  }

  lemma {:induction false} OccupantsAddUp(a: seq<Session>, b: seq<Session>, role: RoleId)
    ensures OccupantsOf(a + b, role) == OccupantsOf(a, role) + OccupantsOf(b, role)
  {
    if a == [] {
      assert a + b == b;
    } else {
      assert (a + b)[1..] == a[1..] + b;
      OccupantsAddUp(a[1..], b, role);
    }
  }

  lemma {:induction false} OthersAddUp(a: seq<Session>, b: seq<Session>, role: RoleId, occupant: UserId)
    ensures OthersIn(a + b, role, occupant) == OthersIn(a, role, occupant) + OthersIn(b, role, occupant)
  {
    if a == [] {
      assert a + b == b;
    } else {
      assert (a + b)[1..] == a[1..] + b;
      OthersAddUp(a[1..], b, role, occupant);
    }
  }

  lemma {:induction false} NoneOfTheirs(sessions: seq<Session>, role: RoleId, occupant: UserId)
    requires forall s :: s in sessions ==> s.occupant != occupant
    ensures OthersIn(sessions, role, occupant) == |OccupantsOf(sessions, role)|
  {
    if sessions != [] { NoneOfTheirs(sessions[1..], role, occupant); }
  }

  /** The others in a role are exactly who is left in it once this user's seat is given up. */
  lemma {:induction false} OthersAreWhoIsLeft(sessions: seq<Session>, role: RoleId, k: nat)
    requires SeatsApart(sessions) && k < |sessions|
    ensures OthersIn(sessions, role, sessions[k].occupant) == |OccupantsOf(Removed(sessions, k), role)|
  {
    var occupant := sessions[k].occupant;
    var front, mine, back := sessions[..k], [sessions[k]], sessions[k + 1..];
    assert sessions == front + (mine + back);
    OthersAddUp(front, mine + back, role, occupant);
    OthersAddUp(mine, back, role, occupant);
    assert OthersIn(mine, role, occupant) == OthersIn([], role, occupant);
    OccupantsAddUp(front, back, role);
    NoneOfTheirs(front, role, occupant);
    NoneOfTheirs(back, role, occupant);
  }

  lemma {:induction false} SameRoles(a: seq<Session>, b: seq<Session>, role: RoleId)
    requires |a| == |b| && forall i :: 0 <= i < |a| ==> a[i].role == b[i].role && a[i].occupant == b[i].occupant
    ensures OccupantsOf(a, role) == OccupantsOf(b, role)
  {
    if a != [] { SameRoles(a[1..], b[1..], role); }
  }

  lemma {:induction false} OccupantsAfterRemoval(sessions: seq<Session>, k: nat, role: RoleId)
    requires k < |sessions|
    ensures |OccupantsOf(Removed(sessions, k), role)| <= |OccupantsOf(sessions, role)|
  {
    assert sessions == sessions[..k] + ([sessions[k]] + sessions[k + 1..]);
    OccupantsAddUp(sessions[..k], [sessions[k]] + sessions[k + 1..], role);
    OccupantsAddUp([sessions[k]], sessions[k + 1..], role);
    OccupantsAddUp(sessions[..k], sessions[k + 1..], role);
  }

  /** Taking a seat adds to no role but the one asked for, and to that one only up to the limit read. */
  lemma {:induction false} AnAssumeFillsOnlyToTheLimit(l: Live, minted: set<SessionId>, a: Assuming, id: SessionId,
      now: Instant, role: RoleId)
    requires Coherent(l, minted)
    ensures
      var before, after := |OccupantsOf(l.sessions, role)|, |OccupantsOf(AfterAssume(l, a, id, now).sessions, role)|;
      && (a.role != role || IsFull(l.sessions, a) ==> after <= before)
      && (a.role == role && a.limit.Some? && !IsFull(l.sessions, a) ==> after <= a.limit.value)
  {
    if !IsFull(l.sessions, a) {
      var held := SeatOf(l.sessions, a.occupant);
      var others := if held < |l.sessions| then Removed(l.sessions, held) else l.sessions;
      var seated := Seated(a, id, now);
      OccupantsAddUp(others, [seated], role);
      assert OccupantsOf([seated], role) == (if a.role == role then [a.occupant] else []) + OccupantsOf([], role);
      if held < |l.sessions| {
        OthersAreWhoIsLeft(l.sessions, role, held);
        OccupantsAfterRemoval(l.sessions, held, role);
      } else {
        NoneOfTheirs(l.sessions, role, a.occupant);
      }
    }
  }

  /** Nothing but an assume or an ending moves who is in which seat. */
  lemma {:induction false} SeatsStand(l: Live, e: Event)
    requires !e.act.Assume? && !e.act.EndedByItsOwnHolder?
    ensures |Step(l, e).sessions| == |l.sessions|
    ensures forall i :: 0 <= i < |l.sessions| ==> SamePerson(l.sessions[i], Step(l, e).sessions[i])
  {
    hide Done, Projected, StillRouted, Recent, FanOut, BeaconCarriage;
    match e.act
    case Do(id, deed) =>
      if IsLive(l.sessions, id) { DeedKeepsThePerson(Held(l.sessions, id), l.ladder, deed, e.at); }
    case _ =>
  }

  lemma {:induction false} DeedKeepsThePerson(s: Session, ladder: Ladder, deed: Deed, now: Instant)
    ensures SamePerson(s, Done(s, ladder, deed, now))
  {
  }

  lemma {:induction false} StepWithinTheLimit(l: Live, minted: set<SessionId>, e: Event, role: RoleId, limit: nat)
    requires Coherent(l, minted)
    requires e.act.Assume? && e.act.assuming.role == role ==> e.act.assuming.limit == Some(limit)
    requires |OccupantsOf(l.sessions, role)| <= limit
    ensures |OccupantsOf(Step(l, e).sessions, role)| <= limit
  {
    if e.act.Assume? {
      AnAssumeFillsOnlyToTheLimit(l, minted, e.act.assuming, e.act.minted, e.at, role);
    } else if e.act.EndedByItsOwnHolder? {
      if IsLive(l.sessions, e.act.ending) { OccupantsAfterRemoval(l.sessions, At(l.sessions, e.act.ending), role); }
    } else {
      SeatsStand(l, e);
      SameRoles(l.sessions, Step(l, e).sessions, role);
    }
  }

  /** With each role's limit fixed, no run ever seats more in a role than its limit. */
  lemma {:induction false} OccupancyNeverExceedsTheLimit(ladder: Ladder, h: History, limits: map<RoleId, nat>,
      role: RoleId)
    requires Legal(h) && AdministeredBy(h, limits) && role in limits
    ensures |OccupantsOf(After(ladder, h).sessions, role)| <= limits[role]
  {
    if h != [] {
      assert forall i :: 0 <= i < |Before(h)| ==> Before(h)[i] == h[i];
      OccupancyNeverExceedsTheLimit(ladder, Before(h), limits, role);
      EveryRunIsCoherent(ladder, Before(h));
      StepWithinTheLimit(After(ladder, Before(h)), MintedIn(Before(h)), Latest(h), role, limits[role]);
    }
  }

  /** An assume is refused exactly when the others already in the role fill it, and a refusal
      changes nothing; one that lands seats its user once, in that role, and nobody else moves. */
  lemma {:induction false} AnAssumeSeatsOrChangesNothing(l: Live, minted: set<SessionId>, a: Assuming, id: SessionId,
      now: Instant)
    requires Coherent(l, minted) && id !in minted
    requires NoDuplicates(a.subscribedTo) && NoDuplicates(LoopsSet(a.volumes))
    ensures
      var after := AfterAssume(l, a, id, now);
      if a.limit.Some? && |OthersOf(l.sessions, a.role, a.occupant)| >= a.limit.value
      then Told(l, Event(Assume(a, id), now)) == Seat(Err(Occupied(a.limit.value))) && after == l
      else
        && Told(l, Event(Assume(a, id), now)) == Seat(Ok(Assumed(id, Displaced(l, a.occupant, now))))
        && IsLive(after.sessions, id) && Held(after.sessions, id) == Seated(a, id, now)
        && (forall s: Session :: s.occupant != a.occupant ==> (s in after.sessions <==> s in l.sessions))
        && (forall s: Session :: s in after.sessions && s.occupant == a.occupant ==> s.id == id)
  {
    OthersCounted(l.sessions, a.role, a.occupant);
    if !IsFull(l.sessions, a) {
      WhoIsSeated(l, minted, a, id, now);
    }
  }

  lemma {:induction false} SeatedLast(others: seq<Session>, s: Session)
    requires forall t :: t in others ==> t.id != s.id
    ensures IsLive(others + [s], s.id) && Held(others + [s], s.id) == s
  {
    var after := others + [s];
    forall i | 0 <= i < |others| ensures after[i].id != s.id {
      assert after[i] in others;
    }
    assert after[|others|] == s;
  }

  lemma {:induction false} WhoIsSeated(l: Live, minted: set<SessionId>, a: Assuming, id: SessionId, now: Instant)
    requires SessionsOk(l.sessions, minted) && id !in minted && !IsFull(l.sessions, a)
    ensures
      var after := AfterAssume(l, a, id, now);
      && IsLive(after.sessions, id) && Held(after.sessions, id) == Seated(a, id, now)
      && (forall s: Session :: s.occupant != a.occupant ==> (s in after.sessions <==> s in l.sessions))
      && (forall s: Session :: s in after.sessions && s.occupant == a.occupant ==> s.id == id)
  {
    var held := SeatOf(l.sessions, a.occupant);
    var others := if held < |l.sessions| then Removed(l.sessions, held) else l.sessions;
    var after := AfterAssume(l, a, id, now).sessions;
    assert after == others + [Seated(a, id, now)];
    if held < |l.sessions| {
      RemovedApart(l.sessions, held);
      RemovedHolds(l.sessions, held);
    }
    SeatedLast(others, Seated(a, id, now));
  }

  /** The sessions in a role that are not this user's. */
  ghost function OthersOf(sessions: seq<Session>, role: RoleId, occupant: UserId): set<Session> {
    set s | s in sessions && s.role == role && s.occupant != occupant
  }

  lemma {:induction false} OthersCounted(sessions: seq<Session>, role: RoleId, occupant: UserId)
    requires SeatsApart(sessions)
    ensures OthersIn(sessions, role, occupant) == |OthersOf(sessions, role, occupant)|
  {
    if sessions != [] {
      var first, rest := sessions[0], sessions[1..];
      OthersCounted(rest, role, occupant);
      var fewer, all := OthersOf(rest, role, occupant), OthersOf(sessions, role, occupant);
      assert first !in rest;
      forall s ensures s in all <==> s in fewer || (s == first && first.role == role && first.occupant != occupant) {
        assert s in sessions <==> s == first || s in rest;
      }
      if first.role == role && first.occupant != occupant {
        assert all == fewer + {first};
      } else {
        assert all == fewer;
      }
    }
  }
}
