/** How a session ends, what that hands back, and why it ended being told to whoever comes back for
    it: once, within a quarter of an hour, and only where it was ended from elsewhere. */
module Endings {
  import opened Basics
  import opened Names
  import opened Deployment
  import opened Sessions
  import opened LiveState
  import opened Invariants

  /** Whose session it was and when it was ended from elsewhere. */
  datatype Grave = Grave(occupant: UserId, at: Instant)

  /** The displacement nobody has come back for yet, read off the run: made when the same user
      takes a seat over this session, and gone once it has been asked about or that user has taken
      another. */
  ghost function Displacement(ladder: Ladder, h: History, id: SessionId): Option<Grave> {
    if h == [] then None
    else
      var l, e, before := After(ladder, Before(h)), Latest(h), Displacement(ladder, Before(h), id);
      if e.act.Assume? && !IsFull(l.sessions, e.act.assuming) then
        var occupant := e.act.assuming.occupant;
        if IsLive(l.sessions, id) && Held(l.sessions, id).occupant == occupant then Some(Grave(occupant, e.at))
        else if before.Some? && before.value.occupant == occupant then None
        else before
      else if e.act == WhyItEnded(id) then None
      else before
  }

  function AsTombstone(id: SessionId, grave: Grave): Tombstone {
    Tombstone(id, grave.occupant, AssumedElsewhere, grave.at)
  }

  /** The tombstones keep that displacement and no other ending of that session, for as long as it
      may still be told. */
  ghost predicate Keeps(tombstones: seq<Tombstone>, id: SessionId, displaced: Option<Grave>, clock: Instant) {
    && (forall t :: t in tombstones && t.session == id ==> displaced.Some? && t == AsTombstone(id, displaced.value))
    && (displaced.Some? && Since(clock, displaced.value.at) < TOMBSTONES_ARE_KEPT_FOR ==>
          AsTombstone(id, displaced.value) in tombstones)
    && (displaced.Some? ==> displaced.value.at <= clock)
  }

  lemma {:induction false} KeptLater(tombstones: seq<Tombstone>, id: SessionId, displaced: Option<Grave>,
      clock: Instant, now: Instant)
    requires Keeps(tombstones, id, displaced, clock) && clock <= now
    ensures Keeps(tombstones, id, displaced, now)
    ensures Keeps(Recent(tombstones, now), id, displaced, now)
  {
  }

  lemma {:induction false} KeptAmongOthers(tombstones: seq<Tombstone>, id: SessionId, displaced: Option<Grave>,
      now: Instant, occupant: UserId)
    requires Keeps(tombstones, id, displaced, now)
    ensures
      var theirs := if displaced.Some? && displaced.value.occupant == occupant then None else displaced;
      Keeps(OfOthers(tombstones, occupant), id, theirs, now)
  {
  }

  lemma {:induction false} KeptBesideAnother(tombstones: seq<Tombstone>, id: SessionId, displaced: Option<Grave>,
      now: Instant, t: Tombstone)
    requires Keeps(tombstones, id, displaced, now) && t.session != id
    ensures Keeps(tombstones + [t], id, displaced, now)
  {
  }

  lemma {:induction false} KeptOnceAsked(tombstones: seq<Tombstone>, id: SessionId, displaced: Option<Grave>,
      now: Instant, asked: SessionId)
    requires Keeps(tombstones, id, displaced, now) && OwnersApart(tombstones)
    ensures
      var kept := TombstoneAt(tombstones, asked);
      var left := if kept < |tombstones| then Removed(tombstones, kept) else tombstones;
      Keeps(left, id, if asked == id then None else displaced, now)
  {
    hide OwnersApart;
    var kept := TombstoneAt(tombstones, asked);
    if kept < |tombstones| {
      RemovedHolds(tombstones, kept);
      var rest := Removed(tombstones, kept);
      forall t | t in rest && t.session == id ensures asked != id {
        var i :| 0 <= i < |rest| && rest[i] == t;
        var j := if i < kept then i else i + 1;
        assert tombstones[j] == t;
        if asked == id { OneToAnOwner(tombstones, j, kept); }
      }
      if asked != id && displaced.Some? && AsTombstone(id, displaced.value) in tombstones {
        var i :| 0 <= i < |tombstones| && tombstones[i] == AsTombstone(id, displaced.value);
        assert tombstones[i] in rest;
      }
    }
  }

  lemma {:induction false} OneToAnOwner(tombstones: seq<Tombstone>, i: nat, j: nat)
    requires OwnersApart(tombstones) && i < |tombstones| && j < |tombstones|
    requires tombstones[i].occupant == tombstones[j].occupant
    ensures i == j
  {
  }

  lemma {:induction false} KeptThroughAnAssume(l: Live, minted: set<SessionId>, e: Event, id: SessionId,
      before: Option<Grave>)
    requires Coherent(l, minted) && Keeps(l.tombstones, id, before, e.at)
    requires e.act.Assume? && !IsFull(l.sessions, e.act.assuming)
    ensures
      var occupant := e.act.assuming.occupant;
      var grave :=
        if IsLive(l.sessions, id) && Held(l.sessions, id).occupant == occupant then Some(Grave(occupant, e.at))
        else if before.Some? && before.value.occupant == occupant then None
        else before;
      Keeps(AfterAssume(l, e.act.assuming, e.act.minted, e.at).tombstones, id, grave, e.at)
  {
    hide IsFull, Seated, Keeps;
    var occupant := e.act.assuming.occupant;
    var held := SeatOf(l.sessions, occupant);
    var others := OfOthers(l.tombstones, occupant);
    var theirs := if before.Some? && before.value.occupant == occupant then None else before;
    KeptAmongOthers(l.tombstones, id, before, e.at, occupant);
    if IsLive(l.sessions, id) { FoundWhereItIs(l.sessions, At(l.sessions, id)); }
    if held < |l.sessions| {
      FoundWhereItIs(l.sessions, held);
      KeptLater(others, id, theirs, e.at, e.at);
      if l.sessions[held].id == id {
        KeptAsLaid(l, minted, Recent(others, e.at), id, occupant, e.at);
      } else {
        var laid := Tombstone(l.sessions[held].id, occupant, AssumedElsewhere, e.at);
        KeptBesideAnother(Recent(others, e.at), id, theirs, e.at, laid);
      }
    }
  }

  lemma {:induction false} KeptAsLaid(l: Live, minted: set<SessionId>, recent: seq<Tombstone>, id: SessionId,
      occupant: UserId, now: Instant)
    requires Coherent(l, minted) && IsLive(l.sessions, id) && forall t :: t in recent ==> t in l.tombstones
    ensures Keeps(recent + [Tombstone(id, occupant, AssumedElsewhere, now)], id, Some(Grave(occupant, now)), now)
  {
    var laid := recent + [Tombstone(id, occupant, AssumedElsewhere, now)];
    assert laid[|recent|] in laid;
  }

  lemma {:induction false} TombstonesStand(l: Live, e: Event)
    requires !(e.act.Assume? && !IsFull(l.sessions, e.act.assuming)) && !e.act.WhyItEnded?
    ensures Step(l, e).tombstones == l.tombstones
  {
  }

  lemma {:induction false} TombstonesKeepTheDisplacement(ladder: Ladder, h: History, id: SessionId)
    requires Legal(h)
    ensures Keeps(After(ladder, h).tombstones, id, Displacement(ladder, h, id), Clock(h))
  {
    if h != [] {
      hide Step, Keeps, Coherent, IsFull;
      var l, e, before := After(ladder, Before(h)), Latest(h), Displacement(ladder, Before(h), id);
      TombstonesKeepTheDisplacement(ladder, Before(h), id);
      EveryRunIsCoherent(ladder, Before(h));
      KeptLater(l.tombstones, id, before, Clock(Before(h)), e.at);
      if e.act.Assume? && !IsFull(l.sessions, e.act.assuming) {
        KeptThroughAnAssume(l, MintedIn(Before(h)), e, id, before);
        AssumeStep(l, e);
      } else if e.act.WhyItEnded? {
        AskedStep(l, MintedIn(Before(h)), e);
        KeptOnceAsked(Recent(l.tombstones, e.at), id, before, e.at, e.act.ended);
      } else {
        TombstonesStand(l, e);
      }
    }
  }

  lemma {:induction false} AssumeStep(l: Live, e: Event)
    requires e.act.Assume?
    ensures Step(l, e) == AfterAssume(l, e.act.assuming, e.act.minted, e.at)
  {
  }

  lemma {:induction false} AskedStep(l: Live, minted: set<SessionId>, e: Event)
    requires e.act.WhyItEnded? && Coherent(l, minted)
    ensures Step(l, e) == AfterWhy(l, e.act.ended, e.at) && OwnersApart(Recent(l.tombstones, e.at))
  {
    RecentApart(l.tombstones, e.at);
  }

  /** Asked why a session ended, the answer is *assumed elsewhere* exactly where the same user took
      another seat over it less than a quarter of an hour ago, has taken none since, and nobody has
      asked already; a session its own holder gave up has no answer waiting. */
  lemma {:induction false} AnEndingIsToldOnce(ladder: Ladder, h: History, id: SessionId, now: Instant)
    requires Legal(h) && Clock(h) <= now
    ensures
      var displaced := Displacement(ladder, h, id);
      Told(After(ladder, h), Event(WhyItEnded(id), now))
        == Reason(if displaced.Some?
            && now < displaced.value.at + TOMBSTONES_ARE_KEPT_FOR then Some(AssumedElsewhere) else None)
    ensures Displacement(ladder, h + [Event(WhyItEnded(id), now)], id) == None
  {
    hide Displacement, After, Legal;
    TombstonesKeepTheDisplacement(ladder, h, id);
    KeptLater(After(ladder, h).tombstones, id, Displacement(ladder, h, id), Clock(h), now);
    OnceAskedGone(ladder, h, id, now);
    var recent := Recent(After(ladder, h).tombstones, now);
    var kept := TombstoneAt(recent, id);
    if kept < |recent| {
      assert recent[kept] in recent;
    }
  }

  lemma {:induction false} OnceAskedGone(ladder: Ladder, h: History, id: SessionId, now: Instant)
    ensures Displacement(ladder, h + [Event(WhyItEnded(id), now)], id) == None
  {
    hide After;
    assert Latest(h + [Event(WhyItEnded(id), now)]) == Event(WhyItEnded(id), now);
  }

  // ---- What an ending hands back --------------------------------------------------------------------

  /** What is handed back is about that session and says how it ended. */
  ghost predicate IsTheEndOf(r: Relinquished, s: Session, why: Ended) {
    && r.session == s.id && r.signIn == s.signIn && r.occupant == s.occupant && r.role == s.role && r.why == why
    && (r.pressed.Some? <==> s.pressing.Some?)
    && (r.pressed.Some? ==> r.pressed.value.occupant == s.occupant && r.pressed.value.role == s.role)
  }

  lemma {:induction false} GoneOnceRemoved(sessions: seq<Session>, k: nat)
    requires SeatsApart(sessions) && k < |sessions|
    ensures !IsLive(Removed(sessions, k), sessions[k].id)
    ensures forall s: Session :: s in Removed(sessions, k) <==> s in sessions && s.id != sessions[k].id
  {
    RemovedApart(sessions, k);
    RemovedHolds(sessions, k);
    forall s | s in sessions && s.id != sessions[k].id ensures s in Removed(sessions, k) {
      var i :| 0 <= i < |sessions| && sessions[i] == s;
    }
    LiveIfPresent(Removed(sessions, k), sessions[k].id);
  }

  /** A session given up is handed back as its holder's act, is the one taken out, and leaves every
      other where it was; one that is not there hands nothing back and changes nothing. */
  lemma {:induction false} GivingUpEndsThatSession(ladder: Ladder, h: History, id: SessionId, now: Instant)
    requires Legal(h)
    ensures
      var l, e := After(ladder, h), Event(EndedByItsOwnHolder(id), now);
      var after := Step(l, e);
      && after.tombstones == l.tombstones
      && if IsLive(l.sessions, id) then
           && Told(l, e).Gone? && Told(l, e).relinquished.Some?
           && IsTheEndOf(Told(l, e).relinquished.value, Held(l.sessions, id), ByRelinquishing)
           && (forall s: Session :: s in after.sessions <==> s in l.sessions && s.id != id)
         else Told(l, e) == Gone(None) && after == l
  {
    hide After, Legal, TombstonesOk;
    EveryRunIsCoherent(ladder, h);
    var l := After(ladder, h);
    if IsLive(l.sessions, id) { GoneOnceRemoved(l.sessions, At(l.sessions, id)); }
  }

  /** An assume that lands hands back exactly the seat its user was in, as ended from elsewhere, and
      nothing where they were in none. */
  lemma {:induction false} AnAssumeEndsTheirOwnSeat(ladder: Ladder, h: History, a: Assuming, minted: SessionId,
      now: Instant)
    requires Legal(h) && !IsFull(After(ladder, h).sessions, a)
    ensures
      var l, told := After(ladder, h), Told(After(ladder, h), Event(Assume(a, minted), now));
      && told.Seat? && told.assumed.Ok? && told.assumed.value.session == minted
      && (forall s :: s in l.sessions && s.occupant == a.occupant ==>
            told.assumed.value.displaced.Some? && IsTheEndOf(told.assumed.value.displaced.value, s, AssumedElsewhere))
      && (told.assumed.value.displaced.Some? ==> exists s :: s in l.sessions && s.occupant == a.occupant)
  {
    hide After, Legal, TombstonesOk, IsFull;
    EveryRunIsCoherent(ladder, h);
    var l := After(ladder, h);
    forall s | s in l.sessions && s.occupant == a.occupant
      ensures SeatOf(l.sessions, a.occupant) < |l.sessions| && l.sessions[SeatOf(l.sessions, a.occupant)] == s
    {
      var k :| 0 <= k < |l.sessions| && l.sessions[k] == s;
      FoundWhereItIs(l.sessions, k);
    }
  }
}
