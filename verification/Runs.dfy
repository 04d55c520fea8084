/** Following one session along a run: which events it survives and what each leaves of it. */
module Runs {
  import opened Basics
  import opened Names
  import opened Deployment
  import opened Sessions
  import opened LiveState
  import opened Invariants

  /** The event that ends this session: its own holder giving it up, or the same user taking a
      seat that was not full. */
  ghost predicate Ends(l: Live, s: Session, e: Event) {
    || (e.act.EndedByItsOwnHolder? && e.act.ending == s.id)
    || (e.act.Assume? && e.act.assuming.occupant == s.occupant && !IsFull(l.sessions, e.act.assuming))
  }

  /** What an event that does not end a session leaves of it. */
  ghost function Changed(l: Live, s: Session, e: Event): Session
    requires IsLive(l.sessions, s.id)
  {
    match e.act
    case Do(id, deed) => if id == s.id then Done(s, l.ladder, deed, e.at) else s
    case Project(id, within, staffed) =>
      if id == s.id
      then s.Within(within).Shown(Projected(l, At(l.sessions, s.id), within, staffed, e.at))
      else s
    case NothingIsCarried => s.(seenByTheServer := Lost)
    case _ => s
  }

  lemma {:induction false} FoundAmong(sessions: seq<Session>, s: Session)
    requires SeatsApart(sessions) && s in sessions
    ensures IsLive(sessions, s.id) && Held(sessions, s.id) == s
  {
    var k :| 0 <= k < |sessions| && sessions[k] == s;
    FoundWhereItIs(sessions, k);
  }

  lemma {:induction false} AlongARemoval(sessions: seq<Session>, k: nat, id: SessionId)
    requires SeatsApart(sessions) && k < |sessions|
    ensures IsLive(Removed(sessions, k), id) <==> IsLive(sessions, id) && id != sessions[k].id
    ensures IsLive(Removed(sessions, k), id) ==> Held(Removed(sessions, k), id) == Held(sessions, id)
  {
    RemovedApart(sessions, k);
    RemovedHolds(sessions, k);
    var r := Removed(sessions, k);
    if IsLive(r, id) {
      assert Held(r, id) in r;
      FoundAmong(sessions, Held(r, id));
    }
    if IsLive(sessions, id) && id != sessions[k].id {
      var i := At(sessions, id);
      assert i != k && sessions[i] in r;
      FoundAmong(r, sessions[i]);
    }
  }

  lemma {:induction false} AlongASeating(others: seq<Session>, s: Session, id: SessionId)
    requires id != s.id
    ensures IsLive(others + [s], id) <==> IsLive(others, id)
    ensures IsLive(others, id) ==> Held(others + [s], id) == Held(others, id)
  {
    if others != [] {
      assert (others + [s])[1..] == others[1..] + [s];
      AlongASeating(others[1..], s, id);
    }
  }

  lemma {:induction false} AlongAnAssume(l: Live, minted: set<SessionId>, a: Assuming, new_: SessionId, now: Instant,
      id: SessionId)
    requires Coherent(l, minted) && new_ !in minted && id in minted
    ensures
      var after := AfterAssume(l, a, new_, now).sessions;
      && (IsLive(after, id) <==>
            IsLive(l.sessions, id) && (IsFull(l.sessions, a) || Held(l.sessions, id).occupant != a.occupant))
      && (IsLive(after, id) ==> Held(after, id) == Held(l.sessions, id))
  {
    if !IsFull(l.sessions, a) {
      var held := SeatOf(l.sessions, a.occupant);
      if held < |l.sessions| {
        AlongARemoval(l.sessions, held, id);
        AlongASeating(Removed(l.sessions, held), Seated(a, new_, now), id);
        if IsLive(l.sessions, id) { FoundWhereItIs(l.sessions, At(l.sessions, id)); }
      } else {
        AlongASeating(l.sessions, Seated(a, new_, now), id);
      }
    }
  }

  /** One event seen from one session: it survives exactly the events that do not end it, and
      is left exactly as `Changed` says. */
  lemma {:induction false} OneSessionAlong(l: Live, minted: set<SessionId>, e: Event, id: SessionId)
    requires Coherent(l, minted) && id in minted
    requires e.act.Assume? ==> e.act.minted !in minted
    ensures IsLive(Step(l, e).sessions, id) <==> IsLive(l.sessions, id) && !Ends(l, Held(l.sessions, id), e)
    ensures IsLive(Step(l, e).sessions, id) ==>
      Held(Step(l, e).sessions, id) == Changed(l, Held(l.sessions, id), e)
  {
    if e.act.Assume? {
      AlongAnAssume(l, minted, e.act.assuming, e.act.minted, e.at, id);
    } else if e.act.EndedByItsOwnHolder? {
      if IsLive(l.sessions, e.act.ending) { AlongARemoval(l.sessions, At(l.sessions, e.act.ending), id); }
    } else if IsLive(l.sessions, id) {
      InPlace(l, e, id);
    } else {
      SeatsStand(l, e);
      SameSeats(l.sessions, Step(l, e).sessions, id);
    }
  }

  lemma {:induction false} InPlace(l: Live, e: Event, id: SessionId)
    requires !e.act.Assume? && !e.act.EndedByItsOwnHolder?
    requires IsLive(l.sessions, id)
    ensures IsLive(Step(l, e).sessions, id)
    ensures Held(Step(l, e).sessions, id) == Changed(l, Held(l.sessions, id), e)
  {
    SeatsStand(l, e);
    SameSeats(l.sessions, Step(l, e).sessions, id);
  }

  // ---- Along a whole run ------------------------------------------------------------------

  lemma {:induction false} PrefixLegal(h: History, n: nat)
    requires Legal(h) && n <= |h|
    ensures Legal(h[..n])
  {
    if n < |h| {
      assert Before(h)[..n] == h[..n];
      PrefixLegal(Before(h), n);
    } else {
      assert h[..n] == h;
    }
  }

  /** A run one event longer. */
  lemma {:induction false} PrefixStep(ladder: Ladder, h: History, n: nat)
    requires Legal(h) && n < |h|
    ensures Legal(h[..n]) && Legal(h[..n + 1]) && MayFollow(h[..n], h[n])
    ensures After(ladder, h[..n + 1]) == Step(After(ladder, h[..n]), h[n])
    ensures MintedIn(h[..n + 1]) == MintedIn(h[..n]) + if h[n].act.Assume? then {h[n].act.minted} else {}
  {
    PrefixLegal(h, n + 1);
    assert h[..n + 1] == h[..n] + [h[n]];
    OneMore(ladder, h[..n], h[n]);
  }

  /** An id minted stays minted, so a session that has ended never comes back. */
  lemma {:induction false} MintedStays(ladder: Ladder, h: History, n: nat, m: nat, id: SessionId)
    requires Legal(h) && n <= m <= |h|
    ensures MintedIn(h[..n]) <= MintedIn(h[..m])
    ensures id in MintedIn(h[..n]) && IsLive(After(ladder, h[..m]).sessions, id)
        ==> IsLive(After(ladder, h[..n]).sessions, id)
    decreases m
  {
    hide Step;
    if n < m {
      MintedStays(ladder, h, n, m - 1, id);
      PrefixStep(ladder, h, m - 1);
      if id in MintedIn(h[..n]) {
        EveryRunIsCoherent(ladder, h[..m - 1]);
        OneSessionAlong(After(ladder, h[..m - 1]), MintedIn(h[..m - 1]), h[m - 1], id);
      }
    }
  }

  lemma {:induction false} LiveIsMinted(ladder: Ladder, h: History, id: SessionId)
    requires Legal(h) && IsLive(After(ladder, h).sessions, id)
    ensures id in MintedIn(h)
  {
    EveryRunIsCoherent(ladder, h);
    assert Held(After(ladder, h).sessions, id) in After(ladder, h).sessions;
  }
}
