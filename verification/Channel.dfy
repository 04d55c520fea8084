/** The arithmetic of the signalling ladder: what every ladder the check accepts guarantees of
    the rungs, and what it does not guarantee of the reading beside them. */
module Channel {
  import opened Basics
  import opened Names
  import opened Deployment
  import opened Sessions
  import opened LiveState
  import opened Invariants
  import opened Runs
  import opened Health

  // ---- The rungs --------------------------------------------------------------------------

  /** Each rung's place on the clock: the three are adjoining bands, none of them empty, and
      between them they are every instant from the last answer on. */
  lemma {:induction false} EveryRungIsReachable(s: Session, ladder: Ladder, now: Instant)
    requires ladder.Accepted() && !s.channelIsGone && now >= s.heardFrom
    ensures
      var gap := now - s.heardFrom;
      && 0 < ladder.unconfirmed * SECOND < ladder.disconnected * SECOND
      && (s.ConnectionAt(ladder, now) == Confirmed <==> gap < ladder.unconfirmed * SECOND)
      && (s.ConnectionAt(ladder, now) == Unconfirmed
          <==> ladder.unconfirmed * SECOND <= gap < ladder.disconnected * SECOND)
      && (s.ConnectionAt(ladder, now) == Disconnected <==> ladder.disconnected * SECOND <= gap)
  {
    AcceptedExactly(ladder);
  }

  /** While nothing is heard the rung only climbs. */
  lemma {:induction false} SilenceOnlyClimbs(s: Session, ladder: Ladder, earlier: Instant, later: Instant)
    requires earlier <= later
    ensures s.ConnectionAt(ladder, earlier).Rung() <= s.ConnectionAt(ladder, later).Rung()
  {
  }

  /** A latch dropped when its grace runs out is dropped while the session is Unconfirmed and
      so strictly before emission is withdrawn altogether. */
  lemma {:induction false} ALatchIsDroppedFirst(s: Session, ladder: Ladder, now: Instant)
    requires ladder.Accepted() && !s.channelIsGone
    requires now == s.heardFrom + (ladder.unconfirmed + ladder.latchDropped) * SECOND
    ensures s.ConnectionAt(ladder, now) == Unconfirmed
    ensures forall at :: s.heardFrom <= at && s.ConnectionAt(ladder, at) == Disconnected ==> now < at
  {
    AcceptedExactly(ladder);
  }

  // ---- A channel that is kept up ------------------------------------------------------------

  ghost predicate Hears(e: Event, id: SessionId) {
    e.act == Do(id, AnswerTheHeartbeat)
  }

  /** When this session was last heard from: the assume that minted it, or its last answer. */
  ghost function LastHeard(ladder: Ladder, h: History, id: SessionId): Option<Instant> {
    if h == [] then None
    else
      var l, e := After(ladder, Before(h)), Latest(h);
      if e.act.Assume? && e.act.minted == id then (if IsFull(l.sessions, e.act.assuming) then None else Some(e.at))
      else if !IsLive(l.sessions, id) || Ends(l, Held(l.sessions, id), e) then None
      else if Hears(e, id) then Some(e.at)
      else LastHeard(ladder, Before(h), id)
  }

  lemma {:induction false} DeedHears(s: Session, ladder: Ladder, deed: Deed, now: Instant)
    ensures Done(s, ladder, deed, now).heardFrom == if deed.AnswerTheHeartbeat? then now else s.heardFrom
  {
  }

  lemma {:induction false} ChangeHears(l: Live, s: Session, e: Event)
    requires IsLive(l.sessions, s.id)
    ensures Changed(l, s, e).heardFrom == if Hears(e, s.id) then e.at else s.heardFrom
  {
    if e.act.Do? && e.act.session == s.id { DeedHears(s, l.ladder, e.act.deed, e.at); }
  }

  lemma {:induction false} HeardFromIsLastHeard(ladder: Ladder, h: History, id: SessionId)
    requires Legal(h)
    ensures IsLive(After(ladder, h).sessions, id) ==>
      LastHeard(ladder, h, id) == Some(Held(After(ladder, h).sessions, id).heardFrom)
    ensures !IsLive(After(ladder, h).sessions, id) ==> LastHeard(ladder, h, id).None?
  {
    if h != [] {
      hide Step;
      var l, e, before := After(ladder, Before(h)), Latest(h), Before(h);
      HeardFromIsLastHeard(ladder, before, id);
      EveryRunIsCoherent(ladder, before);
      if e.act.Assume? && e.act.minted == id {
        NewcomerIsHeard(ladder, before, e);
      } else if id in MintedIn(before) {
        OneSessionAlong(l, MintedIn(before), e, id);
        if IsLive(l.sessions, id) { ChangeHears(l, Held(l.sessions, id), e); }
      } else {
        NeverMinted(ladder, before, id);
        NeverMinted(ladder, h, id);
      }
    }
  }

  lemma {:induction false} NewcomerIsHeard(ladder: Ladder, before: History, e: Event)
    requires Legal(before) && e.act.Assume? && MayFollow(before, e)
    ensures
      var l, id := After(ladder, before), e.act.minted;
      && (IsFull(l.sessions, e.act.assuming) <==> !IsLive(Step(l, e).sessions, id))
      && (IsLive(Step(l, e).sessions, id) ==>
        Held(Step(l, e).sessions, id).heardFrom == e.at && !Held(Step(l, e).sessions, id).channelIsGone)
  {
    var l, id := After(ladder, before), e.act.minted;
    EveryRunIsCoherent(ladder, before);
    if IsFull(l.sessions, e.act.assuming) {
      NeverMinted(ladder, before, id);
    } else {
      WhoIsSeated(l, MintedIn(before), e.act.assuming, id, e.at);
    }
  }

  /** Whether this session's channel is known to have gone, with nothing heard from it since. */
  ghost predicate KnownGone(ladder: Ladder, h: History, id: SessionId) {
    if h == [] then false
    else
      var l, e := After(ladder, Before(h)), Latest(h);
      if e.act.Assume? && e.act.minted == id then false
      else if !IsLive(l.sessions, id) || Ends(l, Held(l.sessions, id), e) then false
      else if Hears(e, id) then false
      else e.act == Do(id, LoseTheChannel) || KnownGone(ladder, Before(h), id)
  }

  lemma {:induction false} DeedOnTheChannel(s: Session, ladder: Ladder, deed: Deed, now: Instant)
    ensures Done(s, ladder, deed, now).channelIsGone
         == if deed.AnswerTheHeartbeat? then false else deed.LoseTheChannel? || s.channelIsGone
  {
  }

  lemma {:induction false} ChangeOnTheChannel(l: Live, s: Session, e: Event)
    requires IsLive(l.sessions, s.id)
    ensures Changed(l, s, e).channelIsGone
         == if Hears(e, s.id) then false else e.act == Do(s.id, LoseTheChannel) || s.channelIsGone
  {
    hide Done, Projected;
    if e.act.Do? && e.act.session == s.id { DeedOnTheChannel(s, l.ladder, e.act.deed, e.at); }
  }

  lemma {:induction false} GoneIsKnownGone(ladder: Ladder, h: History, id: SessionId)
    requires Legal(h) && IsLive(After(ladder, h).sessions, id)
    ensures Held(After(ladder, h).sessions, id).channelIsGone == KnownGone(ladder, h, id)
  {
    if h != [] {
      hide Step, Changed, Ends, Hears;
      var l, e, before := After(ladder, Before(h)), Latest(h), Before(h);
      EveryRunIsCoherent(ladder, before);
      if e.act.Assume? && e.act.minted == id {
        NewcomerIsHeard(ladder, before, e);
      } else if id in MintedIn(before) {
        OneSessionAlong(l, MintedIn(before), e, id);
        GoneIsKnownGone(ladder, before, id);
        ChangeOnTheChannel(l, Held(l.sessions, id), e);
      } else {
        NeverMinted(ladder, h, id);
      }
    }
  }

  /** Over any run a session's rung is read off two facts of that run: it is Disconnected while
      its channel is known to have gone, and is otherwise placed by how long it is since it was
      last heard from. A session answering with gaps under the first threshold therefore never
      leaves Confirmed. */
  lemma {:induction false} TheRungIsWhatWasHeard(ladder: Ladder, h: History, id: SessionId, now: Instant)
    requires Legal(h) && Clock(h) <= now && ladder.Accepted() && IsLive(After(ladder, h).sessions, id)
    ensures LastHeard(ladder, h, id).Some?
    ensures
      var gap := Since(now, LastHeard(ladder, h, id).value);
      Held(After(ladder, h).sessions, id).ConnectionAt(ladder, now)
        == if KnownGone(ladder, h, id) then Disconnected
           else if gap < ladder.unconfirmed * SECOND then Confirmed
           else if gap < ladder.disconnected * SECOND then Unconfirmed
           else Disconnected
  {
    hide Step, After, Legal, KnownGone, LastHeard;
    AcceptedExactly(ladder);
    HeardFromIsLastHeard(ladder, h, id);
    GoneIsKnownGone(ladder, h, id);
  }

  // ---- Silence is one failure, not two ------------------------------------------------------

  /** A session whose channel fell silent when its beacons were current: the last one counted,
      or the measurement's beginning, is at most one interval older than the last answer. */
  ghost predicate CurrentWhenSilent(s: Session, on: LoopId) {
    var counting := BeaconFor(s.beacons, on);
    counting.Some? ==>
      var latest := if counting.value.arrived.Some? then counting.value.arrived.value else counting.value.since;
      latest + THE_BEACON_SOUNDS_EVERY >= s.heardFrom
  }

  /** However this ladder's silences fall in any run, none is ever read as a lost beacon. */
  ghost predicate SilenceIsNeverDeafness(ladder: Ladder) {
    forall h: History, id: SessionId, on: LoopId, now: Instant ::
      Legal(h) && Clock(h) <= now && IsLive(After(ladder, h).sessions, id)
      && CurrentWhenSilent(Held(After(ladder, h).sessions, id), on)
      && Held(After(ladder, h).sessions, id).heardFrom <= now
      ==> Held(After(ladder, h).sessions, id).HealthOf(on, ladder, now) != Some(LoopHealth.NotReceiving)
  }

  lemma {:induction false} CurrentIsNeverLost(s: Session, on: LoopId, ladder: Ladder, now: Instant)
    requires ladder.unconfirmed * SECOND + THE_BEACON_SOUNDS_EVERY <= A_BEACON_IS_LOST_AFTER
    requires CurrentWhenSilent(s, on) && s.heardFrom <= now
    ensures s.HealthOf(on, ladder, now) != Some(LoopHealth.NotReceiving)
  {
  }

  // A run that falls silent: the loop taken up and counted once at the start, one answer an
  // interval later, and nothing more.

  const FLIGHT := LoopId("FLIGHT")
  const ITS_SESSION := SessionId("")

  function Silent(): History {
    [Event(Assume(Assuming(SignInToken(""), UserId(""), RoleId(""), None, [FLIGHT], []), ITS_SESSION), 0),
     Event(Project(ITS_SESSION, [InReach(FLIGHT, "", Monitor)], []), 0),
     Event(Do(ITS_SESSION, CountBeacons([Total(FLIGHT, 1)])), 0),
     Event(Do(ITS_SESSION, AnswerTheHeartbeat), THE_BEACON_SOUNDS_EVERY)]
  }

  lemma {:induction false} SilentPrefixes()
    ensures Silent()[..0] == [] && Silent()[..4] == Silent()
    ensures forall n :: 0 <= n < 4 ==> Silent()[..n + 1] == Silent()[..n] + [Silent()[n]]
  {
  }

  lemma {:induction false} NothingIsLegal()
    ensures Legal([])
  {
  }

  lemma {:induction false} OneMoreLegal(h: History, e: Event)
    requires Legal(h) && MayFollow(h, e)
    ensures Legal(h + [e]) && Clock(h + [e]) == e.at
    ensures MintedIn(h + [e]) == MintedIn(h) + if e.act.Assume? then {e.act.minted} else {}
  {
    assert Before(h + [e]) == h && Latest(h + [e]) == e;
  }

  lemma {:induction false} SilentSoFar(n: nat)
    requires n <= 4
    ensures Legal(Silent()[..n]) && Clock(Silent()[..n]) <= THE_BEACON_SOUNDS_EVERY
    ensures n < 4 ==> Clock(Silent()[..n]) == 0
    ensures n > 0 ==> ITS_SESSION in MintedIn(Silent()[..n])
    ensures n == 0 ==> MintedIn(Silent()[..n]) == {}
  {
    hide Legal;
    SilentPrefixes();
    if n > 0 {
      SilentSoFar(n - 1);
      var before, e := Silent()[..n - 1], Silent()[n - 1];
      assert LoopsSet([]) == [];
      OneMoreLegal(before, e);
    } else {
      assert Legal([]) by { NothingIsLegal(); }
    }
  }

  lemma {:induction false} SilentIsLegal()
    ensures Legal(Silent())
    ensures forall n :: 0 <= n <= 4 ==> Legal(Silent()[..n]) && (n > 0 ==> ITS_SESSION in MintedIn(Silent()[..n]))
  {
    hide Legal;
    SilentPrefixes();
    forall n | 0 <= n <= 4
      ensures Legal(Silent()[..n]) && (n > 0 ==> ITS_SESSION in MintedIn(Silent()[..n]))
    {
      SilentSoFar(n);
    }
  }

  lemma {:induction false} SilentOneOn(ladder: Ladder, n: nat)
    requires 1 <= n < 4 && IsLive(After(ladder, Silent()[..n]).sessions, ITS_SESSION)
    ensures IsLive(After(ladder, Silent()[..n + 1]).sessions, ITS_SESSION)
    ensures Held(After(ladder, Silent()[..n + 1]).sessions, ITS_SESSION)
         == Changed(After(ladder, Silent()[..n]), Held(After(ladder, Silent()[..n]).sessions, ITS_SESSION), Silent()[n])
    ensures After(ladder, Silent()[..n]).ladder == ladder
  {
    hide Step, After, Legal, Changed;
    SilentIsLegal();
    PrefixStep(ladder, Silent(), n);
    EveryRunIsCoherent(ladder, Silent()[..n]);
    LadderStands(ladder, Silent()[..n]);
    OneSessionAlong(After(ladder, Silent()[..n]), MintedIn(Silent()[..n]), Silent()[n], ITS_SESSION);
  }

  lemma {:induction false} SilentStarts(ladder: Ladder)
    ensures IsLive(After(ladder, Silent()[..1]).sessions, ITS_SESSION)
    ensures Held(After(ladder, Silent()[..1]).sessions, ITS_SESSION) == Seated(Silent()[0].act.assuming, ITS_SESSION, 0)
  {
    assert Silent()[..1] == [] + [Silent()[0]];
    OneMore(ladder, [], Silent()[0]);
  }

  /** What health is read off. */
  ghost predicate ReadsAs(s: Session, reach: seq<InReach>, counting: Counting, heardFrom: Instant) {
    && s.id == ITS_SESSION && s.subscriptions == [FLIGHT] && s.reach == reach && s.beacons == [counting]
    && s.heardFrom == heardFrom && !s.channelIsGone
  }

  lemma {:induction false} SilentProjected(l: Live, s: Session)
    requires IsLive(l.sessions, s.id) && ReadsAs(s, [], Counting.Starting(FLIGHT, 0), 0)
    ensures ReadsAs(Changed(l, s, Silent()[1]), [InReach(FLIGHT, "", Monitor)], Counting.Starting(FLIGHT, 0), 0)
  {
    hide Projected;
  }

  lemma {:induction false} SilentCounted(l: Live, s: Session, reach: seq<InReach>)
    requires IsLive(l.sessions, s.id) && ReadsAs(s, reach, Counting.Starting(FLIGHT, 0), 0)
    ensures ReadsAs(Changed(l, s, Silent()[2]), reach, Counting(FLIGHT, 1, Some(0), 0), 0)
  {
    var totals := [Total(FLIGHT, 1)];
    assert CountAll(s.beacons, totals[..0], 0) == s.beacons;
    assert CountAll(s.beacons, totals, 0) == CountOne(s.beacons, totals[0], 0);
  }

  lemma {:induction false} SilentAnswered(l: Live, s: Session, reach: seq<InReach>, counting: Counting)
    requires IsLive(l.sessions, s.id) && ReadsAs(s, reach, counting, 0)
    requires l.ladder.unconfirmed > 5 && l.ladder.disconnected > 5
    ensures ReadsAs(Changed(l, s, Silent()[3]), reach, counting, THE_BEACON_SOUNDS_EVERY)
  {
  }

  lemma {:induction false} SilentEnds(ladder: Ladder)
    requires ladder.unconfirmed > 5 && ladder.disconnected > 5
    ensures IsLive(After(ladder, Silent()).sessions, ITS_SESSION)
    ensures
      var its, reach := Held(After(ladder, Silent()).sessions, ITS_SESSION), [InReach(FLIGHT, "", Monitor)];
      ReadsAs(its, reach, Counting(FLIGHT, 1, Some(0), 0), THE_BEACON_SOUNDS_EVERY)
  {
    hide Step, After, Legal, Changed;
    var l1, l2, l3 := After(ladder, Silent()[..1]), After(ladder, Silent()[..2]), After(ladder, Silent()[..3]);
    SilentStarts(ladder);
    assert AllStarting([FLIGHT], 0) == [Counting.Starting(FLIGHT, 0)];
    SilentOneOn(ladder, 1);
    SilentProjected(l1, Held(l1.sessions, ITS_SESSION));
    SilentOneOn(ladder, 2);
    SilentCounted(l2, Held(l2.sessions, ITS_SESSION), [InReach(FLIGHT, "", Monitor)]);
    SilentOneOn(ladder, 3);
    SilentAnswered(l3, Held(l3.sessions, ITS_SESSION), [InReach(FLIGHT, "", Monitor)], Counting(FLIGHT, 1, Some(0), 0));
    assert Silent()[..4] == Silent();
  }

  /** The ceilings do not promise that connection state speaks first. A ladder the check accepts
      keeps every silence from being read as a lost beacon exactly when its first threshold and
      one beacon interval fit in the window. */
  lemma {:induction false} SilenceIsNeverDeafnessExactly(ladder: Ladder)
    requires ladder.Accepted()
    ensures SilenceIsNeverDeafness(ladder) <==>
      ladder.unconfirmed * SECOND + THE_BEACON_SOUNDS_EVERY <= A_BEACON_IS_LOST_AFTER
  {
    AcceptedExactly(ladder);
    if ladder.unconfirmed * SECOND + THE_BEACON_SOUNDS_EVERY <= A_BEACON_IS_LOST_AFTER {
      EverySilenceIsNoDeafness(ladder);
    } else {
      SomeSilenceIsDeafness(ladder);
    }
  }

  lemma {:induction false} EverySilenceIsNoDeafness(ladder: Ladder)
    requires ladder.unconfirmed * SECOND + THE_BEACON_SOUNDS_EVERY <= A_BEACON_IS_LOST_AFTER
    ensures SilenceIsNeverDeafness(ladder)
  {
    hide After, Legal;
    forall h: History, id: SessionId, on: LoopId, now: Instant |
      Legal(h) && Clock(h) <= now && IsLive(After(ladder, h).sessions, id)
      && CurrentWhenSilent(Held(After(ladder, h).sessions, id), on)
      && Held(After(ladder, h).sessions, id).heardFrom <= now
      ensures Held(After(ladder, h).sessions, id).HealthOf(on, ladder, now) != Some(LoopHealth.NotReceiving)
    {
      CurrentIsNeverLost(Held(After(ladder, h).sessions, id), on, ladder, now);
    }
  }

  lemma {:induction false} SomeSilenceIsDeafness(ladder: Ladder)
    requires ladder.unconfirmed < ladder.disconnected
    requires ladder.unconfirmed * SECOND + THE_BEACON_SOUNDS_EVERY > A_BEACON_IS_LOST_AFTER
    ensures !SilenceIsNeverDeafness(ladder)
  {
    hide After, Legal;
    SilentIsLegal();
    SilentEnds(ladder);
    var s, now := Held(After(ladder, Silent()).sessions, ITS_SESSION), A_BEACON_IS_LOST_AFTER;
    assert s.reach[0] in s.reach;
    assert BeaconFor(s.beacons, FLIGHT) == Some(s.beacons[0]);
    assert CurrentWhenSilent(s, FLIGHT);
    assert s.HealthOf(FLIGHT, ladder, now) == Some(LoopHealth.NotReceiving);
    assert Clock(Silent()) <= now;
  }

  /** The ladder a deployment that says nothing runs on is one of those that keep it; a ladder
      the check accepts need not be. */
  lemma {:induction false} TheDefaultKeepsItAndACeilingDoesNot()
    ensures THE_DEFAULT_LADDER.Accepted() && SilenceIsNeverDeafness(THE_DEFAULT_LADDER)
    ensures Ladder(2, 11, 2, 14).Accepted() && !SilenceIsNeverDeafness(Ladder(2, 11, 2, 14))
  {
    AcceptedExactly(THE_DEFAULT_LADDER);
    AcceptedExactly(Ladder(2, 11, 2, 14));
    SilenceIsNeverDeafnessExactly(THE_DEFAULT_LADDER);
    SilenceIsNeverDeafnessExactly(Ladder(2, 11, 2, 14));
  }
}
