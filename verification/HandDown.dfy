/** Handing the two answers down to the media plane, which executes them and keeps no opinion of
    its own (`src/transport/signalling.rs`, `src/media_plane/mod.rs`). */
module HandDown {
  import opened Basics
  import opened Names
  import opened Deployment
  import opened LiveState
  import opened Invariants
  import opened Authority
  import opened FanOuts

  type Carriages = map<SessionId, seq<LoopId>>

  function Counted(carriages: Carriages, counting: seq<WhoCounts>): Carriages {
    if counting == [] then carriages
    else
      var last := counting[|counting| - 1];
      Counted(carriages, counting[..|counting| - 1])[last.listener := last.on]
  }

  /** Which beacons the media plane has been told to carry to whom by the end of a run. */
  ghost function Carrying(ladder: Ladder, h: History): Carriages {
    if h == [] then map[]
    else
      var answer := Told(After(ladder, Before(h)), Latest(h));
      if answer.Beacons? && answer.counted.Some? then Counted(Carrying(ladder, Before(h)), answer.counted.value)
      else Carrying(ladder, Before(h))
  }

  ghost predicate CarriesAsTold(carriages: Carriages, counting: seq<WhoCounts>) {
    forall i :: 0 <= i < |counting| ==>
      counting[i].listener in carriages && carriages[counting[i].listener] == counting[i].on
  }

  lemma {:induction false} CountedExactly(carriages: Carriages, counting: seq<WhoCounts>)
    requires forall i, j :: 0 <= i < j < |counting| ==> counting[i].listener != counting[j].listener
    ensures CarriesAsTold(Counted(carriages, counting), counting)
  {
    if counting != [] { CountedExactly(carriages, counting[..|counting| - 1]); }
  }

  lemma {:induction false} OnlyTakingMovesTheBeacons(l: Live, e: Event)
    ensures !e.act.TakeTheBeacons? ==> Step(l, e).lastBeacons == l.lastBeacons && !Told(l, e).Beacons?
    ensures e.act.TakeTheBeacons? ==>
      && Step(l, e).lastBeacons == Some(BeaconCarriage(l))
      && Told(l, e) == Beacons(if l.lastBeacons == Some(BeaconCarriage(l)) then None else Some(BeaconCarriage(l)))
  {
  }

  lemma {:induction false} ListenersApart(l: Live)
    requires SeatsApart(l.sessions)
    ensures forall i, j ::
      0 <= i < j < |BeaconCarriage(l)| ==> BeaconCarriage(l)[i].listener != BeaconCarriage(l)[j].listener
  {
  }

  lemma {:induction false} TheBeaconsAgree(ladder: Ladder, h: History)
    requires Legal(h)
    ensures After(ladder, h).lastBeacons.Some? ==>
      CarriesAsTold(Carrying(ladder, h), After(ladder, h).lastBeacons.value)
  {
    if h != [] {
      hide Step, Told, BeaconCarriage;
      var l, e := After(ladder, Before(h)), Latest(h);
      TheBeaconsAgree(ladder, Before(h));
      EveryRunIsCoherent(ladder, Before(h));
      OnlyTakingMovesTheBeacons(l, e);
      ListenersApart(l);
      CountedExactly(Carrying(ladder, Before(h)), BeaconCarriage(l));
    }
  }

  /** After every hand-down each live listener is carried exactly the beacons of what they monitor
      within reach, and an answer is given exactly when that differs from the last one. */
  lemma {:induction false} WhatIsCarriedIsWhatIsMonitored(ladder: Ladder, h: History, now: Instant)
    requires Legal(h) && Clock(h) <= now
    ensures
      var l, take := After(ladder, h), Event(TakeTheBeacons, now);
      && (forall s :: s in l.sessions ==>
            && s.id in Carrying(ladder, h + [take])
            && Carrying(ladder, h + [take])[s.id] == MonitoredOf(s, s.subscriptions))
      && (Told(l, take) == Beacons(None) <==> l.lastBeacons == Some(BeaconCarriage(l)))
      && (Told(l, take) != Beacons(None) ==> Told(l, take) == Beacons(Some(BeaconCarriage(l))))
      && After(ladder, h + [take]).sessions == l.sessions
  {
    hide After, Carrying, MonitoredOf;
    var l, take := After(ladder, h), Event(TakeTheBeacons, now);
    OneMore(ladder, h, take);
    TheBeaconsAgree(ladder, h + [take]);
    forall s | s in l.sessions
      ensures s.id in Carrying(ladder, h + [take])
      ensures Carrying(ladder, h + [take])[s.id] == MonitoredOf(s, s.subscriptions)
    {
      var i :| 0 <= i < |l.sessions| && l.sessions[i] == s;
      assert BeaconCarriage(l)[i] == WhoCounts(s.id, MonitoredOf(s, s.subscriptions));
    }
  }

  lemma {:induction false} OneMoreTold(ladder: Ladder, h: History, e: Event)
    ensures
      var answer := Told(After(ladder, h), e);
      && Executing(ladder, h + [e])
           == (if answer.Routing? && answer.moved.Some?
               then Executed(Executing(ladder, h), answer.moved.value) else Executing(ladder, h))
      && Carrying(ladder, h + [e])
           == (if answer.Beacons? && answer.counted.Some?
               then Counted(Carrying(ladder, h), answer.counted.value) else Carrying(ladder, h))
  {
    assert Before(h + [e]) == h && Latest(h + [e]) == e;
  }

  class MediaPlane {
    var audiences: Audiences
    var carriages: Carriages

    constructor ()
      ensures audiences == map[] && carriages == map[]
    {
      audiences, carriages := map[], map[];
    }

    /** What it is executing is what the authority has told it, and nothing besides. */
    ghost predicate Follows(state: StateAuthority)
      reads this, state
    {
      && audiences == Executing(state.ladder, state.history)
      && carriages == Carrying(state.ladder, state.history)
    }

    method TheseShouldHear(talker: SessionId, audience: seq<Heard>)
      modifies this`audiences
      ensures audiences == old(audiences)[talker := audience]
    {
      audiences := audiences[talker := audience];
    }

    method TheseBeaconsReach(listener: SessionId, on: seq<LoopId>)
      modifies this`carriages
      ensures carriages == old(carriages)[listener := on]
    {
      carriages := carriages[listener := on];
    }

    /** One whole audience to a talker, in the order they are given. */
    method TheseAllHear(routing: seq<WhoHears>)
      modifies this`audiences
      ensures audiences == Executed(old(audiences), routing)
    {
      ghost var before := audiences;
      for i := 0 to |routing|
        modifies this`audiences
        invariant audiences == Executed(before, routing[..i])
      {
        assert routing[..i + 1][..i] == routing[..i];
        TheseShouldHear(routing[i].talker, routing[i].listeners);
      }
      assert routing[..|routing|] == routing;
    }

    /** One whole set of beacons to a listener, in the order they are given. */
    method TheseAllCount(counting: seq<WhoCounts>)
      modifies this`carriages
      ensures carriages == Counted(old(carriages), counting)
    {
      ghost var before := carriages;
      for i := 0 to |counting|
        modifies this`carriages
        invariant carriages == Counted(before, counting[..i])
      {
        assert counting[..i + 1][..i] == counting[..i];
        TheseBeaconsReach(counting[i].listener, counting[i].on);
      }
      assert counting[..|counting|] == counting;
    }
  }

  /** The answer given of the routing, as the media plane is left by it. */
  lemma {:induction false} ToldTheRouting(ladder: Ladder, h: History, now: Instant, moved: Option<seq<WhoHears>>)
    requires Legal(h) && Clock(h) <= now
    requires Routing(moved) == Told(After(ladder, h), Event(TakeTheRouting, now))
    ensures MayFollow(h, Event(TakeTheRouting, now))
    ensures
      var l, after := After(ladder, h), Executing(ladder, h + [Event(TakeTheRouting, now)]);
      && after == (if moved.Some? then Executed(Executing(ladder, h), moved.value) else Executing(ladder, h))
      && Carrying(ladder, h + [Event(TakeTheRouting, now)]) == Carrying(ladder, h)
      && forall s :: s in l.sessions ==> s.id in after && after[s.id] == Audience(l, s, now)
  {
    hide Legal, After, Step, Told, Executing, Carrying, Audience, FanOut;
    OneMoreTold(ladder, h, Event(TakeTheRouting, now));
    WhatIsExecutedIsTheFanOut(ladder, h, now);
  }

  lemma {:induction false} ToldTheBeacons(ladder: Ladder, h: History, now: Instant, moved: Option<seq<WhoCounts>>)
    requires Legal(h) && Clock(h) <= now
    requires Beacons(moved) == Told(After(ladder, h), Event(TakeTheBeacons, now))
    ensures MayFollow(h, Event(TakeTheBeacons, now))
    ensures
      var l, after := After(ladder, h), Carrying(ladder, h + [Event(TakeTheBeacons, now)]);
      && after == (if moved.Some? then Counted(Carrying(ladder, h), moved.value) else Carrying(ladder, h))
      && Executing(ladder, h + [Event(TakeTheBeacons, now)]) == Executing(ladder, h)
      && forall s :: s in l.sessions ==> s.id in after && after[s.id] == MonitoredOf(s, s.subscriptions)
  {
    hide Legal, After, Step, Told, Executing, Carrying, MonitoredOf, BeaconCarriage;
    OneMoreTold(ladder, h, Event(TakeTheBeacons, now));
    WhatIsCarriedIsWhatIsMonitored(ladder, h, now);
  }

  lemma {:induction false} TakingMovesNoSession(l: Live, now: Instant)
    ensures Step(l, Event(TakeTheRouting, now)).sessions == l.sessions
    ensures Step(l, Event(TakeTheBeacons, now)).sessions == l.sessions
  {
    hide FanOut, BeaconCarriage;
  }

  /** The routing carried down where it has moved: one whole audience to a talker. */
  method HandDownTheRouting(state: StateAuthority, media: MediaPlane, now: Instant)
    requires state.LeftByARun() && media.Follows(state) && Clock(state.history) <= now
    modifies state, media`audiences
    ensures state.history == old(state.history) + [Event(TakeTheRouting, now)]
    ensures state.LeftByARun() && media.Follows(state)
    ensures state.sessions == old(state.sessions)
    ensures forall s :: s in state.sessions ==>
      s.id in media.audiences && media.audiences[s.id] == Audience(old(state.Snapshot()), s, now)
  {
    hide Legal, After, Step, Told, Executing, Carrying, Audience, MayFollow, Clock;
    ghost var h, l := state.history, state.Snapshot();
    var moved := state.TheRoutingIfItMoved(now);
    ToldTheRouting(state.ladder, h, now, moved);
    TakingMovesNoSession(l, now);
    state.StaysLeftByARun(Event(TakeTheRouting, now));
    if moved.Some? {
      media.TheseAllHear(moved.value);
    }
  }

  /** And who counts each beacon, the same way. */
  method HandDownTheBeacons(state: StateAuthority, media: MediaPlane, now: Instant)
    requires state.LeftByARun() && media.Follows(state) && Clock(state.history) <= now
    modifies state, media`carriages
    ensures state.history == old(state.history) + [Event(TakeTheBeacons, now)]
    ensures state.LeftByARun() && media.Follows(state)
    ensures state.sessions == old(state.sessions)
    ensures forall s :: s in state.sessions ==>
      s.id in media.carriages && media.carriages[s.id] == MonitoredOf(s, s.subscriptions)
  {
    hide Legal, After, Step, Told, Executing, Carrying, MonitoredOf, MayFollow, Clock;
    ghost var h, l := state.history, state.Snapshot();
    var moved := state.TheBeaconsIfTheyMoved(now);
    ToldTheBeacons(state.ladder, h, now, moved);
    TakingMovesNoSession(l, now);
    state.StaysLeftByARun(Event(TakeTheBeacons, now));
    if moved.Some? {
      media.TheseAllCount(moved.value);
    }
  }
}
