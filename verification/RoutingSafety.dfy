/** Routing safety end to end: who is carried to whom, against what the grid holds now, over
    every interleaving of edits, seats taken and given up, checked acts and projections. */
module RoutingSafety {
  import opened Basics
  import opened Names
  import opened Deployment
  import opened Sessions
  import opened LiveState
  import opened Invariants
  import opened Runs
  import opened FanOuts
  import opened Tables
  import opened Grid
  import opened GridCoherence
  import opened Store
  import opened Authorisation
  import opened Signalling

  // ---- Which sessions have caught up with the grid --------------------------------------------

  /** The sessions that were live at the latest edit and have not been projected since. */
  ghost function Stale(ladder: Ladder, story: Story): set<SessionId> {
    if story == [] then {}
    else
      var w, turn := WorldAfter(ladder, Earlier(story)), Last(story);
      if turn.what.Edits? then set s | s in w.live.sessions :: s.id
      else if Projects(w, turn) then Stale(ladder, Earlier(story)) - {turn.what.shown}
      else Stale(ladder, Earlier(story))
  }

  /** The sessions that have been projected since the latest edit. */
  ghost function CaughtUp(ladder: Ladder, story: Story): set<SessionId> {
    if story == [] then {}
    else
      var w, turn := WorldAfter(ladder, Earlier(story)), Last(story);
      if turn.what.Edits? then {}
      else if Projects(w, turn) then CaughtUp(ladder, Earlier(story)) + {turn.what.shown}
      else CaughtUp(ladder, Earlier(story))
  }

  /** Everything this session may be routed on is something its role holds on the grid. */
  ghost predicate WithinTheGrid(t: Tables, s: Session) {
    && (forall on :: on in s.arms ==> HeldBy(t, s.role, on).Carries(Emit))
    && (forall within :: within in s.reach ==> HeldBy(t, s.role, within.id).Carries(Monitor))
  }

  ghost predicate SameGrid(t: Tables, u: Tables) {
    t.loops == u.loops && t.cells == u.cells && t.roles == u.roles
  }

  lemma {:induction false} OnlyEditsMoveTheGrid(w: World, turn: Turn)
    requires !turn.what.Edits?
    ensures SameGrid(w.tables, TablesAfter(w, turn))
  {
    hide Evaluate, AllThere, TheRoleOf;
  }

  lemma {:induction false} SameGridReadsTheSame(t: Tables, u: Tables)
    requires SameGrid(t, u)
    ensures forall role, on :: HeldBy(u, role, on) == HeldBy(t, role, on)
    ensures forall role, rung :: TheReachOf(u, role, rung) == TheReachOf(t, role, rung)
  {
    hide BaseOrder;
    forall role, rung ensures TheReachOf(u, role, rung) == TheReachOf(t, role, rung) {
      SameAmong(t, u, role, rung, BaseOrder(t.loops));
    }
  }

  lemma {:induction false} SameAmong(t: Tables, u: Tables, role: RoleId, rung: Permission, order: seq<LoopRow>)
    requires SameGrid(t, u)
    ensures ReachAmong(u, role, rung, order) == ReachAmong(t, role, rung, order)
  {
    if order != [] { SameAmong(t, u, role, rung, order[1..]); }
  }

  // ---- What a projection and a checked act do ---------------------------------------------------

  lemma {:induction false} WithinIsTheGrid(t: Tables, role: RoleId)
    requires StoreOk(t)
    ensures forall within :: within in WithinFor(t, role) ==>
      within.permission == HeldBy(t, role, within.id) && within.permission.Carries(Monitor)
    ensures forall on :: Reaches(WithinFor(t, role), on) <==> HeldBy(t, role, on).Carries(Monitor)
    ensures forall on :: EmitsOn(WithinFor(t, role), on) <==> HeldBy(t, role, on).Carries(Emit)
  {
    hide TheReachOf, StoreOk;
    ReachIsTheOrderFilteredByLookup(t, role, Monitor);
    var reach, within := TheReachOf(t, role, Monitor), WithinFor(t, role);
    forall w | w in within ensures w.permission == HeldBy(t, role, w.id) && w.permission.Carries(Monitor) {
      var i :| 0 <= i < |within| && within[i] == w;
      assert reach[i] in reach;
    }
    forall on | HeldBy(t, role, on).Carries(Monitor)
      ensures exists w :: w in within && w.id == on && w.permission == HeldBy(t, role, on)
    {
      var row := ALoop(t.loops, on).value;
      var r := Reachable(row, HeldBy(t, role, on));
      assert r in reach;
      var i :| 0 <= i < |reach| && reach[i] == r;
      assert within[i] in within;
    }
  }

  lemma {:induction false} ProjectedWithinTheGrid(t: Tables, s: Session, document: Presence)
    requires StoreOk(t)
    ensures WithinTheGrid(t, s.Within(WithinFor(t, s.role)).Shown(document))
  {
    hide WithinFor, HeldBy, StoreOk;
    WithinIsTheGrid(t, s.role);
  }

  lemma {:induction false} DoneWithinTheGrid(t: Tables, s: Session, ladder: Ladder, deed: Deed, now: Instant)
    requires WithinTheGrid(t, s)
    requires deed.Arm? ==> HeldBy(t, s.role, deed.armed).Carries(Emit)
    ensures WithinTheGrid(t, Done(s, ladder, deed, now))
  {
    hide HeldBy;
  }

  /** An arm that gets past its check is on a loop the session's own role may emit on now. */
  lemma {:induction false} AnArmIsChecked(w: World, turn: Turn, s: Session)
    requires SeatsApart(w.live.sessions) && s in w.live.sessions
    requires turn.what.Says? && turn.what.session == s.id && turn.what.deed.Arm? && Caused(w, turn).Some?
    ensures HeldBy(w.tables, s.role, turn.what.deed.armed).Carries(Emit)
  {
    hide HeldBy, Evaluate;
    var presented := InTheSeat(w.sockets[s.id], s.id);
    OnlyTheSeatSpeaks(Emit, turn.what.deed.armed, presented, w.tables, w.live.sessions);
    var other :| Occupying(other, w.live.sessions, presented, w.tables)
      && HeldBy(w.tables, other.role, turn.what.deed.armed).Carries(Emit);
    FoundAmong(w.live.sessions, s);
    FoundAmong(w.live.sessions, other);
  }

  lemma {:induction false} OnlySpeakingArms(w: World, turn: Turn, on: LoopId)
    requires turn.what.Otherwise? ==> NeedsNoMessage(turn.what.act)
    requires Caused(w, turn).Some? && Caused(w, turn).value.act.Do? && Caused(w, turn).value.act.deed == Arm(on)
    ensures turn.what.Says? && turn.what.deed == Arm(on) && turn.what.session == Caused(w, turn).value.act.session
  {
    hide Evaluate;
  }

  lemma {:induction false} OnlyShowingProjects(w: World, turn: Turn)
    requires turn.what.Otherwise? ==> NeedsNoMessage(turn.what.act)
    requires Caused(w, turn).Some? && Caused(w, turn).value.act.Project?
    ensures turn.what.IsShown? && turn.what.shown == Caused(w, turn).value.act.projected
    ensures IsLive(w.live.sessions, turn.what.shown)
    ensures Caused(w, turn).value.act.within == WithinFor(w.tables, Held(w.live.sessions, turn.what.shown).role)
  {
    hide Evaluate, WithinFor;
  }

  /** One turn from one session that stays: it stays within the grid unless the grid moved. */
  lemma {:induction false} OneSessionStaysWithin(w: World, minted: set<SessionId>, turn: Turn, s: Session)
    requires StoreOk(w.tables) && Coherent(w.live, minted) && s in w.live.sessions
    requires !turn.what.Edits? && (turn.what.Otherwise? ==> NeedsNoMessage(turn.what.act))
    requires Caused(w, turn).Some?
    requires WithinTheGrid(w.tables, s) || (Projects(w, turn) && turn.what.shown == s.id)
    ensures IsLive(w.live.sessions, s.id)
    ensures WithinTheGrid(w.tables, Changed(w.live, s, Caused(w, turn).value))
  {
    hide Caused, Done, WithinTheGrid, WithinFor, StoreOk, Projected, Told, Step;
    var e := Caused(w, turn).value;
    FoundAmong(w.live.sessions, s);
    if e.act.Do? && e.act.session == s.id {
      if e.act.deed.Arm? {
        OnlySpeakingArms(w, turn, e.act.deed.armed);
        AnArmIsChecked(w, turn, s);
      }
      DoneWithinTheGrid(w.tables, s, w.live.ladder, e.act.deed, e.at);
    } else if e.act.Project? {
      OnlyShowingProjects(w, turn);
      if e.act.projected == s.id {
        var document := Projected(w.live, At(w.live.sessions, s.id), e.act.within, e.act.staffed, e.at);
        ProjectedWithinTheGrid(w.tables, s, document);
      }
    } else {
      UntouchedWithin(w.tables, s, w.live, e);
    }
  }

  lemma {:induction false} UntouchedWithin(t: Tables, s: Session, l: Live, e: Event)
    requires WithinTheGrid(t, s) && IsLive(l.sessions, s.id)
    requires !e.act.Project? && !(e.act.Do? && e.act.session == s.id)
    ensures WithinTheGrid(t, Changed(l, s, e))
  {
    hide HeldBy;
  }

  // ---- Every story ------------------------------------------------------------------------------

  lemma {:induction false} ANewSeatIsBare(l: Live, minted: set<SessionId>, e: Event, s: Session)
    requires Coherent(l, minted) && e.act.Assume? && e.act.minted !in minted
    requires s in Step(l, e).sessions && s.id == e.act.minted
    ensures s.arms == [] && s.reach == []
  {
    if IsFull(l.sessions, e.act.assuming) {
      assert false;
    } else {
      var held := SeatOf(l.sessions, e.act.assuming.occupant);
      if held < |l.sessions| { RemovedHolds(l.sessions, held); }
    }
  }

  /** Where a session in the world after a turn came from. */
  lemma {:induction false} WhereItCameFrom(w: World, minted: set<SessionId>, e: Event, s: Session)
    requires Coherent(w.live, minted) && (e.act.Assume? ==> e.act.minted !in minted)
    requires Coherent(Step(w.live, e), minted + if e.act.Assume? then {e.act.minted} else {})
    requires s in Step(w.live, e).sessions
    ensures
      || (e.act.Assume? && s.id == e.act.minted && s.arms == [] && s.reach == [])
      || (IsLive(w.live.sessions, s.id) && Held(w.live.sessions, s.id) in w.live.sessions
          && s == Changed(w.live, Held(w.live.sessions, s.id), e) && s.id in minted)
  {
    hide Step, Changed, Ends;
    if s.id in minted {
      FoundAmong(Step(w.live, e).sessions, s);
      OneSessionAlong(w.live, minted, e, s.id);
    } else {
      ANewSeatIsBare(w.live, minted, e, s);
    }
  }

  lemma {:induction false} ACauseMayFollow(ladder: Ladder, story: Story)
    requires story != [] && Plausible(ladder, story)
    ensures
      var w, run := WorldAfter(ladder, Earlier(story)), LiveRun(ladder, Earlier(story));
      var caused := Caused(w, Last(story));
      && StoreOk(w.tables) && Coherent(w.live, MintedIn(run))
      && WorldAfter(ladder, story)
           == World(TablesAfter(w, Last(story)), LiveAfter(w.live, caused), SocketsAfter(w, Last(story)))
      && Coherent(WorldAfter(ladder, story).live, MintedIn(LiveRun(ladder, story)))
      && (caused.Some? && caused.value.act.Assume? ==> caused.value.act.minted !in MintedIn(run))
      && MintedIn(LiveRun(ladder, story))
           == MintedIn(run) + (if caused.Some? && caused.value.act.Assume? then {caused.value.act.minted} else {})
  {
    hide StoreOk, Caused, TablesAfter, Step, Coherent, NeverTouched;
    EveryStoryIsALegalRun(ladder, Earlier(story));
    EveryStoryIsALegalRun(ladder, story);
    var w, run := WorldAfter(ladder, Earlier(story)), LiveRun(ladder, Earlier(story));
    var caused := Caused(w, Last(story));
    ATurnMayFollow(ladder, Earlier(story), Last(story));
    if caused.Some? { OneMore(ladder, run, caused.value); }
  }

  /** Whoever has caught up with the latest edit, or sat down since, is within the grid; and
      whoever was projected since it has exactly their role's reach. */
  lemma {:induction false} CaughtUpMeansWithinTheGrid(ladder: Ladder, story: Story)
    requires Plausible(ladder, story)
    ensures
      var w := WorldAfter(ladder, story);
      && CaughtUp(ladder, story) <= MintedIn(LiveRun(ladder, story))
      && forall s :: s in w.live.sessions ==>
           && (s.id !in Stale(ladder, story) ==> WithinTheGrid(w.tables, s))
           && (s.id in CaughtUp(ladder, story) ==>
             s.reach == WithinFor(w.tables, s.role) && s.id !in Stale(ladder, story))
  {
    if story != [] {
      hide Caused, TablesAfter, WithinTheGrid, StoreOk, Coherent, WithinFor, NeverTouched, LiveAfter, Plausible;
      PlausibleEarlier(ladder, story);
      CaughtUpMeansWithinTheGrid(ladder, Earlier(story));
      ACauseMayFollow(ladder, story);
      var w := WorldAfter(ladder, story);
      forall s | s in w.live.sessions
        ensures s.id !in Stale(ladder, story) ==> WithinTheGrid(w.tables, s)
        ensures s.id in CaughtUp(ladder, story) ==>
          s.reach == WithinFor(w.tables, s.role) && s.id !in Stale(ladder, story)
      {
        OneTurnOn(ladder, story, s);
      }
      OnlyTheMintedCatchUp(ladder, story);
    }
  }

  lemma {:induction false} PlausibleEarlier(ladder: Ladder, story: Story)
    requires story != [] && Plausible(ladder, story)
    ensures Plausible(ladder, Earlier(story)) && MayPass(ladder, Earlier(story), Last(story))
    ensures Last(story).what.Otherwise? ==> NeedsNoMessage(Last(story).what.act)
  {
  }

  lemma {:induction false} OnlyTheMintedCatchUp(ladder: Ladder, story: Story)
    requires story != [] && Plausible(ladder, story)
    requires CaughtUp(ladder, Earlier(story)) <= MintedIn(LiveRun(ladder, Earlier(story)))
    ensures CaughtUp(ladder, story) <= MintedIn(LiveRun(ladder, story))
  {
    hide TablesAfter, StoreOk, WithinFor, NeverTouched, LiveAfter, Plausible, Evaluate;
    ACauseMayFollow(ladder, story);
    var w, turn := WorldAfter(ladder, Earlier(story)), Last(story);
    if Projects(w, turn) {
      OnlyShowingProjects(w, turn);
      assert Held(w.live.sessions, turn.what.shown) in w.live.sessions;
    }
  }

  lemma {:induction false} OneTurnOn(ladder: Ladder, story: Story, s: Session)
    requires story != [] && Plausible(ladder, story) && s in WorldAfter(ladder, story).live.sessions
    requires CaughtUp(ladder, Earlier(story)) <= MintedIn(LiveRun(ladder, Earlier(story)))
    requires forall t :: t in WorldAfter(ladder, Earlier(story)).live.sessions ==>
      && (t.id !in Stale(ladder, Earlier(story)) ==> WithinTheGrid(WorldAfter(ladder, Earlier(story)).tables, t))
      && (t.id in CaughtUp(ladder, Earlier(story)) ==>
            t.reach == WithinFor(WorldAfter(ladder, Earlier(story)).tables, t.role)
                && t.id !in Stale(ladder, Earlier(story)))
    ensures s.id !in Stale(ladder, story) ==> WithinTheGrid(WorldAfter(ladder, story).tables, s)
    ensures s.id in CaughtUp(ladder, story) ==>
      s.reach == WithinFor(WorldAfter(ladder, story).tables, s.role) && s.id !in Stale(ladder, story)
  {
    hide Caused, TablesAfter, StoreOk, Coherent, WithinFor, HeldBy, Changed, Step, NeverTouched, Plausible;
    var w, turn, run := WorldAfter(ladder, Earlier(story)), Last(story), LiveRun(ladder, Earlier(story));
    PlausibleEarlier(ladder, story);
    ACauseMayFollow(ladder, story);
    if turn.what.Edits? {
      NoEditIsAnEvent(w, turn);
    } else {
      OnlyEditsMoveTheGrid(w, turn);
      SameGridReadsTheSame(w.tables, TablesAfter(w, turn));
      SameWithin(w.tables, TablesAfter(w, turn), s);
      if Caused(w, turn).Some? {
        OneEventOn(w, MintedIn(run), turn, s);
      } else {
        assert s in w.live.sessions;
      }
    }
  }

  lemma {:induction false} NoEditIsAnEvent(w: World, turn: Turn)
    requires turn.what.Edits?
    ensures Caused(w, turn).None?
  {
  }

  lemma {:induction false} SameWithin(t: Tables, u: Tables, s: Session)
    requires forall role, on :: HeldBy(u, role, on) == HeldBy(t, role, on)
    requires forall role, rung :: TheReachOf(u, role, rung) == TheReachOf(t, role, rung)
    ensures WithinTheGrid(t, s) <==> WithinTheGrid(u, s)
    ensures WithinFor(t, s.role) == WithinFor(u, s.role)
  {
    hide HeldBy, TheReachOf;
  }

  /** One event between edits, from a session that is there after it. */
  lemma {:induction false} OneEventOn(w: World, minted: set<SessionId>, turn: Turn, s: Session)
    requires StoreOk(w.tables) && Coherent(w.live, minted)
    requires !turn.what.Edits? && (turn.what.Otherwise? ==> NeedsNoMessage(turn.what.act))
    requires Caused(w, turn).Some?
    requires var e := Caused(w, turn).value;
      && (e.act.Assume? ==> e.act.minted !in minted)
      && Coherent(Step(w.live, e), minted + if e.act.Assume? then {e.act.minted} else {})
      && s in Step(w.live, e).sessions
    ensures s.id in minted ==> IsLive(w.live.sessions, s.id) && Held(w.live.sessions, s.id) in w.live.sessions
    ensures s.id !in minted ==> WithinTheGrid(w.tables, s) && Caused(w, turn).value.act.Assume?
    ensures s.id in minted ==>
      var was := Held(w.live.sessions, s.id);
      var projected := Projects(w, turn) && turn.what.shown == s.id;
      && was.id == s.id && was.role == s.role
      && (WithinTheGrid(w.tables, was) || projected ==> WithinTheGrid(w.tables, s))
      && (if projected then s.reach == WithinFor(w.tables, s.role) else s.reach == was.reach)
  {
    hide Caused, StoreOk, WithinFor, WithinTheGrid, Step, Coherent, Changed, NeedsNoMessage;
    var e := Caused(w, turn).value;
    WhereItCameFrom(w, minted, e, s);
    if s.id in minted {
      if !(e.act.Assume? && s.id == e.act.minted) {
        var was := Held(w.live.sessions, s.id);
        if WithinTheGrid(w.tables, was) || (Projects(w, turn) && turn.what.shown == s.id) {
          OneSessionStaysWithin(w, minted, turn, was);
        }
        WhatMovesTheReach(w, turn, was);
      }
    } else {
      BareIsWithin(w.tables, s);
    }
  }

  lemma {:induction false} BareIsWithin(t: Tables, s: Session)
    requires s.arms == [] && s.reach == []
    ensures WithinTheGrid(t, s)
  {
  }

  lemma {:induction false} DeedKeepsTheReach(s: Session, ladder: Ladder, deed: Deed, now: Instant)
    ensures
      var after := Done(s, ladder, deed, now);
      after.id == s.id && after.role == s.role && after.reach == s.reach
  {
    hide CountAll, AllAgain, WithoutBeacon, VolumeSet;
  }

  lemma {:induction false} WhatMovesTheReach(w: World, turn: Turn, was: Session)
    requires IsLive(w.live.sessions, was.id) && Held(w.live.sessions, was.id) == was && Caused(w, turn).Some?
    requires turn.what.Otherwise? ==> NeedsNoMessage(turn.what.act)
    ensures
      var s := Changed(w.live, was, Caused(w, turn).value);
      && s.id == was.id && s.role == was.role
      && (if Projects(w, turn) && turn.what.shown == was.id then s.reach == WithinFor(w.tables, s.role)
          else s.reach == was.reach)
  {
    hide Caused, WithinFor, Projected, Done, StillRouted;
    var e := Caused(w, turn).value;
    if e.act.Do? && e.act.session == was.id { DeedKeepsTheReach(was, w.live.ladder, e.act.deed, e.at); }
    if e.act.Project? {
      OnlyShowingProjects(w, turn);
    }
  }

  // ---- Safety -----------------------------------------------------------------------------------

  lemma {:induction false} ReachedIsMonitored(t: Tables, s: Session, on: LoopId)
    requires WithinTheGrid(t, s) && s.Hears(on)
    ensures HeldBy(t, s.role, on).Carries(Monitor)
  {
    hide HeldBy;
  }

  /** Any fan-out at any moment of any story: between a talker and a listener who have caught up
      with the grid, a loop is carried only where the talker's role holds at least `emit` on it
      and the listener's at least `monitor`, so nothing is carried on a loop nobody has ruled on
      or that is not there. */
  lemma {:induction false} RoutingIsSafe(ladder: Ladder, story: Story, now: Instant, talker: Session, heard: Heard)
    requires Plausible(ladder, story) && talker in WorldAfter(ladder, story).live.sessions
    requires heard in Audience(WorldAfter(ladder, story).live, talker, now)
    requires talker.id !in Stale(ladder, story) && heard.listener !in Stale(ladder, story)
    ensures
      var w := WorldAfter(ladder, story);
      && HeldBy(w.tables, talker.role, heard.on).Carries(Emit)
      && (exists listener :: listener in w.live.sessions && listener.id == heard.listener && listener.id != talker.id
            && HeldBy(w.tables, listener.role, heard.on).Carries(Monitor))
      && IsLoop(w.tables.loops, heard.on) && !ALoop(w.tables.loops, heard.on).value.isUnreviewed
  {
    hide After, Step, WorldAfter, Plausible, Stale, CaughtUp, Audience, StoreOk, WithinFor;
    var w := WorldAfter(ladder, story);
    EveryStoryIsALegalRun(ladder, story);
    CaughtUpMeansWithinTheGrid(ladder, story);
    assert SessionOk(talker);
    AudienceIsExact(w.live, talker, now);
    var listener :| listener in w.live.sessions && listener.id == heard.listener && listener.Hears(heard.on);
    ReachedIsMonitored(w.tables, listener, heard.on);
  }

  /** Once everybody has caught up, the fan-out is the grid: a talker is heard on a loop by
      exactly the others monitoring it unmuted whose role holds `monitor` there now, while the
      talker's own role holds `emit` on everything they have armed. */
  lemma {:induction false} TheFanOutIsTheGrid(ladder: Ladder, story: Story, now: Instant, talker: Session, heard: Heard)
    requires Plausible(ladder, story) && talker in WorldAfter(ladder, story).live.sessions
    requires forall s :: s in WorldAfter(ladder, story).live.sessions ==> s.id in CaughtUp(ladder, story)
    ensures
      var w := WorldAfter(ladder, story);
      && (heard in Audience(w.live, talker, now) <==>
            && talker.ConnectionAt(w.live.ladder, now) != Disconnected
            && heard.on in talker.arms && heard.listener != talker.id
            && exists s :: s in w.live.sessions && s.id == heard.listener
                 && heard.on in s.subscriptions && heard.on !in s.mutes
                 && HeldBy(w.tables, s.role, heard.on).Carries(Monitor))
      && (heard.on in talker.arms ==> HeldBy(w.tables, talker.role, heard.on).Carries(Emit))
  {
    hide After, Step, WorldAfter, Plausible, Stale, CaughtUp, Audience, StoreOk, WithinFor, HeldBy;
    var w := WorldAfter(ladder, story);
    EveryStoryIsALegalRun(ladder, story);
    CaughtUpMeansWithinTheGrid(ladder, story);
    assert SessionOk(talker);
    AudienceIsExact(w.live, talker, now);
    forall s | s in w.live.sessions
      ensures Reaches(s.reach, heard.on) <==> HeldBy(w.tables, s.role, heard.on).Carries(Monitor)
    {
      WithinIsTheGrid(w.tables, s.role);
    }
  }

  // ---- What catching up takes ---------------------------------------------------------------------

  lemma {:induction false} NoRoleHoldsNothing(t: Tables, role: RoleId)
    requires StoreOk(t) && !IsRole(t.roles, role)
    ensures forall on :: HeldBy(t, role, on) == Nothing
  {
  }

  lemma {:induction false} WithinNothing(t: Tables, s: Session)
    requires forall on :: HeldBy(t, s.role, on) == Nothing
    ensures WithinTheGrid(t, s) <==> s.arms == [] && s.reach == []
  {
    hide HeldBy;
    if s.arms != [] { assert s.arms[0] in s.arms; }
    if s.reach != [] { assert s.reach[0] in s.reach; }
  }

  /** A projection can still reach it: some socket holds it, and its role is still there. */
  predicate CanCatchUp(w: World, s: Session) {
    s.id in w.sockets && IsRole(w.tables.roles, s.role)
  }

  lemma {:induction false} AskedInVain(w: World, minted: set<SessionId>, turn: Turn, s: Session)
    requires Coherent(w.live, minted) && s in w.live.sessions && !CanCatchUp(w, s)
    requires turn.what.IsShown? && turn.what.shown == s.id
    ensures !Projects(w, turn)
    ensures
      var after := Passed(w, turn);
      && after.tables == w.tables && after.live.sessions == w.live.sessions && after.live.ladder == w.live.ladder
      && after.sockets == w.sockets - {s.id}
  {
    hide Evaluate;
    FoundAmong(w.live.sessions, s);
  }

  lemma {:induction false} AskedAndProjected(w: World, minted: set<SessionId>, turn: Turn, s: Session)
    requires Coherent(w.live, minted) && s in w.live.sessions && CanCatchUp(w, s)
    requires turn.what.IsShown? && turn.what.shown == s.id
    ensures Projects(w, turn) && Caused(w, turn).value.act.projected == s.id
    ensures
      var after := Passed(w, turn);
      && after.tables == w.tables && after.sockets == w.sockets
      && after.live == Step(w.live, Caused(w, turn).value)
  {
    hide Evaluate, Step, WithinFor;
    FoundAmong(w.live.sessions, s);
  }

  lemma {:induction false} WithinIfBare(t: Tables, s: Session)
    requires StoreOk(t) && !IsRole(t.roles, s.role)
    ensures WithinTheGrid(t, s) <==> s.arms == [] && s.reach == []
  {
    hide HeldBy, StoreOk;
    NoRoleHoldsNothing(t, s.role);
    WithinNothing(t, s);
  }

  /** One tick brings a session within the grid if and only if some socket still holds it and its
      role is still there, or it was within it already, which without a role means it had no arm and
      no reach. A session the tick cannot project is left exactly as it stood, and on no socket. */
  lemma {:induction false} ATickCatchesUpWhoeverItCan(ladder: Ladder, story: Story, turn: Turn, s: Session)
    requires Plausible(ladder, story) && MayPass(ladder, story, turn)
    requires s in WorldAfter(ladder, story).live.sessions && turn.what.IsShown? && turn.what.shown == s.id
    ensures
      var before, after := WorldAfter(ladder, story), WorldAfter(ladder, story + [turn]);
      && after.tables == before.tables && IsLive(after.live.sessions, s.id)
      && (WithinTheGrid(after.tables, Held(after.live.sessions, s.id)) <==>
            CanCatchUp(before, s) || WithinTheGrid(before.tables, s))
      && (!IsRole(before.tables.roles, s.role) ==>
            (WithinTheGrid(before.tables, s) <==> s.arms == [] && s.reach == []))
      && (!CanCatchUp(before, s) ==> Held(after.live.sessions, s.id) == s && s.id !in after.sockets)
  {
    hide After, WorldAfter, Plausible, MayPass, StoreOk, WithinFor, HeldBy, WithinTheGrid, Passed, Caused;
    hide Projected, Step, Changed, Told;
    var w, minted := WorldAfter(ladder, story), MintedIn(LiveRun(ladder, story));
    EveryStoryIsALegalRun(ladder, story);
    OneTurnMore(ladder, story, turn);
    FoundAmong(w.live.sessions, s);
    if !IsRole(w.tables.roles, s.role) { WithinIfBare(w.tables, s); }
    if CanCatchUp(w, s) {
      AskedAndProjected(w, minted, turn, s);
      OneSessionAlong(w.live, minted, Caused(w, turn).value, s.id);
      OneSessionStaysWithin(w, minted, turn, s);
    } else {
      AskedInVain(w, minted, turn, s);
    }
  }

  lemma {:induction false} RoleDropped(w: World, role: RoleId, at: Instant)
    ensures
      var after := Passed(w, Turn(Edits(DropRole(role)), at));
      after.live == w.live && after.sockets == w.sockets && after.tables == RoleDeleted(w.tables, role)
  {
  }

  /** A role deleted under either side of a pair, or under both, while one hears the other: the one
      goes on being carried to the other though that role holds nothing, and a tick of either only
      lets it go from its socket. */
  lemma {:induction false} ADeletedRoleStaysOnTheAir(
    ladder: Ladder, story: Story, at: Instant, talker: Session, listener: Session, gone: RoleId, on: LoopId,
    now: Instant)
    requires Plausible(ladder, story) && TimeAfter(story) <= at
    requires talker in WorldAfter(ladder, story).live.sessions && listener in WorldAfter(ladder, story).live.sessions
    requires Heard(listener.id, on) in Audience(WorldAfter(ladder, story).live, talker, now)
    requires gone == talker.role || gone == listener.role
    ensures
      var dropped := story + [Turn(Edits(DropRole(gone)), at)];
      var w := WorldAfter(ladder, dropped);
      && Plausible(ladder, dropped) && w.live == WorldAfter(ladder, story).live
      && HeldBy(w.tables, gone, on) == Nothing
      && Heard(listener.id, on) in Audience(w.live, talker, now)
      && forall s, staffing, t :: s in w.live.sessions && s.role == gone ==>
           var after := Passed(w, Turn(IsShown(s.id, staffing), t));
           after.live.sessions == w.live.sessions && after.tables == w.tables && s.id !in after.sockets
  {
    hide After, WorldAfter, StoreOk, HeldBy, Evaluate, Audience, Legal, Coherent, Plausible, Passed;
    var turn := Turn(Edits(DropRole(gone)), at);
    OneTurnMore(ladder, story, turn);
    EveryStoryIsALegalRun(ladder, story);
    RoleDropped(WorldAfter(ladder, story), gone, at);
    EveryStoryIsALegalRun(ladder, story + [turn]);
    var w := WorldAfter(ladder, story + [turn]);
    assert !IsRole(w.tables.roles, gone);
    NoRoleHoldsNothing(w.tables, gone);
    forall s, staffing, t | s in w.live.sessions && s.role == gone
      ensures
        var after := Passed(w, Turn(IsShown(s.id, staffing), t));
        after.live.sessions == w.live.sessions && after.tables == w.tables && s.id !in after.sockets
    {
      AskedInVain(w, MintedIn(LiveRun(ladder, story + [turn])), Turn(IsShown(s.id, staffing), t), s);
    }
  }

  // ---- A session no socket holds ------------------------------------------------------------------

  /** All that ever moves on a session no socket holds is what the media plane sees of its path. */
  ghost predicate LeftAlone(s: Session, t: Session) {
    t == s.(seenByTheServer := t.seenByTheServer)
  }

  lemma {:induction false} OnlyItsSocketReachesIt(w: World, turn: Turn, id: SessionId)
    requires id !in w.sockets && Caused(w, turn).Some?
    requires turn.what.Otherwise? ==> NeedsNoMessage(turn.what.act)
    ensures
      var act := Caused(w, turn).value.act;
      && (act.Do? && act.session == id ==> act.deed.SeeMediaPath?)
      && (act.Project? ==> act.projected != id)
  {
    hide Evaluate, WithinFor;
  }

  lemma {:induction false} ChangedLeavesItAlone(l: Live, s: Session, e: Event)
    requires IsLive(l.sessions, s.id)
    requires e.act.Do? && e.act.session == s.id ==> e.act.deed.SeeMediaPath?
    requires e.act.Project? ==> e.act.projected != s.id
    ensures LeftAlone(s, Changed(l, s, e))
  {
  }

  lemma {:induction false} NoSocketTakesItUp(w: World, turn: Turn, id: SessionId)
    requires id !in w.sockets && (turn.what.AsksToAssume? ==> turn.what.minted != id)
    ensures id !in SocketsAfter(w, turn)
  {
    hide Caused;
  }

  lemma {:induction false} OneTurnLeavesItAlone(ladder: Ladder, story: Story, turn: Turn, id: SessionId)
    requires Plausible(ladder, story) && MayPass(ladder, story, turn)
    requires id in MintedIn(LiveRun(ladder, story)) && id !in WorldAfter(ladder, story).sockets
    ensures
      var w, after := WorldAfter(ladder, story), WorldAfter(ladder, story + [turn]);
      && id !in after.sockets && id in MintedIn(LiveRun(ladder, story + [turn]))
      && (IsLive(after.live.sessions, id) ==>
            IsLive(w.live.sessions, id) && LeftAlone(Held(w.live.sessions, id), Held(after.live.sessions, id)))
  {
    hide WorldAfter, Plausible, StoreOk, Caused, Step, Changed, Ends, LeftAlone, TablesAfter, SocketsAfter;
    hide AnswersStaffing, NeverTouched;
    var w, minted := WorldAfter(ladder, story), MintedIn(LiveRun(ladder, story));
    EveryStoryIsALegalRun(ladder, story);
    OneTurnMore(ladder, story, turn);
    ATurnMayFollow(ladder, story, turn);
    NoSocketTakesItUp(w, turn, id);
    var caused := Caused(w, turn);
    if caused.Some? {
      OneMore(ladder, LiveRun(ladder, story), caused.value);
      OneSessionAlong(w.live, minted, caused.value, id);
      OnlyItsSocketReachesIt(w, turn, id);
      if IsLive(w.live.sessions, id) { ChangedLeavesItAlone(w.live, Held(w.live.sessions, id), caused.value); }
    } else if IsLive(w.live.sessions, id) {
      ItselfLeftAlone(Held(w.live.sessions, id));
    }
  }

  lemma {:induction false} ItselfLeftAlone(s: Session)
    ensures LeftAlone(s, s)
  {
  }

  /** Once no socket holds a session none ever does again, and for as long as it is live it stands
      as it was: no heartbeat, no message and no projection reaches it. */
  lemma {:induction false} ASessionLetGoIsLeftAlone(ladder: Ladder, story: Story, more: Story, id: SessionId)
    requires Plausible(ladder, story + more) && Plausible(ladder, story)
    requires id in MintedIn(LiveRun(ladder, story)) && id !in WorldAfter(ladder, story).sockets
    ensures
      var w, after := WorldAfter(ladder, story), WorldAfter(ladder, story + more);
      && id !in after.sockets && id in MintedIn(LiveRun(ladder, story + more))
      && (IsLive(after.live.sessions, id) ==>
            IsLive(w.live.sessions, id) && LeftAlone(Held(w.live.sessions, id), Held(after.live.sessions, id)))
    decreases |more|
  {
    hide WorldAfter, Plausible, MayPass, LiveRun, LeftAlone;
    if more == [] {
      assert story + more == story;
      if IsLive(WorldAfter(ladder, story).live.sessions, id) {
        ItselfLeftAlone(Held(WorldAfter(ladder, story).live.sessions, id));
      }
    } else {
      var front, last := more[..|more| - 1], more[|more| - 1];
      assert story + more == (story + front) + [last];
      OneTurnMore(ladder, story + front, last);
      ASessionLetGoIsLeftAlone(ladder, story, front, id);
      OneTurnLeavesItAlone(ladder, story + front, last, id);
      var then_, since := WorldAfter(ladder, story), WorldAfter(ladder, story + front);
      LeftAloneAgain(then_.live.sessions, since.live.sessions, WorldAfter(ladder, story + more).live.sessions, id);
    }
  }

  lemma {:induction false} LeftAloneAgain(a: seq<Session>, b: seq<Session>, c: seq<Session>, id: SessionId)
    requires IsLive(b, id) ==> IsLive(a, id) && LeftAlone(Held(a, id), Held(b, id))
    requires IsLive(c, id) ==> IsLive(b, id) && LeftAlone(Held(b, id), Held(c, id))
    ensures IsLive(c, id) ==> IsLive(a, id) && LeftAlone(Held(a, id), Held(c, id))
  {
    hide IsLive, Held;
  }

  /** How long each side of it lasts, however the story goes on. As a talker a session no socket
      holds is carried to nobody once `disconnected` has passed since its last answer, and at once
      where its channel is known to have gone. As a listener it is carried every loop it heard when
      it was let go by every talker armed there, for as long as that talker is not cut off. */
  lemma {:induction false} HowLongASessionLetGoIsCarried(
    ladder: Ladder, story: Story, more: Story, s: Session, talker: Session, on: LoopId, now: Instant)
    requires Plausible(ladder, story + more) && Plausible(ladder, story)
    requires s in WorldAfter(ladder, story).live.sessions && s.id !in WorldAfter(ladder, story).sockets
    requires IsLive(WorldAfter(ladder, story + more).live.sessions, s.id)
    requires talker in WorldAfter(ladder, story + more).live.sessions
    ensures
      var l := WorldAfter(ladder, story + more).live;
      var t := Held(l.sessions, s.id);
      && (s.channelIsGone || now >= s.heardFrom + ladder.disconnected * SECOND ==> Audience(l, t, now) == [])
      && (Heard(s.id, on) in Audience(l, talker, now) <==>
            talker.id != s.id && on in talker.arms && talker.ConnectionAt(ladder, now) != Disconnected && s.Hears(on))
  {
    hide WorldAfter, Plausible, LiveRun, Audience, Step, After;
    var l := WorldAfter(ladder, story + more).live;
    EveryStoryIsALegalRun(ladder, story);
    EveryStoryIsALegalRun(ladder, story + more);
    LadderStands(ladder, LiveRun(ladder, story + more));
    FoundAmong(WorldAfter(ladder, story).live.sessions, s);
    ASessionLetGoIsLeftAlone(ladder, story, more, s.id);
    var t := Held(l.sessions, s.id);
    assert t in l.sessions && SessionOk(talker);
    AudienceIsExact(l, talker, now);
    CutOff(l, s, t, now);
    forall other | other in l.sessions && other.id == s.id ensures other == t { FoundAmong(l.sessions, other); }
  }

  lemma {:induction false} CutOff(l: Live, s: Session, t: Session, now: Instant)
    requires LeftAlone(s, t)
    ensures s.channelIsGone || now >= s.heardFrom + l.ladder.disconnected * SECOND ==> Audience(l, t, now) == []
    ensures forall on :: s.Hears(on) == t.Hears(on)
  {
  }

  // ---- One round of projections ---------------------------------------------------------------------

  /** One projection for each of these sessions, in turn. */
  ghost function Round(sessions: seq<Session>, staffing: seq<StaffedLoop>, at: Instant): (r: Story)
    ensures |r| == |sessions| && forall i :: 0 <= i < |r| ==> r[i] == Turn(IsShown(sessions[i].id, staffing), at)
  {
    seq(|sessions|, i requires 0 <= i < |sessions| => Turn(IsShown(sessions[i].id, staffing), at))
  }

  lemma {:induction false} OneTick(ladder: Ladder, story: Story, turn: Turn, s: Session)
    requires Plausible(ladder, story) && MayPass(ladder, story, turn)
    requires s in WorldAfter(ladder, story).live.sessions && turn.what.IsShown? && turn.what.shown == s.id
    ensures
      var before, after := WorldAfter(ladder, story), WorldAfter(ladder, story + [turn]);
      && after.tables == before.tables
      && |after.live.sessions| == |before.live.sessions|
      && (forall i :: 0 <= i < |before.live.sessions| ==> SamePerson(before.live.sessions[i], after.live.sessions[i]))
      && after.sockets == (if CanCatchUp(before, s) then before.sockets else before.sockets - {s.id})
      && CaughtUp(ladder, story + [turn])
           == CaughtUp(ladder, story) + (if CanCatchUp(before, s) then {s.id} else {})
  {
    hide WorldAfter, Plausible, MayPass, WithinFor, Step, Passed, Caused, StoreOk, CanCatchUp;
    EveryStoryIsALegalRun(ladder, story);
    OneTurnMore(ladder, story, turn);
    var w, minted := WorldAfter(ladder, story), MintedIn(LiveRun(ladder, story));
    if CanCatchUp(w, s) {
      AskedAndProjected(w, minted, turn, s);
      SeatsStand(w.live, Caused(w, turn).value);
    } else {
      AskedInVain(w, minted, turn, s);
    }
  }

  lemma {:induction false} MayBeShown(ladder: Ladder, story: Story, turn: Turn)
    requires TimeAfter(story) <= turn.at && turn.what.IsShown?
    requires AnswersStaffing(WorldAfter(ladder, story).tables, turn.what.staffing)
    ensures MayPass(ladder, story, turn)
  {
    hide AnswersStaffing, WorldAfter;
  }

  /** How far a round over the seats of that world has got: nobody has moved, whoever is still to
      come is on the socket they were, and of the first `k` exactly those who could have caught up. */
  ghost predicate RoundAt(from: World, w: World, before: set<SessionId>, caughtUp: set<SessionId>, k: nat)
    requires k <= |from.live.sessions|
  {
    var seats := from.live.sessions;
    && w.tables == from.tables && |w.live.sessions| == |seats|
    && (forall i :: 0 <= i < |seats| ==> SamePerson(seats[i], w.live.sessions[i]))
    && (forall i :: k <= i < |seats| ==> (seats[i].id in w.sockets <==> seats[i].id in from.sockets))
    && (forall i :: 0 <= i < |seats| ==>
          (seats[i].id in caughtUp <==> seats[i].id in before || (i < k && CanCatchUp(from, seats[i]))))
  }

  ghost predicate RoundTo(ladder: Ladder, story: Story, from: World, before: set<SessionId>, at: Instant, k: nat)
    requires k <= |from.live.sessions|
  {
    && Plausible(ladder, story) && TimeAfter(story) <= at
    && RoundAt(from, WorldAfter(ladder, story), before, CaughtUp(ladder, story), k)
  }

  lemma {:induction false} SamePersonCatchesUp(v: World, w: World, s: Session, t: Session)
    requires SamePerson(s, t) && v.tables == w.tables && (s.id in v.sockets <==> s.id in w.sockets)
    ensures s.id == t.id && (CanCatchUp(v, s) <==> CanCatchUp(w, t))
  {
  }

  lemma {:induction false} TheSamePersonStill(s: Session, t: Session, u: Session)
    requires SamePerson(s, t) && SamePerson(t, u)
    ensures SamePerson(s, u)
  {
  }

  lemma {:induction false} OneSeatAlong(from: World, w: World, next: World, before: set<SessionId>,
      caughtUp: set<SessionId>, since: set<SessionId>, k: nat)
    requires k < |from.live.sessions| && RoundAt(from, w, before, caughtUp, k) && SeatsApart(from.live.sessions)
    requires next.tables == w.tables && |next.live.sessions| == |w.live.sessions|
    requires forall i :: 0 <= i < |w.live.sessions| ==> SamePerson(w.live.sessions[i], next.live.sessions[i])
    requires
      var s := w.live.sessions[k];
      && next.sockets == (if CanCatchUp(w, s) then w.sockets else w.sockets - {s.id})
      && since == caughtUp + (if CanCatchUp(w, s) then {s.id} else {})
    ensures RoundAt(from, next, before, since, k + 1)
  {
    hide SamePerson, CanCatchUp;
    var seats := from.live.sessions;
    SamePersonCatchesUp(from, w, seats[k], w.live.sessions[k]);
    forall i | 0 <= i < |seats| ensures SamePerson(seats[i], next.live.sessions[i]) {
      TheSamePersonStill(seats[i], w.live.sessions[i], next.live.sessions[i]);
    }
  }

  lemma {:induction false} OneMoreSeat(
    ladder: Ladder, story: Story, from: World, before: set<SessionId>, at: Instant, k: nat, turn: Turn)
    requires k < |from.live.sessions| && RoundTo(ladder, story, from, before, at, k)
    requires SeatsApart(from.live.sessions)
    requires turn.what.IsShown? && turn.what.shown == from.live.sessions[k].id && turn.at == at
    requires AnswersStaffing(from.tables, turn.what.staffing)
    ensures RoundTo(ladder, story + [turn], from, before, at, k + 1)
  {
    hide WorldAfter, Plausible, AnswersStaffing, CaughtUp, MayPass, Passed, CanCatchUp, SamePerson, SeatsApart;
    var w := WorldAfter(ladder, story);
    SamePersonCatchesUp(from, w, from.live.sessions[k], w.live.sessions[k]);
    MayBeShown(ladder, story, turn);
    OneTurnMore(ladder, story, turn);
    OneTick(ladder, story, turn, w.live.sessions[k]);
    var next := WorldAfter(ladder, story + [turn]);
    OneSeatAlong(from, w, next, before, CaughtUp(ladder, story), CaughtUp(ladder, story + [turn]), k);
  }

  lemma {:induction false} TakenOneFurther(story: Story, round: Story, k: nat)
    requires 0 < k <= |round|
    ensures story + round[..k] == (story + round[..k - 1]) + [round[k - 1]]
  {
  }

  lemma {:induction false} NoSeatYet(ladder: Ladder, story: Story, at: Instant)
    requires Plausible(ladder, story) && TimeAfter(story) <= at
    ensures RoundTo(ladder, story, WorldAfter(ladder, story), CaughtUp(ladder, story), at, 0)
  {
    hide WorldAfter, Plausible, CaughtUp;
  }

  lemma {:induction false} PartOfARound(ladder: Ladder, story: Story, staffing: seq<StaffedLoop>, at: Instant, k: nat)
    requires Plausible(ladder, story) && TimeAfter(story) <= at
    requires AnswersStaffing(WorldAfter(ladder, story).tables, staffing)
    requires k <= |WorldAfter(ladder, story).live.sessions|
    ensures
      var w := WorldAfter(ladder, story);
      RoundTo(ladder, story + Round(w.live.sessions, staffing, at)[..k], w, CaughtUp(ladder, story), at, k)
  {
    hide WorldAfter, Plausible, AnswersStaffing, CaughtUp, StoreOk, LiveRun, SessionOk, TombstonesOk, RoundTo;
    var w := WorldAfter(ladder, story);
    var round := Round(w.live.sessions, staffing, at);
    if k == 0 {
      assert story + round[..0] == story;
      NoSeatYet(ladder, story, at);
    } else {
      hide TimeAfter, Round, SamePerson, Legal, MintedIn;
      EveryStoryIsALegalRun(ladder, story);
      PartOfARound(ladder, story, staffing, at, k - 1);
      TakenOneFurther(story, round, k);
      OneMoreSeat(ladder, story + round[..k - 1], w, CaughtUp(ladder, story), at, k - 1, round[k - 1]);
    }
  }

  /** One round of projections after any edit is enough for whoever can be reached at all: nobody is
      unseated, and exactly those catch up whose socket still holds them and whose role is there. */
  lemma {:induction false} OneRoundCatchesUpWhoeverItCan(
    ladder: Ladder, story: Story, staffing: seq<StaffedLoop>, at: Instant)
    requires Plausible(ladder, story) && TimeAfter(story) <= at
    requires AnswersStaffing(WorldAfter(ladder, story).tables, staffing)
    ensures
      var before, round := WorldAfter(ladder, story), Round(WorldAfter(ladder, story).live.sessions, staffing, at);
      var after := WorldAfter(ladder, story + round);
      && Plausible(ladder, story + round) && after.tables == before.tables
      && |after.live.sessions| == |before.live.sessions|
      && forall i :: 0 <= i < |before.live.sessions| ==>
           && SamePerson(before.live.sessions[i], after.live.sessions[i])
           && (after.live.sessions[i].id in CaughtUp(ladder, story + round) <==>
                 before.live.sessions[i].id in CaughtUp(ladder, story) || CanCatchUp(before, before.live.sessions[i]))
  {
    hide WorldAfter, Plausible, AnswersStaffing, CaughtUp;
    var seats := WorldAfter(ladder, story).live.sessions;
    var round := Round(seats, staffing, at);
    PartOfARound(ladder, story, staffing, at, |seats|);
    assert round[..|seats|] == round;
  }
}
