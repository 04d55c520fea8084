/** The fan-out is exact, it moves only for what may move it, and what was handed down is what
    the media plane is executing. */
module FanOuts {
  import opened Basics
  import opened Names
  import opened Deployment
  import opened Sessions
  import opened LiveState
  import opened Invariants

  // ---- Who hears whom ---------------------------------------------------------------------

  /** The rule for one (talker, listener, loop), said without any list. */
  ghost predicate Carried(sessions: seq<Session>, talker: Session, heard: Heard, ladder: Ladder, now: Instant) {
    && talker.ConnectionAt(ladder, now) != Disconnected
    && heard.on in talker.arms
    && heard.listener != talker.id
    && exists listener :: listener in sessions && listener.id == heard.listener
         && heard.on in listener.subscriptions && heard.on !in listener.mutes && Reaches(listener.reach, heard.on)
  }

  lemma {:induction false} HearersOnExactly(sessions: seq<Session>, talker: SessionId, armed: LoopId, heard: Heard)
    ensures heard in HearersOn(sessions, talker, armed) <==>
      heard.on == armed && heard.listener != talker
      && exists s :: s in sessions && s.id == heard.listener && s.Hears(armed)
  {
    if sessions != [] {
      HearersOnExactly(sessions[1..], talker, armed, heard);
      assert forall s :: s in sessions <==> s == sessions[0] || s in sessions[1..];
    }
  }

  lemma {:induction false} HearersOnOnce(sessions: seq<Session>, talker: SessionId, armed: LoopId)
    requires SeatsApart(sessions)
    ensures NoDuplicates(HearersOn(sessions, talker, armed))
  {
    if sessions != [] {
      HearersOnOnce(sessions[1..], talker, armed);
      HearersOnExactly(sessions[1..], talker, armed, Heard(sessions[0].id, armed));
      assert forall s :: s in sessions[1..] ==> s.id != sessions[0].id;
    }
  }

  lemma {:induction false} HearersOverExactly(sessions: seq<Session>, talker: SessionId, arms: seq<LoopId>,
      heard: Heard)
    ensures heard in HearersOver(sessions, talker, arms) <==>
      heard.on in arms && heard.listener != talker
      && exists s :: s in sessions && s.id == heard.listener && s.Hears(heard.on)
  {
    if arms != [] {
      HearersOnExactly(sessions, talker, arms[0], heard);
      HearersOverExactly(sessions, talker, arms[1..], heard);
    }
  }

  lemma {:induction false} HearersOverOnce(sessions: seq<Session>, talker: SessionId, arms: seq<LoopId>)
    requires SeatsApart(sessions) && NoDuplicates(arms)
    ensures NoDuplicates(HearersOver(sessions, talker, arms))
  {
    if arms != [] {
      var first, rest := HearersOn(sessions, talker, arms[0]), HearersOver(sessions, talker, arms[1..]);
      HearersOnOnce(sessions, talker, arms[0]);
      HearersOverOnce(sessions, talker, arms[1..]);
      forall heard | heard in first ensures heard !in rest {
        HearersOnExactly(sessions, talker, arms[0], heard);
        HearersOverExactly(sessions, talker, arms[1..], heard);
      }
      ConcatenatedOnce(first, rest);
    }
  }

  lemma {:induction false} ConcatenatedOnce<T>(a: seq<T>, b: seq<T>)
    requires NoDuplicates(a) && NoDuplicates(b) && forall x :: x in a ==> x !in b
    ensures NoDuplicates(a + b)
  {
    forall i, j | 0 <= i < j < |a + b| ensures (a + b)[i] != (a + b)[j] {
      if i < |a| && j >= |a| { assert a[i] in a && b[j - |a|] in b; }
    }
  }

  lemma {:induction false} AudienceIsExact(l: Live, talker: Session, now: Instant)
    requires SeatsApart(l.sessions) && NoDuplicates(talker.arms)
    ensures NoDuplicates(Audience(l, talker, now))
    ensures forall heard :: heard in Audience(l, talker, now) <==> Carried(l.sessions, talker, heard, l.ladder, now)
  {
    HearersOverOnce(l.sessions, talker.id, talker.arms);
    forall heard ensures heard in Audience(l, talker, now) <==> Carried(l.sessions, talker, heard, l.ladder, now) {
      HearersOverExactly(l.sessions, talker.id, talker.arms, heard);
    }
  }

  /** In every state a run reaches, the fan-out names each live talker once and gives each
      exactly the listeners the rule gives, once for each loop. */
  lemma {:induction false} TheFanOutIsExact(ladder: Ladder, h: History, now: Instant)
    requires Legal(h)
    ensures
      var l := After(ladder, h);
      var fanOut := FanOut(l, now);
      && |fanOut| == |l.sessions|
      && (forall i, j :: 0 <= i < j < |fanOut| ==> fanOut[i].talker != fanOut[j].talker)
      && (forall i :: 0 <= i < |fanOut| ==>
            && fanOut[i].talker == l.sessions[i].id
            && NoDuplicates(fanOut[i].listeners)
            && forall heard :: heard in fanOut[i].listeners <==> Carried(l.sessions, l.sessions[i], heard, ladder, now))
  {
    hide After, Step, Legal, Carried, Audience;
    EveryRunIsCoherent(ladder, h);
    LadderStands(ladder, h);
    var l := After(ladder, h);
    forall i | 0 <= i < |l.sessions|
      ensures NoDuplicates(FanOut(l, now)[i].listeners)
      ensures forall heard ::
        heard in FanOut(l, now)[i].listeners <==> Carried(l.sessions, l.sessions[i], heard, ladder, now)
    {
      assert SessionOk(l.sessions[i]);
      AudienceIsExact(l, l.sessions[i], now);
    }
  }

  // ---- What never moves it ----------------------------------------------------------------

  /** The two sessions are one to the fan-out at that instant. */
  ghost predicate AlikeOnAir(s: Session, t: Session, ladder: Ladder, now: Instant) {
    && s.id == t.id && s.arms == t.arms
    && s.subscriptions == t.subscriptions && s.mutes == t.mutes && s.reach == t.reach
    && s.ConnectionAt(ladder, now) == t.ConnectionAt(ladder, now)
  }

  lemma {:induction false} HearersAlike(a: seq<Session>, b: seq<Session>, talker: SessionId, armed: LoopId,
      ladder: Ladder, now: Instant)
    requires |a| == |b| && forall i :: 0 <= i < |a| ==> AlikeOnAir(a[i], b[i], ladder, now)
    ensures HearersOn(a, talker, armed) == HearersOn(b, talker, armed)
  {
    if a != [] {
      assert AlikeOnAir(a[0], b[0], ladder, now);
      HearersAlike(a[1..], b[1..], talker, armed, ladder, now);
    }
  }

  lemma {:induction false} HearersOverAlike(a: seq<Session>, b: seq<Session>, talker: SessionId, arms: seq<LoopId>,
      ladder: Ladder, now: Instant)
    requires |a| == |b| && forall i :: 0 <= i < |a| ==> AlikeOnAir(a[i], b[i], ladder, now)
    ensures HearersOver(a, talker, arms) == HearersOver(b, talker, arms)
  {
    if arms != [] {
      HearersAlike(a, b, talker, arms[0], ladder, now);
      HearersOverAlike(a, b, talker, arms[1..], ladder, now);
    }
  }

  lemma {:induction false} FanOutAlike(l: Live, b: seq<Session>, now: Instant)
    requires |l.sessions| == |b| && forall i :: 0 <= i < |b| ==> AlikeOnAir(l.sessions[i], b[i], l.ladder, now)
    ensures FanOut(l, now) == FanOut(l.(sessions := b), now)
  {
    forall i | 0 <= i < |b|
      ensures FanOut(l, now)[i] == FanOut(l.(sessions := b), now)[i]
    {
      assert AlikeOnAir(l.sessions[i], b[i], l.ladder, now);
      HearersOverAlike(l.sessions, b, b[i].id, b[i].arms, l.ladder, now);
    }
  }

  /** Keying, priority, volume, stepping away and coming back, media path readings and beacon
      counts: none of them is a route. */
  predicate IsNoRoute(deed: Deed) {
    || deed.Key? || deed.Unkey? || deed.KeyPriority? || deed.UnkeyPriority? || deed.SetVolume?
    || deed.StepAway? || deed.ActDeliberately? || deed.SayMediaPath? || deed.SeeMediaPath? || deed.CountBeacons?
  }

  lemma {:induction false} NoRouteIsAlike(s: Session, ladder: Ladder, deed: Deed, at: Instant, now: Instant)
    requires IsNoRoute(deed)
    ensures AlikeOnAir(s, Done(s, ladder, deed, at), ladder, now)
  {
  }

  lemma {:induction false} TheFanOutStands(l: Live, id: SessionId, deed: Deed, at: Instant, now: Instant)
    requires IsNoRoute(deed)
    ensures FanOut(Step(l, Event(Do(id, deed), at)), now) == FanOut(l, now)
  {
    hide FanOut, Done;
    if IsLive(l.sessions, id) {
      NoRouteIsAlike(Held(l.sessions, id), l.ladder, deed, at, now);
      FanOutAlike(l, l.sessions[At(l.sessions, id) := Done(Held(l.sessions, id), l.ladder, deed, at)], now);
    }
  }

  // ---- A mute takes exactly its own entries -------------------------------------------------

  lemma {:induction false} HearersMuted(a: seq<Session>, b: seq<Session>, talker: SessionId, armed: LoopId,
      id: SessionId, on: LoopId)
    requires |a| == |b|
    requires forall i :: 0 <= i < |a| ==> a[i].id == b[i].id
    requires forall i :: 0 <= i < |a| ==> (b[i].Hears(armed) <==> a[i].Hears(armed) && !(a[i].id == id && armed == on))
    ensures HearersOn(b, talker, armed) == Without(HearersOn(a, talker, armed), Heard(id, on))
  {
    if a != [] {
      HearersMuted(a[1..], b[1..], talker, armed, id, on);
      var first := if a[0].id != talker && a[0].Hears(armed) then [Heard(a[0].id, armed)] else [];
      WithoutAddsUp(first, HearersOn(a[1..], talker, armed), Heard(id, on));
      assert Without<Heard>([], Heard(id, on)) == [];
      if first != [] { assert first[..0] == []; }
    }
  }

  lemma {:induction false} WithoutAddsUp<T(!new)>(a: seq<T>, b: seq<T>, x: T)
    ensures Without(a + b, x) == Without(a, x) + Without(b, x)
  {
    if b == [] {
      assert a + b == a;
    } else {
      assert (a + b)[..|a + b| - 1] == a + b[..|b| - 1];
      WithoutAddsUp(a, b[..|b| - 1], x);
    }
  }

  lemma {:induction false} HearersOverMuted(a: seq<Session>, b: seq<Session>, talker: SessionId, arms: seq<LoopId>,
      id: SessionId, on: LoopId)
    requires |a| == |b|
    requires forall i :: 0 <= i < |a| ==> a[i].id == b[i].id
    requires forall i, armed :: 0 <= i < |a| ==> (b[i].Hears(armed) <==>
      a[i].Hears(armed) && !(a[i].id == id && armed == on))
    ensures HearersOver(b, talker, arms) == Without(HearersOver(a, talker, arms), Heard(id, on))
  {
    if arms != [] {
      HearersMuted(a, b, talker, arms[0], id, on);
      HearersOverMuted(a, b, talker, arms[1..], id, on);
      WithoutAddsUp(HearersOn(a, talker, arms[0]), HearersOver(a, talker, arms[1..]), Heard(id, on));
    }
  }

  lemma {:induction false} MutedHears(s: Session, ladder: Ladder, on: LoopId, at: Instant, now: Instant)
    ensures forall armed :: Done(s, ladder, Mute(on), at).Hears(armed) <==> s.Hears(armed) && armed != on
    ensures Done(s, ladder, Mute(on), at).ConnectionAt(ladder, now) == s.ConnectionAt(ladder, now)
    ensures Done(s, ladder, Mute(on), at).arms == s.arms && Done(s, ladder, Mute(on), at).id == s.id
  {
  }

  /** A mute takes that listener off every talker on that loop, and moves nothing else. */
  lemma {:induction false} AMuteTakesExactlyItsOwnEntries(l: Live, id: SessionId, on: LoopId, at: Instant, now: Instant)
    requires SeatsApart(l.sessions) && IsLive(l.sessions, id)
    ensures
      var before, after := FanOut(l, now), FanOut(Step(l, Event(Do(id, Mute(on)), at)), now);
      && |after| == |before|
      && forall i :: 0 <= i < |before| ==>
           after[i] == WhoHears(before[i].talker, Without(before[i].listeners, Heard(id, on)))
  {
    hide Done, HearersOver;
    var k := At(l.sessions, id);
    var muted := Done(l.sessions[k], l.ladder, Mute(on), at);
    var b := l.sessions[k := muted];
    MutedHears(l.sessions[k], l.ladder, on, at, now);
    forall i, armed | 0 <= i < |b|
      ensures b[i].Hears(armed) <==> l.sessions[i].Hears(armed) && !(l.sessions[i].id == id && armed == on)
    {
    }
    forall i | 0 <= i < |b|
      ensures Audience(l.(sessions := b), b[i], now) == Without(Audience(l, l.sessions[i], now), Heard(id, on))
    {
      HearersOverMuted(l.sessions, b, b[i].id, b[i].arms, id, on);
    }
  }

  // ---- What is handed down is what is executed ----------------------------------------------

  /** The media plane's audiences, each replaced whole when its talker is named. */
  type Audiences = map<SessionId, seq<Heard>>

  function Executed(audiences: Audiences, routing: seq<WhoHears>): Audiences {
    if routing == [] then audiences
    else
      var last := routing[|routing| - 1];
      Executed(audiences, routing[..|routing| - 1])[last.talker := last.listeners]
  }

  /** A routing that names each talker once leaves each with the audience it gives them. */
  lemma {:induction false} ExecutedExactly(audiences: Audiences, routing: seq<WhoHears>)
    requires forall i, j :: 0 <= i < j < |routing| ==> routing[i].talker != routing[j].talker
    ensures Agrees(Executed(audiences, routing), routing)
  {
    if routing != [] { ExecutedExactly(audiences, routing[..|routing| - 1]); }
  }

  /** What the media plane has been told by the end of a run. */
  ghost function Executing(ladder: Ladder, h: History): Audiences {
    if h == [] then map[]
    else
      var answer := Told(After(ladder, Before(h)), Latest(h));
      if answer.Routing? && answer.moved.Some? then Executed(Executing(ladder, Before(h)), answer.moved.value)
      else Executing(ladder, Before(h))
  }

  ghost predicate Agrees(audiences: Audiences, routing: seq<WhoHears>) {
    forall i :: 0 <= i < |routing| ==>
      routing[i].talker in audiences && audiences[routing[i].talker] == routing[i].listeners
  }

  lemma {:induction false} FanOutTalkersApart(l: Live, now: Instant)
    requires SeatsApart(l.sessions)
    ensures forall i, j :: 0 <= i < j < |FanOut(l, now)| ==> FanOut(l, now)[i].talker != FanOut(l, now)[j].talker
  {
  }

  lemma {:induction false} OnlyTakingMovesIt(l: Live, e: Event)
    ensures !e.act.TakeTheRouting? ==> Step(l, e).lastRouting == l.lastRouting && !Told(l, e).Routing?
    ensures e.act.TakeTheRouting? ==>
      && Step(l, e).lastRouting == Some(FanOut(l, e.at))
      && Told(l, e) == Routing(if l.lastRouting == Some(FanOut(l, e.at)) then None else Some(FanOut(l, e.at)))
  {
  }

  lemma {:induction false} TheMediaPlaneAgrees(ladder: Ladder, h: History)
    requires Legal(h)
    ensures After(ladder, h).lastRouting.Some? ==> Agrees(Executing(ladder, h), After(ladder, h).lastRouting.value)
  {
    if h != [] {
      hide Step, Told, FanOut;
      var l, e := After(ladder, Before(h)), Latest(h);
      TheMediaPlaneAgrees(ladder, Before(h));
      EveryRunIsCoherent(ladder, Before(h));
      OnlyTakingMovesIt(l, e);
      FanOutTalkersApart(l, e.at);
      ExecutedExactly(Executing(ladder, Before(h)), FanOut(l, e.at));
    }
  }

  /** After every hand-down each live talker's audience in the media plane is the fan-out worked
      out from scratch; and an answer is given exactly when that differs from the last one. */
  lemma {:induction false} WhatIsExecutedIsTheFanOut(ladder: Ladder, h: History, now: Instant)
    requires Legal(h) && Clock(h) <= now
    ensures
      var l, take := After(ladder, h), Event(TakeTheRouting, now);
      && (forall s :: s in l.sessions ==>
            s.id in Executing(ladder, h + [take]) && Executing(ladder, h + [take])[s.id] == Audience(l, s, now))
      && (Told(l, take) == Routing(None) <==> l.lastRouting == Some(FanOut(l, now)))
      && (Told(l, take) != Routing(None) ==> Told(l, take) == Routing(Some(FanOut(l, now))))
      && After(ladder, h + [take]).sessions == l.sessions
  {
    hide After, Executing, Audience;
    var l, take := After(ladder, h), Event(TakeTheRouting, now);
    OneMore(ladder, h, take);
    TheMediaPlaneAgrees(ladder, h + [take]);
    forall s | s in l.sessions
      ensures s.id in Executing(ladder, h + [take]) && Executing(ladder, h + [take])[s.id] == Audience(l, s, now)
    {
      var i :| 0 <= i < |l.sessions| && l.sessions[i] == s;
      assert FanOut(l, now)[i] == WhoHears(s.id, Audience(l, s, now));
    }
  }

  // ---- Beacons ----------------------------------------------------------------------------

  lemma {:induction false} MonitoredInOrder(s: Session, subscriptions: seq<LoopId>)
    requires NoDuplicates(subscriptions)
    ensures NoDuplicates(MonitoredOf(s, subscriptions))
    ensures (forall on :: on in subscriptions ==> s.Monitors(on)) ==> MonitoredOf(s, subscriptions) == subscriptions
  {
    if subscriptions != [] { MonitoredInOrder(s, subscriptions[1..]); }
  }

  /** The carriage of a beacon reaches whoever could be told its health: a loop is in a
      listener's list exactly when that listener's document can say whether it is received. */
  lemma {:induction false} BeaconsReachWhoeverIsMeasured(ladder: Ladder, h: History, now: Instant, k: nat, on: LoopId)
    requires Legal(h) && k < |After(ladder, h).sessions|
    ensures
      var l := After(ladder, h);
      && |BeaconCarriage(l)| == |l.sessions|
      && NoDuplicates(BeaconCarriage(l)[k].on)
      && (on in BeaconCarriage(l)[k].on <==> on in l.sessions[k].subscriptions && Reaches(l.sessions[k].reach, on))
      && (l.sessions[k].ConnectionAt(ladder, now) == Confirmed ==>
            (on in BeaconCarriage(l)[k].on <==> l.sessions[k].HealthOf(on, ladder, now).Some?))
  {
    hide After, Step, Legal;
    EveryRunIsCoherent(ladder, h);
    var s := After(ladder, h).sessions[k];
    assert SessionOk(s);
    MonitoredInOrder(s, s.subscriptions);
    if on in s.subscriptions {
      var i :| 0 <= i < |s.subscriptions| && s.subscriptions[i] == on;
      assert s.beacons[i] in s.beacons && s.beacons[i].heldOn == on;
    }
  }

  // ---- Staffed means reachable by voice -----------------------------------------------------

  /** If a loop reads Staffed, somebody in a staffing role hears, on that loop, every other
      talker who has it armed and has not lost the channel. */
  lemma {:induction false} StaffedMeansReachable(ladder: Ladder, h: History, staffing: StaffedBy, now: Instant)
    requires Legal(h)
    ensures
      var l := After(ladder, h);
      StaffingOf(l, staffing, now) == Staffed ==>
        exists cover :: cover in l.sessions && cover.role in staffing.roles
          && forall talker :: talker in l.sessions && talker.id != cover.id && staffing.heldOn in talker.arms
               && talker.ConnectionAt(ladder, now) != Disconnected
               ==> Heard(cover.id, staffing.heldOn) in Audience(l, talker, now)
  {
    hide After, Step, Legal, Audience;
    EveryRunIsCoherent(ladder, h);
    LadderStands(ladder, h);
    var l := After(ladder, h);
    if StaffingOf(l, staffing, now) == Staffed {
      var cover :| cover in l.sessions && Occupies(cover, staffing) && Hearing(cover, staffing.heldOn, l.ladder, now);
      forall talker | talker in l.sessions && talker.id != cover.id && staffing.heldOn in talker.arms
          && talker.ConnectionAt(ladder, now) != Disconnected
        ensures Heard(cover.id, staffing.heldOn) in Audience(l, talker, now)
      {
        AudienceIsExact(l, talker, now);
      }
    }
  }
}
