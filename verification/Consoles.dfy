/** What a console is told is what was last said: every field of a document, read off the run it
    was issued in. */
module Consoles {
  import opened Basics
  import opened Names
  import opened Deployment
  import opened Sessions
  import opened LiveState
  import opened Invariants
  import opened Runs
  import opened Health
  import opened Channel
  import opened LastWords

  // ---- What a projection does not move ------------------------------------------------------------

  /** The two sessions differ in nothing a document is worked out from. */
  ghost predicate AsSeen(s: Session, t: Session) {
    t == s.(version := t.version, last := t.last)
  }

  lemma {:induction false} ShownIsSeenTheSame(s: Session, document: Presence)
    ensures AsSeen(s, s.Shown(document))
  {
  }

  lemma {:induction false} ItselfIsSeenTheSame(s: Session)
    ensures AsSeen(s, s)
  {
  }

  lemma {:induction false} SeenTheSame(s: Session, t: Session, ladder: Ladder, now: Instant, on: LoopId)
    requires AsSeen(s, t)
    ensures s.ConnectionAt(ladder, now) == t.ConnectionAt(ladder, now)
    ensures s.HealthOf(on, ladder, now) == t.HealthOf(on, ladder, now)
    ensures s.WhyNotHearing(on, ladder, now) == t.WhyNotHearing(on, ladder, now)
    ensures s.AssertedAt(now) == t.AssertedAt(now) && s.Path() == t.Path()
    ensures forall fact :: Stands(s, fact) == Stands(t, fact)
  {
  }

  ghost predicate AllAsSeen(a: seq<Session>, b: seq<Session>) {
    |a| == |b| && forall i :: 0 <= i < |a| ==> AsSeen(a[i], b[i])
  }

  lemma {:induction false} CountSeenTheSame(
    a: seq<Session>, b: seq<Session>, by_: StaffedBy, ladder: Ladder, now: Instant, reason: NotHearing)
    requires AllAsSeen(a, b)
    ensures CountFor(a, by_, ladder, now, reason) == CountFor(b, by_, ladder, now, reason)
  {
    if a != [] {
      var n := |a| - 1;
      CountSeenTheSame(a[..n], b[..n], by_, ladder, now, reason);
      SeenTheSame(a[n], b[n], ladder, now, by_.heldOn);
    }
  }

  lemma {:induction false} StaffingSeenTheSame(l: Live, m: Live, by_: StaffedBy, now: Instant)
    requires l.ladder == m.ladder && AllAsSeen(l.sessions, m.sessions)
    ensures StaffingOf(l, by_, now) == StaffingOf(m, by_, now)
  {
    hide CountFor, NonZero, AsSeen, Occupies, Hearing, AllAsSeen, CountsFor;
    var a, b, ladder := l.sessions, m.sessions, l.ladder;
    OccupancySeenTheSame(a, b, by_, ladder, now);
    CountsSeenTheSame(a, b, by_, ladder, now);
  }

  lemma {:induction false} OccupancySeenTheSame(
    a: seq<Session>, b: seq<Session>, by_: StaffedBy, ladder: Ladder, now: Instant)
    requires AllAsSeen(a, b)
    ensures |a| == |b|
    ensures forall i :: 0 <= i < |a| ==>
      && (Occupies(a[i], by_) <==> Occupies(b[i], by_))
      && (Hearing(a[i], by_.heldOn, ladder, now) <==> Hearing(b[i], by_.heldOn, ladder, now))
    ensures (forall s :: s in a ==> !Occupies(s, by_)) <==> (forall s :: s in b ==> !Occupies(s, by_))
    ensures (exists s :: s in a && Occupies(s, by_) && Hearing(s, by_.heldOn, ladder, now)) <==>
      (exists s :: s in b && Occupies(s, by_) && Hearing(s, by_.heldOn, ladder, now))
  {
    hide AsSeen;
    forall i | 0 <= i < |a|
      ensures a[i] in a && b[i] in b
      ensures Occupies(a[i], by_) == Occupies(b[i], by_)
      ensures Hearing(a[i], by_.heldOn, ladder, now) == Hearing(b[i], by_.heldOn, ladder, now)
    {
      SeenInTheSameRole(a[i], b[i]);
      SeenTheSame(a[i], b[i], ladder, now, by_.heldOn);
    }
    hide Occupies, Hearing;
  }

  lemma {:induction false} CountsSeenTheSame(
    a: seq<Session>, b: seq<Session>, by_: StaffedBy, ladder: Ladder, now: Instant)
    requires AllAsSeen(a, b)
    ensures CountsFor(a, by_, ladder, now) == CountsFor(b, by_, ladder, now)
  {
    hide CountFor, AllAsSeen;
    forall reason ensures CountFor(a, by_, ladder, now, reason) == CountFor(b, by_, ladder, now, reason) {
      CountSeenTheSame(a, b, by_, ladder, now, reason);
    }
  }

  lemma {:induction false} SeenInTheSameRole(s: Session, t: Session)
    requires AsSeen(s, t)
    ensures s.role == t.role && s.id == t.id
  {
  }

  lemma {:induction false} TheProjectionStep(l: Live, e: Event)
    requires e.act.Project? && IsLive(l.sessions, e.act.projected)
    ensures
      var k, after := At(l.sessions, e.act.projected), Step(l, e);
      var document := Projected(l, k, e.act.within, e.act.staffed, e.at);
      && Told(l, e).Document? && Told(l, e).issued.Some? && Told(l, e).issued.value.document == document
      && after.ladder == l.ladder && |after.sessions| == |l.sessions|
      && after.sessions[k] == l.sessions[k].Within(e.act.within).Shown(document)
      && (forall i :: 0 <= i < |l.sessions| && i != k ==> after.sessions[i] == l.sessions[i])
      && IsLive(after.sessions, e.act.projected) && At(after.sessions, e.act.projected) == k
  {
    hide Projected;
    SeatsStand(l, e);
    SameSeats(l.sessions, Step(l, e).sessions, e.act.projected);
  }

  // ---- Who is speaking ----------------------------------------------------------------------------

  /** Somebody is speaking on that loop: keyed, armed on it, and not cut off. */
  ghost predicate SomebodySpeaks(l: Live, on: LoopId, now: Instant) {
    exists s :: s in l.sessions && Stands(s, IsKeyed) && Stands(s, IsArmed(on))
      && s.ConnectionAt(l.ladder, now) != Disconnected
  }

  /** And pressing for priority while they do. */
  ghost predicate SomebodySpeaksAtPriority(l: Live, on: LoopId, now: Instant) {
    exists s :: s in l.sessions && Stands(s, IsPressing) && Stands(s, IsKeyed) && Stands(s, IsArmed(on))
      && s.ConnectionAt(l.ladder, now) != Disconnected
  }

  lemma {:induction false} SpeakingSeenTheSame(l: Live, m: Live, on: LoopId, now: Instant)
    requires l.ladder == m.ladder && AllAsSeen(l.sessions, m.sessions)
    ensures SomebodySpeaks(l, on, now) == SomebodySpeaks(m, on, now)
    ensures SomebodySpeaksAtPriority(l, on, now) == SomebodySpeaksAtPriority(m, on, now)
  {
    hide Stands, AsSeen;
    forall i | 0 <= i < |l.sessions|
      ensures l.sessions[i] in l.sessions && m.sessions[i] in m.sessions
      ensures l.sessions[i].ConnectionAt(l.ladder, now) == m.sessions[i].ConnectionAt(l.ladder, now)
      ensures forall fact :: Stands(l.sessions[i], fact) == Stands(m.sessions[i], fact)
    {
      SeenTheSame(l.sessions[i], m.sessions[i], l.ladder, now, on);
    }
  }

  lemma {:induction false} WhoeverSpeaksIsSpokenOn(l: Live, on: LoopId, now: Instant)
    ensures on in SpokenOn(l.sessions, l.ladder, now) <==> SomebodySpeaks(l, on, now)
    ensures on in SpokenOnAtPriority(l.sessions, l.ladder, now) <==> SomebodySpeaksAtPriority(l, on, now)
  {
  }

  // ---- A document against the state it is issued in -------------------------------------------------

  /** What one row says of its own session and of whoever is speaking. */
  ghost predicate RowTells(row: Standing, s: Session, l: Live, on: LoopId, now: Instant) {
    && (row.subscribed <==> Stands(s, IsMonitored(on)))
    && (row.muted <==> Stands(s, IsMuted(on)))
    && (row.armed <==> Stands(s, IsArmed(on)))
    && (forall volume :: Stands(s, IsAsLoudAs(on, volume)) ==> row.volume == volume)
    && ((forall volume :: !Stands(s, IsAsLoudAs(on, volume))) ==> row.volume == UNITY)
    && (row.talking <==> SomebodySpeaks(l, on, now))
    && (row.priority <==> SomebodySpeaksAtPriority(l, on, now))
    && row.health == s.HealthOf(on, l.ladder, now)
  }

  /** What one row says of who staffs the loop: the state of some staffing of it handed in, nothing
      where there is none, and whether this role is in it. */
  ghost predicate RowCounts(row: Standing, l: Live, staffed: seq<StaffedBy>, role: RoleId, on: LoopId, now: Instant) {
    && (row.staffing.None? <==> forall by_ :: by_ in staffed ==> by_.heldOn != on)
    && (row.staffing.Some? ==>
          exists by_ :: by_ in staffed && by_.heldOn == on && row.staffing.value == StaffingOf(l, by_, now))
    && (row.staffs <==> exists by_ :: by_ in staffed && by_.heldOn == on && role in by_.roles)
  }

  lemma {:induction false} ARowTells(l: Live, k: nat, staffed: seq<StaffedBy>, now: Instant, i: nat)
    requires k < |l.sessions| && i < |l.sessions[k].reach|
    ensures
      var s, p := l.sessions[k], DocumentOf(l, l.sessions[k], staffed, now);
      |p.loops| == |s.reach| && p.loops[i].heldOn == s.reach[i] && RowTells(p.loops[i], s, l, s.reach[i].id, now)
  {
    hide SpokenOn, SpokenOnAtPriority, SomebodySpeaks, SomebodySpeaksAtPriority, TheStaffingOf;
    var s, on := l.sessions[k], l.sessions[k].reach[i].id;
    WhoeverSpeaksIsSpokenOn(l, on, now);
    if VolumeOn(s.volumes, on).Some? { assert Stands(s, IsAsLoudAs(on, VolumeOn(s.volumes, on).value)); }
  }

  lemma {:induction false} ARowCounts(l: Live, k: nat, staffed: seq<StaffedBy>, now: Instant, i: nat)
    requires k < |l.sessions| && i < |l.sessions[k].reach|
    ensures
      var s, p := l.sessions[k], DocumentOf(l, l.sessions[k], staffed, now);
      |p.loops| == |s.reach| && RowCounts(p.loops[i], l, staffed, s.role, s.reach[i].id, now)
  {
    hide SpokenOn, SpokenOnAtPriority, StaffingOf, StaffingFor;
    var on, covered := l.sessions[k].reach[i].id, TheStaffingOf(l, staffed, now);
    if StaffingFor(covered, on).Some? {
      var j :| 0 <= j < |covered| && covered[j] == Covered(on, StaffingFor(covered, on).value);
      assert staffed[j] in staffed;
    } else {
      forall by_ | by_ in staffed ensures by_.heldOn != on {
        var j :| 0 <= j < |staffed| && staffed[j] == by_;
        assert covered[j] in covered;
      }
    }
  }

  lemma {:induction false} TellsTheSame(
    row: Standing, s: Session, t: Session, l: Live, m: Live, on: LoopId, now: Instant)
    requires AsSeen(s, t) && l.ladder == m.ladder
    requires SomebodySpeaks(l, on, now) == SomebodySpeaks(m, on, now)
    requires SomebodySpeaksAtPriority(l, on, now) == SomebodySpeaksAtPriority(m, on, now)
    requires RowTells(row, s, l, on, now)
    ensures RowTells(row, t, m, on, now)
  {
    hide SomebodySpeaks, SomebodySpeaksAtPriority, Stands;
    SeenTheSame(s, t, l.ladder, now, on);
  }

  lemma {:induction false} CountsTheSame(
    row: Standing, l: Live, m: Live, staffed: seq<StaffedBy>, role: RoleId, on: LoopId, now: Instant)
    requires l.ladder == m.ladder && AllAsSeen(l.sessions, m.sessions) && RowCounts(row, l, staffed, role, on, now)
    ensures RowCounts(row, m, staffed, role, on, now)
  {
    hide StaffingOf, AllAsSeen;
    forall by_ | by_ in staffed ensures StaffingOf(l, by_, now) == StaffingOf(m, by_, now) {
      StaffingSeenTheSame(l, m, by_, now);
    }
  }

  /** What a document says of its own session. */
  ghost predicate HeadTells(p: Presence, s: Session, ladder: Ladder, now: Instant) {
    && p.session == s.id && p.role == s.role
    && p.connection == s.ConnectionAt(ladder, now) && p.mediaPath == s.Path()
    && p.offConsole == s.AssertedAt(now)
    && (p.keyed <==> Stands(s, IsKeyed) && p.connection != Disconnected)
    && (p.priority <==> Stands(s, IsPressing) && p.keyed)
  }

  lemma {:induction false} AHeadTells(l: Live, s: Session, t: Session, staffed: seq<StaffedBy>, now: Instant)
    requires AsSeen(s, t)
    ensures HeadTells(DocumentOf(l, s, staffed, now), t, l.ladder, now)
  {
    hide SpokenOn, SpokenOnAtPriority, TheStaffingOf, StandingsOn;
  }

  lemma {:induction false} ItIsTheDocument(l: Live, k: nat, within: seq<InReach>, staffed: seq<StaffedBy>, now: Instant)
    requires k < |l.sessions|
    ensures
      var reached := Reached(l, k, within);
      && Projected(l, k, within, staffed, now) == DocumentOf(reached, reached.sessions[k], staffed, now)
      && reached.sessions[k].reach == within
  {
    hide StillRouted, DocumentOf;
  }

  lemma {:induction false} OnceIssuedAsSeen(l: Live, e: Event)
    requires e.act.Project? && IsLive(l.sessions, e.act.projected)
    ensures
      var reached := Reached(l, At(l.sessions, e.act.projected), e.act.within);
      AllAsSeen(reached.sessions, Step(l, e).sessions) && reached.ladder == Step(l, e).ladder
  {
    hide Step, Told, Projected, AsSeen, StillRouted;
    TheProjectionStep(l, e);
    var k := At(l.sessions, e.act.projected);
    var reached, after := Reached(l, k, e.act.within), Step(l, e);
    forall j | 0 <= j < |l.sessions| ensures AsSeen(reached.sessions[j], after.sessions[j]) {
      if j == k {
        ShownIsSeenTheSame(reached.sessions[k], Projected(l, k, e.act.within, e.act.staffed, e.at));
      } else {
        ItselfIsSeenTheSame(l.sessions[j]);
      }
    }
  }

  /** The document as it stands against the state its projection leaves. */
  lemma {:induction false} TheDocumentOnceIssued(l: Live, e: Event, i: nat)
    requires e.act.Project? && IsLive(l.sessions, e.act.projected) && i < |e.act.within|
    ensures
      var after, on := Step(l, e), e.act.within[i].id;
      && Told(l, e).Document? && Told(l, e).issued.Some? && IsLive(after.sessions, e.act.projected)
      && var p, s := Told(l, e).issued.value.document, Held(after.sessions, e.act.projected);
         && |p.loops| == |e.act.within| && s.reach == e.act.within && p.loops[i].heldOn == e.act.within[i]
         && RowTells(p.loops[i], s, after, on, e.at) && RowCounts(p.loops[i], after, e.act.staffed, p.role, on, e.at)
         && HeadTells(p, s, l.ladder, e.at)
  {
    hide Step, Told, Projected, SomebodySpeaks, SomebodySpeaksAtPriority, RowTells, RowCounts, DocumentOf;
    hide AsSeen, StillRouted, AllAsSeen, Stands;
    TheProjectionStep(l, e);
    OnceIssuedAsSeen(l, e);
    var k, on, staffed := At(l.sessions, e.act.projected), e.act.within[i].id, e.act.staffed;
    var reached, after := Reached(l, k, e.act.within), Step(l, e);
    ItIsTheDocument(l, k, e.act.within, staffed, e.at);
    ShownIsSeenTheSame(reached.sessions[k], Projected(l, k, e.act.within, staffed, e.at));
    ARowTells(reached, k, staffed, e.at, i);
    ARowCounts(reached, k, staffed, e.at, i);
    SpeakingSeenTheSame(reached, after, on, e.at);
    var p := DocumentOf(reached, reached.sessions[k], staffed, e.at);
    TellsTheSame(p.loops[i], reached.sessions[k], after.sessions[k], reached, after, on, e.at);
    CountsTheSame(p.loops[i], reached, after, staffed, reached.sessions[k].role, on, e.at);
    AHeadTells(reached, reached.sessions[k], after.sessions[k], staffed, e.at);
    SeenInTheSameRole(reached.sessions[k], after.sessions[k]);
  }

  // ---- A document against the whole run -------------------------------------------------------------

  /** Somebody's last words are keyed and armed on that loop, and their channel still carries. */
  ghost predicate SaidToSpeak(ladder: Ladder, h: History, on: LoopId, now: Instant) {
    exists s :: s in After(ladder, h).sessions && Holds(h, s.id, IsKeyed) && Holds(h, s.id, IsArmed(on))
      && s.ConnectionAt(ladder, now) != Disconnected
  }

  /** And pressing for priority besides. */
  ghost predicate SaidToSpeakAtPriority(ladder: Ladder, h: History, on: LoopId, now: Instant) {
    exists s :: s in After(ladder, h).sessions && Holds(h, s.id, IsPressing) && Holds(h, s.id, IsKeyed)
      && Holds(h, s.id, IsArmed(on)) && s.ConnectionAt(ladder, now) != Disconnected
  }

  lemma {:induction false} WhoeverSpeaksSaidSo(ladder: Ladder, h: History, on: LoopId, now: Instant)
    requires Legal(h)
    ensures SomebodySpeaks(After(ladder, h), on, now) <==> SaidToSpeak(ladder, h, on, now)
    ensures SomebodySpeaksAtPriority(After(ladder, h), on, now) <==> SaidToSpeakAtPriority(ladder, h, on, now)
  {
    hide After, Legal, Stands, Holds, Coherent;
    EveryRunIsCoherent(ladder, h);
    LadderStands(ladder, h);
    var l := After(ladder, h);
    assert SeatsApart(l.sessions) by { SeatsAreApart(l, MintedIn(h)); }
    forall s | s in l.sessions
      ensures Stands(s, IsKeyed) == Holds(h, s.id, IsKeyed) && Stands(s, IsArmed(on)) == Holds(h, s.id, IsArmed(on))
      ensures Stands(s, IsPressing) == Holds(h, s.id, IsPressing)
    {
      FoundAmong(l.sessions, s);
      TheLastWordStands(ladder, h, s.id, IsKeyed);
      TheLastWordStands(ladder, h, s.id, IsPressing);
      TheLastWordStands(ladder, h, s.id, IsArmed(on));
    }
  }

  lemma {:induction false} SeatsAreApart(l: Live, minted: set<SessionId>)
    requires Coherent(l, minted)
    ensures SeatsApart(l.sessions)
  {
  }

  /** What a document issued at the end of a run says of one loop in reach is what was last said in
      that run: by its own session of what it monitors, mutes, arms and plays, by everybody of who
      is talking and who at priority, and by the reports of its health, where it is measured. */
  ghost predicate RowTellsTheRun(
    ladder: Ladder, h: History, id: SessionId, p: Presence, row: Standing, on: LoopId, now: Instant)
  {
    && (row.subscribed <==> Holds(h, id, IsMonitored(on)))
    && (row.muted <==> Holds(h, id, IsMuted(on)))
    && (row.armed <==> Holds(h, id, IsArmed(on)))
    && (forall volume :: Holds(h, id, IsAsLoudAs(on, volume)) ==> row.volume == volume)
    && ((forall volume :: !Holds(h, id, IsAsLoudAs(on, volume))) ==> row.volume == UNITY)
    && (row.talking <==> SaidToSpeak(ladder, h, on, now))
    && (row.priority <==> SaidToSpeakAtPriority(ladder, h, on, now))
    && (if row.subscribed && p.connection == Confirmed
        then LogOf(ladder, h, id, on) != [] && row.health == Some(HealthFrom(LogOf(ladder, h, id, on), now))
        else row.health == None)
  }

  /** What it says of its own session: the seat it was taken in, the worse of the two path readings
      last given, and the assertion with its age, the key and the press as they were last said. */
  ghost predicate HeadTellsTheRun(h: History, id: SessionId, p: Presence, now: Instant) {
    && p.session == id
    && (forall role :: Holds(h, id, SitsIn(role)) <==> p.role == role)
    && (forall said, seen ::
          Holds(h, id, ReadsItself(said)) && Holds(h, id, IsSeenAs(seen)) ==>
            p.mediaPath == said.PessimisticallyWith(seen))
    && (p.offConsole.Some? <==> Holds(h, id, IsAway))
    && (forall at ::
          Holds(h, id, WasActiveAt(at)) && p.offConsole.Some? ==>
            p.offConsole.value.lastActiveSeconds == Since(now, at) / SECOND)
    && (p.keyed <==> Holds(h, id, IsKeyed) && p.connection != Disconnected)
    && (p.priority <==> Holds(h, id, IsPressing) && p.keyed)
  }

  /** And of its channel: gone, or placed by how long ago it was last heard from. */
  ghost predicate ChannelTellsTheRun(ladder: Ladder, h: History, id: SessionId, p: Presence, now: Instant) {
    && LastHeard(ladder, h, id).Some?
    && var gap := Since(now, LastHeard(ladder, h, id).value);
       p.connection
         == if KnownGone(ladder, h, id) then Disconnected
            else if gap < ladder.unconfirmed * SECOND then Confirmed
            else if gap < ladder.disconnected * SECOND then Unconfirmed
            else Disconnected
  }

  lemma {:induction false} RowsTellTheLastWord(
    ladder: Ladder, h: History, id: SessionId, p: Presence, row: Standing, on: LoopId, now: Instant)
    requires Legal(h) && Clock(h) <= now && IsLive(After(ladder, h).sessions, id)
    requires RowTells(row, Held(After(ladder, h).sessions, id), After(ladder, h), on, now)
    requires Reaches(Held(After(ladder, h).sessions, id).reach, on)
    requires p.connection == Held(After(ladder, h).sessions, id).ConnectionAt(ladder, now)
    ensures RowTellsTheRun(ladder, h, id, p, row, on, now)
  {
    hide After, Legal, Stands, Holds, SaidToSpeak, SomebodySpeaks, SomebodySpeaksAtPriority, SaidToSpeakAtPriority;
    hide Reaches, LogOf, HealthFrom;
    var s := Held(After(ladder, h).sessions, id);
    WhoeverSpeaksSaidSo(ladder, h, on, now);
    LadderStands(ladder, h);
    HealthIsWhatWasReported(ladder, h, id, on, now);
    TheLastWordStands(ladder, h, id, IsMonitored(on));
    TheLastWordStands(ladder, h, id, IsMuted(on));
    TheLastWordStands(ladder, h, id, IsArmed(on));
    assert Stands(s, IsMonitored(on)) <==> s.Monitors(on) by { MonitoredWithinReach(s, on); }
    forall volume ensures Stands(s, IsAsLoudAs(on, volume)) == Holds(h, id, IsAsLoudAs(on, volume)) {
      TheLastWordStands(ladder, h, id, IsAsLoudAs(on, volume));
    }
  }

  lemma {:induction false} MonitoredWithinReach(s: Session, on: LoopId)
    requires Reaches(s.reach, on)
    ensures Stands(s, IsMonitored(on)) <==> s.Monitors(on)
  {
  }

  lemma {:induction false} TheHeadTellsTheLastWord(ladder: Ladder, h: History, id: SessionId, p: Presence, now: Instant)
    requires Legal(h) && IsLive(After(ladder, h).sessions, id)
    requires HeadTells(p, Held(After(ladder, h).sessions, id), ladder, now)
    ensures HeadTellsTheRun(h, id, p, now)
  {
    hide After, Legal, Holds;
    forall fact ensures Stands(Held(After(ladder, h).sessions, id), fact) == Holds(h, id, fact) {
      TheLastWordStands(ladder, h, id, fact);
    }
  }

  lemma {:induction false} ItselfInReach(within: seq<InReach>, i: nat)
    requires i < |within|
    ensures Reaches(within, within[i].id)
  {
  }

  /** Every document any run issues tells that run, field by field and row by row. */
  lemma {:induction false} ADocumentTellsTheRun(ladder: Ladder, h: History, e: Event, i: nat)
    requires Legal(h) && MayFollow(h, e) && e.act.Project? && i < |e.act.within|
    ensures IsLive(After(ladder, h).sessions, e.act.projected) ==>
      var id, issued, on, run := e.act.projected, Told(After(ladder, h), e).issued, e.act.within[i].id, h + [e];
      && issued.Some? && |issued.value.document.loops| == |e.act.within|
      && var p, row := issued.value.document, issued.value.document.loops[i];
         && row.heldOn == e.act.within[i] && HeadTellsTheRun(run, id, p, e.at)
         && (ladder.Accepted() ==> ChannelTellsTheRun(ladder, run, id, p, e.at))
         && RowTellsTheRun(ladder, run, id, p, row, on, e.at)
         && RowCounts(row, After(ladder, run), e.act.staffed, p.role, on, e.at)
  {
    hide After, Legal, Stands, Holds, SaidToSpeak, Step, Told, RowTells, RowCounts, HeadTellsTheRun, RowTellsTheRun;
    hide LastHeard, KnownGone, Reaches;
    var l, id, run := After(ladder, h), e.act.projected, h + [e];
    if IsLive(l.sessions, id) {
      OneMore(ladder, h, e);
      LadderStands(ladder, h);
      TheDocumentOnceIssued(l, e, i);
      assert Clock(run) == e.at;
      var p, on := Told(l, e).issued.value.document, e.act.within[i].id;
      ItselfInReach(e.act.within, i);
      RowsTellTheLastWord(ladder, run, id, p, p.loops[i], on, e.at);
      TheHeadTellsTheLastWord(ladder, run, id, p, e.at);
      if ladder.Accepted() { TheRungIsWhatWasHeard(ladder, run, id, e.at); }
    }
  }
}
