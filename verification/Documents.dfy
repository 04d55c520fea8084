/** The presence document is never torn: what it says in one place agrees with what it says in
    every other, in every state any run reaches. */
module Documents {
  import opened Basics
  import opened Names
  import opened Deployment
  import opened Sessions
  import opened LiveState
  import opened Invariants

  /** The reach names each loop once. */
  ghost predicate OnceEach(within: seq<InReach>) {
    forall i, j :: 0 <= i < j < |within| ==> within[i].id != within[j].id
  }

  ghost predicate OnceStaffed(staffed: seq<StaffedBy>) {
    forall i, j :: 0 <= i < j < |staffed| ==> staffed[i].heldOn != staffed[j].heldOn
  }

  ghost predicate StandingWhole(p: Presence, s: Standing) {
    && (s.armed ==> s.heldOn.permission.Carries(Emit))
    && (s.muted ==> s.subscribed)
    && (s.priority ==> s.talking)
    && (p.keyed && s.armed ==> s.talking)
    && (p.priority && s.armed ==> s.priority)
    && (s.health.Some? <==> s.subscribed && p.connection == Confirmed)
    && (s.staffs ==> s.staffing.Some? && s.staffing.value != Vacant)
  }

  ghost predicate Whole(p: Presence) {
    && (p.priority ==> p.keyed)
    && (p.keyed ==> p.connection != Disconnected)
    && (forall s :: s in p.loops ==> StandingWhole(p, s))
  }

  lemma {:induction false} ArmedCarriesEmit(s: Session, within: seq<InReach>, i: nat)
    requires OnceEach(within) && i < |within|
    requires within[i].id in s.Within(within).arms
    ensures within[i].permission.Carries(Emit)
  {
    var on := within[i].id;
    var w :| w in within && w.id == on && w.permission.Carries(Emit);
    var j :| 0 <= j < |within| && within[j] == w;
  }

  lemma {:induction false} MonitoredHasHealth(s: Session, ladder: Ladder, now: Instant, on: LoopId)
    requires SessionOk(s) && Reaches(s.reach, on)
    ensures s.HealthOf(on, ladder, now).Some? <==> on in s.subscriptions && s.ConnectionAt(ladder, now) == Confirmed
  {
    if on in s.subscriptions {
      var i :| 0 <= i < |s.subscriptions| && s.subscriptions[i] == on;
      assert s.beacons[i].heldOn == on && s.beacons[i] in s.beacons;
    }
  }

  lemma {:induction false} FoundOnce(covered: seq<Covered>, i: nat)
    requires forall i, j :: 0 <= i < j < |covered| ==> covered[i].heldOn != covered[j].heldOn
    requires i < |covered|
    ensures StaffingFor(covered, covered[i].heldOn) == Some(covered[i].staffing)
  {
    if i > 0 { FoundOnce(covered[1..], i - 1); }
  }

  lemma {:induction false} StaffsIsNotVacant(l: Live, k: nat, staffed: seq<StaffedBy>, now: Instant, on: LoopId)
    requires k < |l.sessions| && OnceStaffed(staffed)
    requires exists entry :: entry in staffed && entry.heldOn == on && l.sessions[k].role in entry.roles
    ensures StaffingFor(TheStaffingOf(l, staffed, now), on).Some?
    ensures StaffingFor(TheStaffingOf(l, staffed, now), on).value != Vacant
  {
    var entry :| entry in staffed && entry.heldOn == on && l.sessions[k].role in entry.roles;
    var i :| 0 <= i < |staffed| && staffed[i] == entry;
    FoundOnce(TheStaffingOf(l, staffed, now), i);
    assert l.sessions[k] in l.sessions && Occupies(l.sessions[k], entry);
  }

  lemma {:induction false} StandingIsWhole(l: Live, k: nat, staffed: seq<StaffedBy>, now: Instant, i: nat)
    requires k < |l.sessions| && SessionOk(l.sessions[k]) && OnceStaffed(staffed)
    requires i < |l.sessions[k].reach|
    requires l.sessions[k].reach[i].id in l.sessions[k].arms ==> l.sessions[k].reach[i].permission.Carries(Emit)
    ensures var p := DocumentOf(l, l.sessions[k], staffed, now);
      |p.loops| == |l.sessions[k].reach| && p.loops[i].heldOn == l.sessions[k].reach[i] && StandingWhole(p, p.loops[i])
  {
    var s := l.sessions[k];
    var on := s.reach[i].id;
    MonitoredHasHealth(s, l.ladder, now, on);
    if exists entry :: entry in staffed && entry.heldOn == on && s.role in entry.roles {
      StaffsIsNotVacant(l, k, staffed, now, on);
    }
    assert s in l.sessions;
  }

  /** Every document any run hands out is whole, and is a row for each loop in the reach it
      was handed, in that order. */
  lemma {:induction false} NoDocumentIsTorn(ladder: Ladder, h: History, e: Event)
    requires Legal(h) && e.act.Project?
    requires OnceEach(e.act.within) && OnceStaffed(e.act.staffed)
    ensures
      var issued := Told(After(ladder, h), e).issued;
      && (issued.Some? <==> IsLive(After(ladder, h).sessions, e.act.projected))
      && (issued.Some? ==>
            && Whole(issued.value.document)
            && |issued.value.document.loops| == |e.act.within|
            && forall i :: 0 <= i < |e.act.within| ==> issued.value.document.loops[i].heldOn == e.act.within[i])
  {
    var l := After(ladder, h);
    EveryRunIsCoherent(ladder, h);
    if IsLive(l.sessions, e.act.projected) {
      var k := At(l.sessions, e.act.projected);
      ProjectionIsWhole(l, k, e.act.within, e.act.staffed, e.at);
    }
  }

  lemma {:induction false} ProjectionIsWhole(l: Live, k: nat, within: seq<InReach>, staffed: seq<StaffedBy>,
      now: Instant)
    requires k < |l.sessions| && SessionOk(l.sessions[k])
    requires OnceEach(within) && OnceStaffed(staffed)
    ensures var p := Projected(l, k, within, staffed, now);
      && Whole(p) && |p.loops| == |within|
      && forall i :: 0 <= i < |within| ==> p.loops[i].heldOn == within[i]
  {
    var reached := Reached(l, k, within);
    var p := Projected(l, k, within, staffed, now);
    forall i | 0 <= i < |within|
      ensures |p.loops| == |within| && p.loops[i].heldOn == within[i] && StandingWhole(p, p.loops[i])
    {
      if within[i].id in l.sessions[k].Within(within).arms { ArmedCarriesEmit(l.sessions[k], within, i); }
      StandingIsWhole(reached, k, staffed, now, i);
    }
  }
}
