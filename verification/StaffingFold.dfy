/** Staffing state is a faithful fold over every occupant of every staffing role: nothing about
    the order the sessions are in, or about the early answer, shows in it. */
module StaffingFold {
  import opened Basics
  import opened Names
  import opened Deployment
  import opened Sessions
  import opened LiveState
  import opened Invariants

  // ---- One occupant -----------------------------------------------------------------------

  /** Each reason on its own, whatever else is true of the session. */
  ghost predicate Stands(reason: NotHearing, s: Session, on: LoopId, ladder: Ladder, now: Instant) {
    match reason
    case Unreachable => s.ConnectionAt(ladder, now) == Disconnected
    case OffConsole => s.offConsole
    case NotSubscribed => on !in s.subscriptions || !Reaches(s.reach, on)
    case NotReceiving => s.HealthOf(on, ladder, now) == Some(LoopHealth.NotReceiving)
    case Muted => on in s.mutes
  }

  ghost predicate NothingStands(s: Session, on: LoopId, ladder: Ladder, now: Instant) {
    forall reason: NotHearing :: !Stands(reason, s, on, ladder, now)
  }

  /** The reason given is the furthest upstream of those that stand, and none is given exactly
      when none stands. */
  lemma {:induction false} TheReasonIsFurthestUpstream(s: Session, on: LoopId, ladder: Ladder, now: Instant)
    ensures forall reason :: s.WhyNotHearing(on, ladder, now) == Some(reason) <==>
      Stands(reason, s, on, ladder, now)
      && forall other: NotHearing :: other.Order() < reason.Order() ==> !Stands(other, s, on, ladder, now)
    ensures s.WhyNotHearing(on, ladder, now).None? <==> NothingStands(s, on, ladder, now)
  {
    assert Unreachable.Order() < OffConsole.Order() < NotSubscribed.Order()
      < NotHearing.NotReceiving.Order() < Muted.Order();
    var why := s.WhyNotHearing(on, ladder, now);
    if why.Some? {
      assert Stands(why.value, s, on, ladder, now);
      forall reason | Stands(reason, s, on, ladder, now) && reason != why.value
        ensures why.value.Order() < reason.Order()
      {
      }
    }
  }

  // ---- Everybody counted ------------------------------------------------------------------

  ghost function AwayFor(sessions: seq<Session>, staffing: StaffedBy, ladder: Ladder, now: Instant,
      reason: NotHearing): set<Session> {
    set s | s in sessions && AwayFrom(s, staffing, ladder, now, reason)
  }

  ghost function Occupants(sessions: seq<Session>, staffing: StaffedBy): set<Session> {
    set s | s in sessions && Occupies(s, staffing)
  }

  lemma {:induction false} AwayGrows(front: seq<Session>, last: Session, staffing: StaffedBy, ladder: Ladder,
      now: Instant, reason: NotHearing)
    ensures AwayFor(front + [last], staffing, ladder, now, reason)
         == AwayFor(front, staffing, ladder, now, reason)
            + if AwayFrom(last, staffing, ladder, now, reason) then {last} else {}
  {
    hide AwayFrom;
    forall s ensures s in front + [last] <==> s in front || s == last {
    }
  }

  lemma {:induction false} DistinctFront(front: seq<Session>, last: Session)
    requires NoDuplicates(front + [last])
    ensures NoDuplicates(front) && last !in front
  {
    var all := front + [last];
    forall i, j | 0 <= i < j < |front| ensures front[i] != front[j] {
      assert all[i] != all[j];
    }
    forall i | 0 <= i < |front| ensures front[i] != last {
      assert all[i] != all[|front|];
    }
  }

  lemma {:induction false} CountIsOfOccupants(sessions: seq<Session>, staffing: StaffedBy, ladder: Ladder,
      now: Instant, reason: NotHearing)
    requires NoDuplicates(sessions)
    ensures CountFor(sessions, staffing, ladder, now, reason) == |AwayFor(sessions, staffing, ladder, now, reason)|
  {
    if sessions != [] {
      hide AwayFrom, NoDuplicates;
      var front, last := sessions[..|sessions| - 1], sessions[|sessions| - 1];
      assert sessions == front + [last];
      DistinctFront(front, last);
      CountIsOfOccupants(front, staffing, ladder, now, reason);
      AwayGrows(front, last, staffing, ladder, now, reason);
      assert last !in AwayFor(front, staffing, ladder, now, reason);
    }
  }

  ghost function Sum(counts: seq<nat>): nat {
    if counts == [] then 0 else counts[0] + Sum(counts[1..])
  }

  ghost function SumOf(tallies: seq<Tally>): nat {
    if tallies == [] then 0 else tallies[0].occupants + SumOf(tallies[1..])
  }

  lemma {:induction false} NonZeroExactly(reasons: seq<NotHearing>, counts: seq<nat>)
    requires |reasons| == |counts|
    ensures forall t :: t in NonZero(reasons, counts) <==>
      t.occupants > 0 && exists i :: 0 <= i < |reasons| && reasons[i] == t.reason && counts[i] == t.occupants
    ensures SumOf(NonZero(reasons, counts)) == Sum(counts)
  {
    if reasons != [] {
      NonZeroExactly(reasons[1..], counts[1..]);
      var rest := NonZero(reasons[1..], counts[1..]);
      var all := NonZero(reasons, counts);
      if counts[0] > 0 {
        assert all[1..] == rest;
      } else {
        assert all == rest;
      }
      forall t ensures t in all <==>
        t.occupants > 0 && exists i :: 0 <= i < |reasons| && reasons[i] == t.reason && counts[i] == t.occupants
      {
        if t in rest {
          var i :| 0 <= i < |reasons[1..]| && reasons[1..][i] == t.reason && counts[1..][i] == t.occupants;
          assert reasons[i + 1] == t.reason && counts[i + 1] == t.occupants;
        }
        if t.occupants > 0 && exists i :: 0 <= i < |reasons| && reasons[i] == t.reason && counts[i] == t.occupants {
          var i :| 0 <= i < |reasons| && reasons[i] == t.reason && counts[i] == t.occupants;
          if i > 0 { assert reasons[1..][i - 1] == t.reason && counts[1..][i - 1] == t.occupants; }
        }
      }
    }
  }

  ghost predicate Climbing(reasons: seq<NotHearing>) {
    forall i, j :: 0 <= i < j < |reasons| ==> reasons[i].Order() < reasons[j].Order()
  }

  ghost predicate UpstreamFirst(tallies: seq<Tally>) {
    forall i, j :: 0 <= i < j < |tallies| ==> tallies[i].reason.Order() < tallies[j].reason.Order()
  }

  lemma {:induction false} NonZeroKeepsTheOrder(reasons: seq<NotHearing>, counts: seq<nat>)
    requires |reasons| == |counts| && Climbing(reasons)
    ensures UpstreamFirst(NonZero(reasons, counts))
    ensures forall t :: t in NonZero(reasons, counts) ==> t.reason in reasons
  {
    if reasons != [] {
      NonZeroKeepsTheOrder(reasons[1..], counts[1..]);
      forall r | r in reasons[1..] ensures reasons[0].Order() < r.Order() {
        var i :| 0 <= i < |reasons[1..]| && reasons[1..][i] == r;
        assert reasons[i + 1] == r;
      }
    }
  }

  ghost function CountOccupants(sessions: seq<Session>, staffing: StaffedBy): nat {
    if sessions == [] then 0
    else CountOccupants(sessions[..|sessions| - 1], staffing)
         + if Occupies(sessions[|sessions| - 1], staffing) then 1 else 0
  }

  lemma {:induction false} OccupantsCounted(sessions: seq<Session>, staffing: StaffedBy)
    requires NoDuplicates(sessions)
    ensures CountOccupants(sessions, staffing) == |Occupants(sessions, staffing)|
  {
    if sessions != [] {
      var front, last := sessions[..|sessions| - 1], sessions[|sessions| - 1];
      OccupantsCounted(front, staffing);
      assert forall s :: s in sessions <==> s == last || s in front;
      if Occupies(last, staffing) {
        assert Occupants(sessions, staffing) == Occupants(front, staffing) + {last};
      } else {
        assert Occupants(sessions, staffing) == Occupants(front, staffing);
      }
    }
  }

  ghost function Five(sessions: seq<Session>, staffing: StaffedBy, ladder: Ladder, now: Instant): nat {
    CountFor(sessions, staffing, ladder, now, Unreachable)
    + CountFor(sessions, staffing, ladder, now, OffConsole)
    + CountFor(sessions, staffing, ladder, now, NotSubscribed)
    + CountFor(sessions, staffing, ladder, now, NotHearing.NotReceiving)
    + CountFor(sessions, staffing, ladder, now, Muted)
  }

  /** Where nobody is hearing it, every occupant is counted under one reason and no more. */
  lemma {:induction false} EverybodyCountedOnce(sessions: seq<Session>, staffing: StaffedBy, ladder: Ladder,
      now: Instant)
    requires forall s :: s in sessions && Occupies(s, staffing) ==> !Hearing(s, staffing.heldOn, ladder, now)
    ensures Five(sessions, staffing, ladder, now) == CountOccupants(sessions, staffing)
  {
    if sessions != [] {
      EverybodyCountedOnce(sessions[..|sessions| - 1], staffing, ladder, now);
      assert sessions[|sessions| - 1] in sessions;
    }
  }

  lemma {:induction false} CountsAddUp(sessions: seq<Session>, staffing: StaffedBy, ladder: Ladder, now: Instant)
    ensures Sum(CountsFor(sessions, staffing, ladder, now)) == Five(sessions, staffing, ladder, now)
  {
    var c := CountsFor(sessions, staffing, ladder, now);
    assert Sum(c) == c[0] + Sum(c[1..]);
    assert Sum(c[1..]) == c[1] + Sum(c[1..][1..]);
    assert Sum(c[1..][1..]) == c[2] + Sum(c[1..][1..][1..]);
    assert Sum(c[1..][1..][1..]) == c[3] + Sum(c[1..][1..][1..][1..]);
    assert Sum(c[1..][1..][1..][1..]) == c[4] + Sum(c[1..][1..][1..][1..][1..]);
    assert c[1..][1..][1..][1..][1..] == [];
  }

  lemma {:induction false} EveryReasonHasAPlace(reason: NotHearing)
    ensures FURTHEST_UPSTREAM_FIRST[reason.Order()] == reason
    ensures Climbing(FURTHEST_UPSTREAM_FIRST)
  {
  }

  lemma {:induction false} AwayIsTheHistogram(sessions: seq<Session>, staffing: StaffedBy, ladder: Ladder,
      now: Instant, counts: seq<Tally>)
    requires NoDuplicates(sessions)
    requires counts == NonZero(FURTHEST_UPSTREAM_FIRST, CountsFor(sessions, staffing, ladder, now))
    ensures UpstreamFirst(counts)
    ensures forall t ::
      t in counts <==> t.occupants > 0 && t.occupants == |AwayFor(sessions, staffing, ladder, now, t.reason)|
  {
    EveryReasonHasAPlace(Muted);
    NonZeroExactly(FURTHEST_UPSTREAM_FIRST, CountsFor(sessions, staffing, ladder, now));
    NonZeroKeepsTheOrder(FURTHEST_UPSTREAM_FIRST, CountsFor(sessions, staffing, ladder, now));
    forall t
      ensures t in counts <==> t.occupants > 0 && t.occupants == |AwayFor(sessions, staffing, ladder, now, t.reason)|
    {
      CountIsOfOccupants(sessions, staffing, ladder, now, t.reason);
      EveryReasonHasAPlace(t.reason);
    }
  }

  /** Vacant exactly when nobody occupies a staffing role, Staffed exactly when one who does has
      no reason for not hearing, and otherwise Away, with how many have each reason: only the
      reasons somebody has, furthest upstream first, adding up to the occupants. */
  lemma {:induction false} StaffingIsAFaithfulFold(ladder: Ladder, h: History, staffing: StaffedBy, now: Instant)
    requires Legal(h)
    ensures
      var l := After(ladder, h);
      var state := StaffingOf(l, staffing, now);
      && (state == Vacant <==> Occupants(l.sessions, staffing) == {})
      && (state == Staffed <==>
            exists s :: s in Occupants(l.sessions, staffing) && NothingStands(s, staffing.heldOn, ladder, now))
      && (state.Away? ==>
            && UpstreamFirst(state.counts)
            && (forall t :: t in state.counts <==>
                  t.occupants > 0 && t.occupants == |AwayFor(l.sessions, staffing, ladder, now, t.reason)|)
            && SumOf(state.counts) == |Occupants(l.sessions, staffing)| > 0)
  {
    EveryRunIsCoherent(ladder, h);
    LadderStands(ladder, h);
    FoldIsFaithful(After(ladder, h), staffing, now);
  }

  lemma {:induction false} FoldIsFaithful(l: Live, staffing: StaffedBy, now: Instant)
    requires SeatsApart(l.sessions)
    ensures
      var state := StaffingOf(l, staffing, now);
      && (state == Vacant <==> Occupants(l.sessions, staffing) == {})
      && (state == Staffed <==>
            exists s :: s in Occupants(l.sessions, staffing) && NothingStands(s, staffing.heldOn, l.ladder, now))
      && (state.Away? ==>
            && UpstreamFirst(state.counts)
            && (forall t :: t in state.counts <==>
                  t.occupants > 0 && t.occupants == |AwayFor(l.sessions, staffing, l.ladder, now, t.reason)|)
            && SumOf(state.counts) == |Occupants(l.sessions, staffing)| > 0)
  {
    hide CountFor, CountsFor, NonZero, NothingStands;
    forall s ensures Hearing(s, staffing.heldOn, l.ladder, now) <==> NothingStands(s, staffing.heldOn, l.ladder, now) {
      TheReasonIsFurthestUpstream(s, staffing.heldOn, l.ladder, now);
    }
    var state := StaffingOf(l, staffing, now);
    if exists s :: s in l.sessions && Occupies(s, staffing) {
      var s :| s in l.sessions && Occupies(s, staffing);
      assert s in Occupants(l.sessions, staffing);
    }
    if state.Away? {
      AwayIsTheHistogram(l.sessions, staffing, l.ladder, now, state.counts);
      NonZeroExactly(FURTHEST_UPSTREAM_FIRST, CountsFor(l.sessions, staffing, l.ladder, now));
      CountsAddUp(l.sessions, staffing, l.ladder, now);
      EverybodyCountedOnce(l.sessions, staffing, l.ladder, now);
      OccupantsCounted(l.sessions, staffing);
    }
  }

  // ---- The order of the sessions ------------------------------------------------------------

  lemma {:induction false} CountOneMore(front: seq<Session>, last: Session, staffing: StaffedBy, ladder: Ladder,
      now: Instant, reason: NotHearing)
    ensures CountFor(front + [last], staffing, ladder, now, reason)
         == CountFor(front, staffing, ladder, now, reason) + CountFor([last], staffing, ladder, now, reason)
  {
    hide AwayFrom;
    assert (front + [last])[..|front|] == front;
    assert [last][..0] == [];
  }

  lemma {:induction false} CountWithout(sessions: seq<Session>, k: nat, staffing: StaffedBy, ladder: Ladder,
      now: Instant, reason: NotHearing)
    requires k < |sessions|
    ensures CountFor(sessions, staffing, ladder, now, reason)
         == CountFor(Removed(sessions, k), staffing, ladder, now, reason)
            + CountFor([sessions[k]], staffing, ladder, now, reason)
    decreases |sessions|
  {
    hide CountFor;
    var last := |sessions| - 1;
    assert sessions == sessions[..last] + [sessions[last]];
    CountOneMore(sessions[..last], sessions[last], staffing, ladder, now, reason);
    if k == last {
      assert Removed(sessions, k) == sessions[..last];
    } else {
      CountWithout(sessions[..last], k, staffing, ladder, now, reason);
      assert Removed(sessions, k) == Removed(sessions[..last], k) + [sessions[last]];
      CountOneMore(Removed(sessions[..last], k), sessions[last], staffing, ladder, now, reason);
    }
  }

  lemma {:induction false} RemovedFromTheBag(sessions: seq<Session>, k: nat)
    requires k < |sessions|
    ensures multiset(Removed(sessions, k)) == multiset(sessions) - multiset{sessions[k]}
  {
    assert sessions == sessions[..k] + ([sessions[k]] + sessions[k + 1..]);
  }

  lemma {:induction false} CountIgnoresTheOrder(a: seq<Session>, b: seq<Session>, staffing: StaffedBy, ladder: Ladder,
      now: Instant, reason: NotHearing)
    requires multiset(a) == multiset(b)
    ensures CountFor(a, staffing, ladder, now, reason) == CountFor(b, staffing, ladder, now, reason)
    decreases |a|
  {
    if a == [] {
      assert |b| == |multiset(b)| == 0;
    } else {
      hide CountFor;
      assert a[0] in multiset(a) && a[0] in multiset(b);
      var k :| 0 <= k < |b| && b[k] == a[0];
      CountWithout(a, 0, staffing, ladder, now, reason);
      CountWithout(b, k, staffing, ladder, now, reason);
      RemovedFromTheBag(a, 0);
      RemovedFromTheBag(b, k);
      CountIgnoresTheOrder(Removed(a, 0), Removed(b, k), staffing, ladder, now, reason);
    }
  }

  /** The same sessions in any order give the same answer. */
  lemma {:induction false} StaffingIgnoresTheOrder(l: Live, other: seq<Session>, staffing: StaffedBy, now: Instant)
    requires multiset(l.sessions) == multiset(other)
    ensures StaffingOf(l, staffing, now) == StaffingOf(l.(sessions := other), staffing, now)
  {
    forall s ensures s in l.sessions <==> s in other {
      assert s in multiset(l.sessions) <==> s in multiset(other);
    }
    var m := l.(sessions := other);
    forall i | 0 <= i < |FURTHEST_UPSTREAM_FIRST|
      ensures CountsFor(l.sessions, staffing, l.ladder, now)[i] == CountsFor(other, staffing, l.ladder, now)[i]
    {
      CountIgnoresTheOrder(l.sessions, other, staffing, l.ladder, now, FURTHEST_UPSTREAM_FIRST[i]);
    }
    assert CountsFor(l.sessions, staffing, l.ladder, now) == CountsFor(m.sessions, staffing, m.ladder, now);
  }
}
