/** An arm is a route and is lost for good with the rung it stood on; a subscription, a mute and
    a volume are preferences and outlast any number of changes of reach. */
module Routes {
  import opened Basics
  import opened Names
  import opened Deployment
  import opened Sessions
  import opened LiveState
  import opened Invariants
  import opened Runs

  lemma {:induction false} OnlyArmingArms(l: Live, s: Session, e: Event, on: LoopId)
    requires IsLive(l.sessions, s.id) && on !in s.arms && e.act != Do(s.id, Arm(on))
    ensures on !in Changed(l, s, e).arms
  {
    if e.act.Do? && e.act.session == s.id { OnlyTheArmDeedArms(s, l.ladder, e.act.deed, e.at, on); }
  }

  lemma {:induction false} OnlyTheArmDeedArms(s: Session, ladder: Ladder, deed: Deed, now: Instant, on: LoopId)
    requires on !in s.arms && deed != Arm(on)
    ensures on !in Done(s, ladder, deed, now).arms
  {
  }

  lemma {:induction false} ProjectionTakesTheRoute(l: Live, s: Session, e: Event, on: LoopId)
    requires IsLive(l.sessions, s.id) && e.act.Project? && e.act.projected == s.id && !EmitsOn(e.act.within, on)
    ensures on !in Changed(l, s, e).arms
  {
  }

  /** The i-th event projects this live session within a reach that does not carry `emit` on
      the loop. */
  ghost predicate RouteLost(ladder: Ladder, h: History, i: nat, id: SessionId, on: LoopId)
    requires i < |h|
  {
    && h[i].act.Project? && h[i].act.projected == id
    && IsLive(After(ladder, h[..i]).sessions, id)
    && !EmitsOn(h[i].act.within, on)
  }

  /** Once a projection finds a loop without `emit` it is unarmed in every later state until it
      is armed by hand, whatever reach comes and goes in between. */
  lemma {:induction false} ARouteLostStaysLost(ladder: Ladder, h: History, i: nat, n: nat, id: SessionId, on: LoopId)
    requires Legal(h) && i < n <= |h| && RouteLost(ladder, h, i, id, on)
    requires forall k :: i < k < n ==> h[k].act != Do(id, Arm(on))
    requires IsLive(After(ladder, h[..n]).sessions, id)
    ensures on !in Held(After(ladder, h[..n]).sessions, id).arms
    decreases n
  {
    hide Step, Legal, After, Changed, Ends, Coherent, EmitsOn;
    var l, minted := After(ladder, h[..n - 1]), MintedIn(h[..n - 1]);
    PrefixStep(ladder, h, n - 1);
    PrefixLegal(h, i);
    LiveIsMinted(ladder, h[..i], id);
    MintedStays(ladder, h, i, n - 1, id);
    EveryRunIsCoherent(ladder, h[..n - 1]);
    OneSessionAlong(l, minted, h[n - 1], id);
    if i < n - 1 {
      ARouteLostStaysLost(ladder, h, i, n - 1, id, on);
      OnlyArmingArms(l, Held(l.sessions, id), h[n - 1], on);
    } else {
      ProjectionTakesTheRoute(l, Held(l.sessions, id), h[n - 1], on);
    }
  }

  ghost predicate SamePreferences(s: Session, t: Session) {
    s.subscriptions == t.subscriptions && s.mutes == t.mutes && s.volumes == t.volumes
  }

  lemma {:induction false} OnlyDeedsMovePreferences(l: Live, s: Session, e: Event)
    requires IsLive(l.sessions, s.id) && !(e.act.Do? && e.act.session == s.id)
    ensures SamePreferences(s, Changed(l, s, e))
  {
    hide Done, Projected, StillRouted;
  }

  /** Nothing but the operator's own deeds moves what they are monitoring, what they have muted
      or how loud anything plays: reach may go and come back any number of times. */
  lemma {:induction false} PreferencesOutlastReach(ladder: Ladder, h: History, i: nat, n: nat, id: SessionId)
    requires Legal(h) && i <= n <= |h| && IsLive(After(ladder, h[..i]).sessions, id)
    requires forall k :: i <= k < n && h[k].act.Do? ==> h[k].act.session != id
    requires IsLive(After(ladder, h[..n]).sessions, id)
    ensures SamePreferences(Held(After(ladder, h[..i]).sessions, id), Held(After(ladder, h[..n]).sessions, id))
    decreases n
  {
    hide Step, Legal;
    if i < n {
      var l, minted := After(ladder, h[..n - 1]), MintedIn(h[..n - 1]);
      PrefixStep(ladder, h, n - 1);
      PrefixLegal(h, i);
      LiveIsMinted(ladder, h[..i], id);
      MintedStays(ladder, h, i, n - 1, id);
      EveryRunIsCoherent(ladder, h[..n - 1]);
      OneSessionAlong(l, minted, h[n - 1], id);
      PreferencesOutlastReach(ladder, h, i, n - 1, id);
      OnlyDeedsMovePreferences(l, Held(l.sessions, id), h[n - 1]);
    }
  }
}
