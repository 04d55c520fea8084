/** What is remembered of a console between sessions (`src/configuration/personalisation.rs`). */
module Personalisation {
  import opened Basics
  import opened Names
  import opened Sessions
  import opened Tables
  import opened BaseOrders

  /** Nothing is kept about a user, a role or a loop that does not exist. */
  function SubscriptionRemembered(t: Tables, kept: Keepsake): Tables {
    if AllThere(t, kept) then t.(subscriptions := t.subscriptions + {kept}) else t
  }

  function SubscriptionForgotten(t: Tables, kept: Keepsake): Tables {
    t.(subscriptions := t.subscriptions - {kept})
  }

  function VolumeRemembered(t: Tables, kept: Keepsake, volume: Volume): Tables {
    if AllThere(t, kept) then t.(volumes := t.volumes[kept := volume]) else t
  }

  function SubscribedAmong(t: Tables, user: UserId, role: RoleId, order: seq<LoopRow>): (r: seq<LoopId>)
    ensures forall on :: on in r <==> Keepsake(user, role, on) in t.subscriptions && IsLoop(order, on)
  {
    if order == [] then []
    else
      var rest := SubscribedAmong(t, user, role, order[1..]);
      assert forall on :: IsLoop(order, on) <==> on == order[0].id || IsLoop(order[1..], on) by {
        assert order[0] in order;
        forall on ensures IsLoop(order, on) <==> on == order[0].id || IsLoop(order[1..], on) {
          if IsLoop(order[1..], on) {
            var row :| row in order[1..] && row.id == on;
            assert row in order;
          }
        }
      }
      (if Keepsake(user, role, order[0].id) in t.subscriptions then [order[0].id] else []) + rest
  }

  /** What is kept for the pair of loops that are there, in the base order. */
  function TheSubscriptionsOf(t: Tables, user: UserId, role: RoleId): seq<LoopId> {
    SubscribedAmong(t, user, role, BaseOrder(t.loops))
  }

  function VolumesAmong(t: Tables, user: UserId, role: RoleId, order: seq<LoopRow>): seq<SetOn> {
    if order == [] then []
    else
      var kept := Keepsake(user, role, order[0].id);
      (if kept in t.volumes then [SetOn(order[0].id, t.volumes[kept])] else [])
      + VolumesAmong(t, user, role, order[1..])
  }

  /** The volumes this pair has set, in the base order. */
  function TheVolumesOf(t: Tables, user: UserId, role: RoleId): seq<SetOn> {
    VolumesAmong(t, user, role, BaseOrder(t.loops))
  }

  // ---- What the two reads answer ------------------------------------------------------------

  lemma {:induction false} IsLoopAmong(order: seq<LoopRow>, on: LoopId)
    requires order != []
    ensures IsLoop(order, on) <==> on == order[0].id || IsLoop(order[1..], on)
  {
    assert order[0] in order;
    if IsLoop(order[1..], on) {
      var row :| row in order[1..] && row.id == on;
      assert row in order;
    }
  }

  lemma {:induction false} SubscribedOnce(t: Tables, user: UserId, role: RoleId, order: seq<LoopRow>)
    requires LoopsApart(order)
    ensures NoDuplicates(SubscribedAmong(t, user, role, order))
  {
    if order != [] {
      SubscribedOnce(t, user, role, order[1..]);
      forall row | row in order[1..] ensures row.id != order[0].id {
      }
      assert !IsLoop(order[1..], order[0].id);
    }
  }

  lemma {:induction false} VolumesExactly(t: Tables, user: UserId, role: RoleId, order: seq<LoopRow>, on: LoopId)
    ensures VolumeOn(VolumesAmong(t, user, role, order), on)
         == if Keepsake(user, role, on) in t.volumes && IsLoop(order, on) then Some(t.volumes[Keepsake(user, role, on)])
            else None
  {
    if order != [] {
      IsLoopAmong(order, on);
      VolumesExactly(t, user, role, order[1..], on);
      var all, rest := VolumesAmong(t, user, role, order), VolumesAmong(t, user, role, order[1..]);
      if Keepsake(user, role, order[0].id) in t.volumes {
        assert all[1..] == rest;
      } else {
        assert all == rest;
      }
    }
  }

  lemma {:induction false} VolumesOnce(t: Tables, user: UserId, role: RoleId, order: seq<LoopRow>)
    requires LoopsApart(order)
    ensures NoDuplicates(LoopsSet(VolumesAmong(t, user, role, order)))
  {
    if order != [] {
      VolumesOnce(t, user, role, order[1..]);
      assert forall row :: row in order[1..] ==> row.id != order[0].id;
      VolumesExactly(t, user, role, order[1..], order[0].id);
      var rest := VolumesAmong(t, user, role, order[1..]);
      if Keepsake(user, role, order[0].id) in t.volumes {
        assert VolumesAmong(t, user, role, order)[1..] == rest;
      } else {
        assert VolumesAmong(t, user, role, order) == rest;
      }
    }
  }

  /** Both reads answer exactly what is remembered about loops that are there, each once. */
  lemma {:induction false} RemembersExactly(t: Tables, user: UserId, role: RoleId, on: LoopId)
    requires LoopsApart(t.loops) && PositionsApart(t.loops)
    ensures NoDuplicates(TheSubscriptionsOf(t, user, role)) && NoDuplicates(LoopsSet(TheVolumesOf(t, user, role)))
    ensures on in TheSubscriptionsOf(t, user, role) <==>
      Keepsake(user, role, on) in t.subscriptions && IsLoop(t.loops, on)
    ensures
      var kept := Keepsake(user, role, on);
      VolumeOn(TheVolumesOf(t, user, role), on)
        == if kept in t.volumes && IsLoop(t.loops, on) then Some(t.volumes[kept]) else None
  {
    var order := BaseOrder(t.loops);
    BaseOrderIsSorted(t.loops);
    BaseOrderApart(t.loops);
    assert IsLoop(order, on) <==> IsLoop(t.loops, on);
    SubscribedOnce(t, user, role, order);
    VolumesOnce(t, user, role, order);
    VolumesExactly(t, user, role, order, on);
  }
}
