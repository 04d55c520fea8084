/** The store over any run of writes: rows stay in order, sign-ins are the days they lived through,
    and each preference is what was last written about it. */
module StoreRuns {
  import opened Basics
  import opened Names
  import opened Sessions
  import opened Tables
  import opened Grid
  import opened RoleOrders
  import opened GridCoherence
  import opened Personalisation
  import opened SignIns

  datatype Write =
    | Administers(edit: Edit)
    | KeepsSubscription(monitored: Keepsake)
    | DropsSubscription(dropped: Keepsake)
    | KeepsVolume(setOn: Keepsake, volume: Volume)
    | ToSignIns(happening: Happening)

  /** A write, and the store's clock when it was made. */
  datatype Written = Written(what: Write, at: int)

  type Writes = seq<Written>

  function Wrote(t: Tables, w: Written): Tables {
    match w.what
    case Administers(edit) => Edited(t, edit)
    case KeepsSubscription(kept) => SubscriptionRemembered(t, kept)
    case DropsSubscription(kept) => SubscriptionForgotten(t, kept)
    case KeepsVolume(kept, volume) => VolumeRemembered(t, kept, volume)
    case ToSignIns(happening) => t.(signIns := Happened(t.signIns, Moment(happening, w.at)))
  }

  const NOTHING_CONFIGURED := Tables(map[], [], [], map[], {}, map[], map[])

  function LastWrite(writes: Writes): Written
    requires writes != []
  {
    writes[|writes| - 1]
  }

  function WritesBefore(writes: Writes): Writes
    requires writes != []
  {
    writes[..|writes| - 1]
  }

  ghost function LeftBy(writes: Writes): Tables {
    if writes == [] then NOTHING_CONFIGURED else Wrote(LeftBy(WritesBefore(writes)), LastWrite(writes))
  }

  /** Every record made was made under an id no record had. */
  ghost predicate LegalWrites(writes: Writes) {
    writes != [] ==>
      && LegalWrites(WritesBefore(writes))
      && (LastWrite(writes).what.Administers? ==> MayEdit(LeftBy(WritesBefore(writes)), LastWrite(writes).what.edit))
  }

  lemma {:induction false} OneMoreWrite(writes: Writes, w: Written)
    ensures LeftBy(writes + [w]) == Wrote(LeftBy(writes), w)
    ensures LegalWrites(writes + [w]) <==>
      LegalWrites(writes) && (w.what.Administers? ==> MayEdit(LeftBy(writes), w.what.edit))
    ensures DaysOf(writes + [w]) == DaysOf(writes) + DayOf(w)
  {
    assert (writes + [w])[..|writes|] == writes;
  }

  // ---- Rows -----------------------------------------------------------------------------------------

  lemma {:induction false} AWriteKeepsTheStore(t: Tables, w: Written)
    requires StoreOk(t) && NamesApart(t) && (w.what.Administers? ==> MayEdit(t, w.what.edit))
    ensures StoreOk(Wrote(t, w)) && NamesApart(Wrote(t, w))
  {
    hide NamesApart, Edited, MayEdit;
    if w.what.Administers? {
      EveryEditKeepsTheStore(t, w.what.edit);
      EveryEditKeepsNamesApart(t, w.what.edit);
    } else {
      hide StoreOk;
      OtherWritesKeepTheStore(t, w);
      SameRecords(t, Wrote(t, w));
    }
  }

  lemma {:induction false} OtherWritesKeepTheStore(t: Tables, w: Written)
    requires StoreOk(t) && !w.what.Administers?
    ensures StoreOk(Wrote(t, w)) && Wrote(t, w).roles == t.roles && Wrote(t, w).loops == t.loops
  {
    hide IsRole, IsLoop, RolesApart, LoopsApart, PositionsApart;
  }

  lemma {:induction false} SameRecords(t: Tables, u: Tables)
    requires NamesApart(t) && t.roles == u.roles && t.loops == u.loops
    ensures NamesApart(u)
  {
    hide Folded;
  }

  /** Over any run of writes: ids, positions and names apart, cells and preferences between records
      that are there, and staffing only under `emit`. */
  lemma {:induction false} EveryRunKeepsTheStore(writes: Writes)
    requires LegalWrites(writes)
    ensures StoreOk(LeftBy(writes)) && NamesApart(LeftBy(writes))
  {
    if writes != [] {
      hide StoreOk, NamesApart, Wrote, MayEdit;
      EveryRunKeepsTheStore(WritesBefore(writes));
      AWriteKeepsTheStore(LeftBy(WritesBefore(writes)), LastWrite(writes));
    }
  }

  // ---- Sign-ins -------------------------------------------------------------------------------------

  /** What a write is to the sign-ins: their own happenings, and a user deleted ends every one of
      theirs. */
  function DayOf(w: Written): Days {
    match w.what
    case ToSignIns(happening) => [Moment(happening, w.at)]
    case Administers(DropUser(user)) => [Moment(EndEvery(user), w.at)]
    case _ => []
  }

  function DaysOf(writes: Writes): Days {
    if writes == [] then [] else DaysOf(WritesBefore(writes)) + DayOf(LastWrite(writes))
  }

  lemma {:induction false} AnEditOnSignIns(t: Tables, edit: Edit)
    ensures Edited(t, edit).signIns == if edit.DropUser? then EndedEvery(t.signIns, edit.gone) else t.signIns
  {
    hide NextPosition, NamesEveryLoopOnce, BaseOrder, LoopNameTaken, RoleNameTaken, ColumnComplete, Filled, CellOf;
    hide Folded, IsRole, IsLoop;
  }

  lemma {:induction false} AWriteIsTheirDay(t: Tables, w: Written)
    ensures
      var day := DayOf(w);
      Wrote(t, w).signIns == (if day == [] then t.signIns else Happened(t.signIns, day[0]))
  {
    hide Edited, AllThere, EndedEvery;
    if w.what.Administers? { AnEditOnSignIns(t, w.what.edit); }
  }

  /** The sign-ins held are what their days leave, so every bound on the stamp and every sweep is
      about the rows the store holds. */
  lemma {:induction false} TheSignInsAreTheirDays(writes: Writes)
    ensures LeftBy(writes).signIns == HeldAfter(DaysOf(writes))
  {
    if writes != [] {
      hide Wrote, DayOf;
      var before, w := WritesBefore(writes), LastWrite(writes);
      TheSignInsAreTheirDays(before);
      AWriteIsTheirDay(LeftBy(before), w);
      OneDayMore(DaysOf(before), DayOf(w));
    }
  }

  lemma {:induction false} OneDayMore(days: Days, day: Days)
    requires |day| <= 1
    ensures HeldAfter(days + day) == if day == [] then HeldAfter(days) else Happened(HeldAfter(days), day[0])
  {
    if day == [] {
      assert days + day == days;
    } else {
      assert (days + day)[..|days|] == days;
    }
  }

  /** The stamp the store holds lags the last deliberate act it was told of by no more than a minute,
      whatever else was written. */
  lemma {:induction false} TheStoredStampLagsByAMinute(writes: Writes, token: SignInToken)
    requires Forward(DaysOf(writes))
    ensures
      var held, active := LeftBy(writes).signIns, TrulyActive(DaysOf(writes), token);
      && (token in held <==> active.Some?)
      && (token in held ==> 0 <= active.value - held[token].lastActive <= TO_THE_MINUTE)
  {
    TheSignInsAreTheirDays(writes);
    TheStampLagsByAMinute(DaysOf(writes), token);
  }

  /** A sign-in opened is that user's, active as of then, and nobody else's moves. */
  lemma {:induction false} OpeningIsReadBack(
    writes: Writes, token: SignInToken, user: UserId, now: int, other: SignInToken)
    ensures
      var after := writes + [Written(ToSignIns(Open(token, user)), now)];
      && token in LeftBy(after).signIns && LeftBy(after).signIns[token].user == user
      && TrulyActive(DaysOf(after), token) == Some(now)
      && (other != token ==>
            (other in LeftBy(after).signIns <==> other in LeftBy(writes).signIns)
            && (other in LeftBy(writes).signIns ==>
                  LeftBy(after).signIns[other] == LeftBy(writes).signIns[other]))
  {
    var w := Written(ToSignIns(Open(token, user)), now);
    OneMoreWrite(writes, w);
    assert DaysOf(writes + [w]) == DaysOf(writes) + [Moment(Open(token, user), now)];
  }

  /** A deliberate act noted is the truth from then on where there is a sign-in to note it on, signs
      nobody in where there is none, and is nobody else's. */
  lemma {:induction false} AnActIsTheTruth(writes: Writes, token: SignInToken, now: int, other: SignInToken)
    ensures
      var acted := writes + [Written(ToSignIns(SignIns.Act(token)), now)];
      var before, after := LeftBy(writes).signIns, LeftBy(acted).signIns;
      && after.Keys == before.Keys
      && (token in before ==> TrulyActive(DaysOf(acted), token) == Some(now) && after[token].user == before[token].user)
      && (other in before && other != token ==> after[other] == before[other])
  {
    hide LeftBy, DaysOf, HeldAfter, TrulyActive;
    var w := Written(ToSignIns(SignIns.Act(token)), now);
    OneMoreWrite(writes, w);
    TheSignInsAreTheirDays(writes);
    if token in LeftBy(writes).signIns { ActingIsTrue(DaysOf(writes), token, now); }
  }

  lemma {:induction false} ActingIsTrue(days: Days, token: SignInToken, now: int)
    requires token in HeldAfter(days)
    ensures TrulyActive(days + [Moment(SignIns.Act(token), now)], token) == Some(now)
  {
    assert (days + [Moment(SignIns.Act(token), now)])[..|days|] == days;
  }

  // ---- Preferences ----------------------------------------------------------------------------------

  /** The edit deletes one of the three records the preference is about. */
  predicate TakesAway(edit: Edit, kept: Keepsake) {
    match edit
    case DropUser(id) => id == kept.user
    case DropRole(id) => id == kept.role
    case DropLoop(id) => id == kept.on
    case _ => false
  }

  /** The last word on a subscription: kept where its records were there to keep it for, until it is
      dropped or one of them is. */
  ghost predicate IsKept(writes: Writes, kept: Keepsake) {
    if writes == [] then false
    else
      var before, what := WritesBefore(writes), LastWrite(writes).what;
      if what == KeepsSubscription(kept) then AllThere(LeftBy(before), kept) || IsKept(before, kept)
      else if what == DropsSubscription(kept) then false
      else if what.Administers? && TakesAway(what.edit, kept) then false
      else IsKept(before, kept)
  }

  /** The last level set, in the same way. */
  ghost function LevelKept(writes: Writes, kept: Keepsake): Option<Volume> {
    if writes == [] then None
    else
      var before, what := WritesBefore(writes), LastWrite(writes).what;
      if what.KeepsVolume? && what.setOn == kept && AllThere(LeftBy(before), kept) then Some(what.volume)
      else if what.Administers? && TakesAway(what.edit, kept) then None
      else LevelKept(before, kept)
  }

  ghost function LevelIn(t: Tables, kept: Keepsake): Option<Volume> {
    if kept in t.volumes then Some(t.volumes[kept]) else None
  }

  lemma {:induction false} AnEditOnPreferences(t: Tables, edit: Edit, kept: Keepsake)
    ensures kept in Edited(t, edit).subscriptions <==> kept in t.subscriptions && !TakesAway(edit, kept)
    ensures LevelIn(Edited(t, edit), kept) == if TakesAway(edit, kept) then None else LevelIn(t, kept)
  {
    hide NextPosition, NamesEveryLoopOnce, BaseOrder, LoopNameTaken, RoleNameTaken, ColumnComplete, Filled, CellOf;
    hide Folded;
  }

  lemma {:induction false} AWriteOnPreferences(t: Tables, w: Written, kept: Keepsake)
    requires !w.what.Administers?
    ensures kept in Wrote(t, w).subscriptions <==>
      if w.what == KeepsSubscription(kept) then AllThere(t, kept) || kept in t.subscriptions
      else w.what != DropsSubscription(kept) && kept in t.subscriptions
    ensures LevelIn(Wrote(t, w), kept)
         == if w.what.KeepsVolume? && w.what.setOn == kept && AllThere(t, kept) then Some(w.what.volume)
            else LevelIn(t, kept)
  {
    hide AllThere;
  }

  /** Over any run of writes, a subscription is remembered exactly where it was kept last rather than
      dropped, by a write that found its user, its role and its loop and none of them deleted since;
      a level likewise is the last one set. No other write is about it. */
  lemma {:induction false} WhatIsRememberedIsTheLastWord(writes: Writes, kept: Keepsake)
    ensures kept in LeftBy(writes).subscriptions <==> IsKept(writes, kept)
    ensures LevelIn(LeftBy(writes), kept) == LevelKept(writes, kept)
  {
    if writes != [] {
      hide Wrote, AllThere, Edited, TakesAway;
      var before, w := WritesBefore(writes), LastWrite(writes);
      WhatIsRememberedIsTheLastWord(before, kept);
      if w.what.Administers? {
        AnEditOnPreferences(LeftBy(before), w.what.edit, kept);
        assert Wrote(LeftBy(before), w) == Edited(LeftBy(before), w.what.edit) by { AnEditWritten(LeftBy(before), w); }
      } else {
        AWriteOnPreferences(LeftBy(before), w, kept);
      }
    }
  }

  lemma {:induction false} AnEditWritten(t: Tables, w: Written)
    requires w.what.Administers?
    ensures Wrote(t, w) == Edited(t, w.what.edit)
  {
  }

  /** What is written is what the next assume reads: a loop kept is in the set, once, one dropped is
      not, and a level set is the level on it; every other loop of the pair reads as it did. */
  lemma {:induction false} APreferenceIsReadBack(t: Tables, kept: Keepsake, volume: Volume, on: LoopId)
    requires StoreOk(t)
    ensures
      var set_ := TheSubscriptionsOf(t, kept.user, kept.role);
      var remembered := TheSubscriptionsOf(SubscriptionRemembered(t, kept), kept.user, kept.role);
      var forgotten := TheSubscriptionsOf(SubscriptionForgotten(t, kept), kept.user, kept.role);
      && NoDuplicates(remembered) && NoDuplicates(forgotten)
      && (on in remembered <==> on in set_ || (on == kept.on && AllThere(t, kept)))
      && (on in forgotten <==> on in set_ && on != kept.on)
    ensures
      VolumeOn(TheVolumesOf(VolumeRemembered(t, kept, volume), kept.user, kept.role), on)
        == if on == kept.on && AllThere(t, kept) then Some(volume)
           else VolumeOn(TheVolumesOf(t, kept.user, kept.role), on)
  {
    hide TheSubscriptionsOf, TheVolumesOf, VolumeOn, StoreOk, NoDuplicates;
    assert LoopsApart(t.loops) && PositionsApart(t.loops) by { ApartRows(t); }
    RemembersExactly(t, kept.user, kept.role, on);
    RemembersExactly(SubscriptionRemembered(t, kept), kept.user, kept.role, on);
    RemembersExactly(SubscriptionForgotten(t, kept), kept.user, kept.role, on);
    RemembersExactly(VolumeRemembered(t, kept, volume), kept.user, kept.role, on);
  }

  lemma {:induction false} ApartRows(t: Tables)
    requires StoreOk(t)
    ensures LoopsApart(t.loops) && PositionsApart(t.loops)
  {
  }
}
