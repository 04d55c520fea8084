/** A version answers one question, *is this the same state*, over the whole life of a session. */
module Versions {
  import opened Basics
  import opened Names
  import opened Deployment
  import opened Sessions
  import opened LiveState
  import opened Invariants
  import opened Runs

  /** What the i-th event of a run was answered with, where it was a projection of this session
      that handed a document out. */
  ghost function IssuedTo(ladder: Ladder, h: History, i: nat, id: SessionId): Option<Issued>
    requires i < |h|
  {
    if Projects(h[i], id) then Told(After(ladder, h[..i]), h[i]).issued else None
  }

  ghost predicate Projects(e: Event, id: SessionId) {
    e.act.Project? && e.act.projected == id
  }

  /** No document was asked for this session strictly between the two events. */
  ghost predicate NoneBetween(h: History, i: nat, j: nat, id: SessionId)
    requires i < j <= |h|
  {
    forall k :: i < k < j ==> !Projects(h[k], id)
  }

  /** Right after a document is issued, the session holds it and its version. */
  lemma {:induction false} KeptAsIssued(ladder: Ladder, h: History, i: nat, id: SessionId)
    requires Legal(h) && i < |h| && IssuedTo(ladder, h, i, id).Some?
    ensures id in MintedIn(h[..i])
    ensures IsLive(After(ladder, h[..i]).sessions, id)
    ensures IsLive(After(ladder, h[..i + 1]).sessions, id)
    ensures
      var issued := IssuedTo(ladder, h, i, id).value;
      var before, after := Held(After(ladder, h[..i]).sessions, id), Held(After(ladder, h[..i + 1]).sessions, id);
      && after.version == issued.version && after.last == Some(issued.document)
      && issued.version == before.version + if before.last == Some(issued.document) then 0 else 1
  {
    PrefixStep(ladder, h, i);
    LiveIsMinted(ladder, h[..i], id);
    EveryRunIsCoherent(ladder, h[..i]);
    OneSessionAlong(After(ladder, h[..i]), MintedIn(h[..i]), h[i], id);
  }

  /** One event never lowers a version, and moves it only with the document. */
  lemma {:induction false} OneEventOnTheVersion(ladder: Ladder, h: History, n: nat, id: SessionId)
    requires Legal(h) && n < |h| && id in MintedIn(h[..n])
    requires IsLive(After(ladder, h[..n + 1]).sessions, id)
    ensures IsLive(After(ladder, h[..n]).sessions, id)
    ensures
      var before, after := Held(After(ladder, h[..n]).sessions, id), Held(After(ladder, h[..n + 1]).sessions, id);
      if Projects(h[n], id)
      then after.version == before.version + (if after.last == before.last then 0 else 1)
      else after.version == before.version && after.last == before.last
  {
    PrefixStep(ladder, h, n);
    EveryRunIsCoherent(ladder, h[..n]);
    OneSessionAlong(After(ladder, h[..n]), MintedIn(h[..n]), h[n], id);
    VersionUnderChange(After(ladder, h[..n]), Held(After(ladder, h[..n]).sessions, id), h[n]);
  }

  lemma {:induction false} VersionUnderChange(l: Live, s: Session, e: Event)
    requires IsLive(l.sessions, s.id)
    ensures
      var after := Changed(l, s, e);
      if Projects(e, s.id)
      then after.version == s.version + (if after.last == s.last then 0 else 1)
      else after.version == s.version && after.last == s.last
  {
    if e.act.Do? { DeedLeavesTheVersion(s, l.ladder, e.act.deed, e.at); }
  }

  lemma {:induction false} DeedLeavesTheVersion(s: Session, ladder: Ladder, deed: Deed, now: Instant)
    ensures Done(s, ladder, deed, now).version == s.version && Done(s, ladder, deed, now).last == s.last
  {
  }

  /** What a session still holds of a document it was once issued. */
  ghost predicate StillHolds(s: Session, issued: Issued, noneSince: bool) {
    && issued.version <= s.version
    && (issued.version == s.version ==> s.last == Some(issued.document))
    && (noneSince ==> s.version == issued.version && s.last == Some(issued.document))
  }

  lemma {:induction false} OneEventFurther(ladder: Ladder, h: History, i: nat, n: nat, id: SessionId, issued: Issued)
    requires Legal(h) && i < n < |h| && id in MintedIn(h[..n])
    requires IsLive(After(ladder, h[..n + 1]).sessions, id)
    requires IsLive(After(ladder, h[..n]).sessions, id)
    requires StillHolds(Held(After(ladder, h[..n]).sessions, id), issued, NoneBetween(h, i, n, id))
    ensures StillHolds(Held(After(ladder, h[..n + 1]).sessions, id), issued, NoneBetween(h, i, n + 1, id))
  {
    OneEventOnTheVersion(ladder, h, n, id);
  }

  lemma {:induction false} VersionFrom(ladder: Ladder, h: History, i: nat, n: nat, id: SessionId, issued: Issued)
    requires Legal(h) && i < n <= |h| && IssuedTo(ladder, h, i, id) == Some(issued)
    requires IsLive(After(ladder, h[..n]).sessions, id)
    ensures StillHolds(Held(After(ladder, h[..n]).sessions, id), issued, NoneBetween(h, i, n, id))
    decreases n
  {
    hide After, Step, Told, Legal;
    KeptAsIssued(ladder, h, i, id);
    if i + 1 < n {
      MintedStays(ladder, h, i, n - 1, id);
      MintedStays(ladder, h, n - 1, n, id);
      VersionFrom(ladder, h, i, n - 1, id, issued);
      OneEventFurther(ladder, h, i, n - 1, id, issued);
    }
  }

  /** Equal versions mean equal documents however far apart they were issued, versions never
      fall, and two answers with none between them differ by one exactly when the documents
      differ. */
  lemma {:induction false} EqualVersionsMeanEqualDocuments(ladder: Ladder, h: History, i: nat, j: nat, id: SessionId)
    requires Legal(h) && i < j < |h|
    requires IssuedTo(ladder, h, i, id).Some? && IssuedTo(ladder, h, j, id).Some?
    ensures
      var first, later := IssuedTo(ladder, h, i, id).value, IssuedTo(ladder, h, j, id).value;
      && first.version <= later.version
      && (first.version == later.version ==> first.document == later.document)
      && (NoneBetween(h, i, j, id) ==>
            later.version == first.version + if first.document == later.document then 0 else 1)
  {
    KeptAsIssued(ladder, h, j, id);
    VersionFrom(ladder, h, i, j, id, IssuedTo(ladder, h, i, id).value);
  }
}
