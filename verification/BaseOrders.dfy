/** The base order over any run of creations, deletions, renames and orders set: it is what an
    administrator last said, a new loop is last, and nothing else moves anything. */
module BaseOrders {
  import opened Basics
  import opened Names
  import opened Tables

  // ---- What the ordered read answers --------------------------------------------------------

  lemma {:induction false} PlacedIsSorted(sorted: seq<LoopRow>, row: LoopRow)
    requires Sorted(sorted)
    ensures Sorted(Placed(sorted, row))
  {
    if sorted != [] && sorted[|sorted| - 1].position > row.position {
      var front, last := sorted[..|sorted| - 1], sorted[|sorted| - 1];
      PlacedIsSorted(front, row);
      PlacedHolds(front, row);
      forall x | x in Placed(front, row) ensures x.position <= last.position {
        if x in front {
          var i :| 0 <= i < |front| && sorted[i] == x;
        }
      }
    }
  }

  lemma {:induction false} PlacedHolds(sorted: seq<LoopRow>, row: LoopRow)
    ensures multiset(Placed(sorted, row)) == multiset(sorted) + multiset{row}
    ensures forall x :: x in Placed(sorted, row) <==> x in sorted || x == row
  {
    if sorted != [] && sorted[|sorted| - 1].position > row.position {
      assert sorted == sorted[..|sorted| - 1] + [sorted[|sorted| - 1]];
      PlacedHolds(sorted[..|sorted| - 1], row);
    }
  }

  lemma {:induction false} BaseOrderIsSorted(loops: seq<LoopRow>)
    ensures Sorted(BaseOrder(loops)) && multiset(BaseOrder(loops)) == multiset(loops)
    ensures |BaseOrder(loops)| == |loops|
    ensures forall row :: row in BaseOrder(loops) <==> row in loops
  {
    if loops != [] {
      BaseOrderIsSorted(loops[..|loops| - 1]);
      PlacedIsSorted(BaseOrder(loops[..|loops| - 1]), loops[|loops| - 1]);
      PlacedHolds(BaseOrder(loops[..|loops| - 1]), loops[|loops| - 1]);
      assert loops == loops[..|loops| - 1] + [loops[|loops| - 1]];
    }
    SameBag(BaseOrder(loops), loops);
  }

  lemma {:induction false} SameBag(a: seq<LoopRow>, b: seq<LoopRow>)
    requires multiset(a) == multiset(b)
    ensures |a| == |b| && forall row :: row in a <==> row in b
  {
    assert |a| == |multiset(a)| && |b| == |multiset(b)|;
    forall row ensures row in a <==> row in b {
      assert row in multiset(a) <==> row in multiset(b);
    }
  }

  /** With ids and positions apart, the ordered read is apart and strictly climbs. */
  lemma {:induction false} BaseOrderApart(loops: seq<LoopRow>)
    requires LoopsApart(loops) && PositionsApart(loops)
    ensures LoopsApart(BaseOrder(loops))
    ensures forall i, j ::
      0 <= i < j < |BaseOrder(loops)| ==> BaseOrder(loops)[i].position < BaseOrder(loops)[j].position
  {
    BaseOrderIsSorted(loops);
    var sorted := BaseOrder(loops);
    forall i, j | 0 <= i < j < |sorted|
      ensures sorted[i].id != sorted[j].id && sorted[i].position < sorted[j].position
    {
      TwoInTheBag(sorted, i, j);
      OnceEach(loops, sorted[i]);
      assert sorted[i] != sorted[j] && sorted[i] in loops && sorted[j] in loops;
      DifferentRowsApart(loops, sorted[i], sorted[j]);
    }
  }

  lemma {:induction false} DifferentRowsApart(loops: seq<LoopRow>, x: LoopRow, y: LoopRow)
    requires LoopsApart(loops) && PositionsApart(loops) && x in loops && y in loops && x != y
    ensures x.id != y.id && x.position != y.position
  {
    var a :| 0 <= a < |loops| && loops[a] == x;
    var b :| 0 <= b < |loops| && loops[b] == y;
    if a < b { assert loops[a].id != loops[b].id; } else { assert loops[b].id != loops[a].id; }
  }

  lemma {:induction false} TwoInTheBag(s: seq<LoopRow>, i: nat, j: nat)
    requires i < j < |s|
    ensures s[i] == s[j] ==> multiset(s)[s[i]] >= 2
  {
    assert s == s[..j] + s[j..];
    assert s[..j][i] in s[..j] && s[j..][0] in s[j..];
    assert multiset(s) == multiset(s[..j]) + multiset(s[j..]);
  }

  lemma {:induction false} OnceEach(loops: seq<LoopRow>, row: LoopRow)
    requires LoopsApart(loops)
    ensures multiset(loops)[row] <= 1
  {
    if loops != [] {
      var front, last := loops[..|loops| - 1], loops[|loops| - 1];
      assert loops == front + [last];
      OnceEach(front, row);
      if last == row {
        assert row !in front;
      }
    }
  }

  // ---- What each act does to it -------------------------------------------------------------

  /** A loop created is last, and everything before it is as it was. */
  lemma {:induction false} ACreatedLoopIsLast(t: Tables, id: LoopId, name: string)
    requires LoopCreated(t, id, name).Ok?
    ensures
      var after := LoopCreated(t, id, name).value;
      BaseOrder(after.loops) == BaseOrder(t.loops) + [LoopRow(id, name, true, NextPosition(t.loops))]
  {
    var row := LoopRow(id, name, true, NextPosition(t.loops));
    assert (t.loops + [row])[..|t.loops|] == t.loops;
    BaseOrderIsSorted(t.loops);
    if t.loops != [] {
      assert BaseOrder(t.loops)[|t.loops| - 1] in t.loops;
    }
  }

  lemma {:induction false} WithoutLast(loops: seq<LoopRow>, last: LoopRow, id: LoopId)
    ensures WithoutLoop(loops + [last], id) == WithoutLoop(loops, id) + if last.id == id then [] else [last]
  {
    assert (loops + [last])[..|loops|] == loops;
  }

  lemma {:induction false} PlacedLast(sorted: seq<LoopRow>, row: LoopRow)
    requires forall x :: x in sorted ==> x.position <= row.position
    ensures Placed(sorted, row) == sorted + [row]
  {
    if sorted != [] { assert sorted[|sorted| - 1] in sorted; }
  }

  lemma {:induction false} PlacedBefore(front: seq<LoopRow>, last: LoopRow, row: LoopRow)
    requires last.position > row.position
    ensures Placed(front + [last], row) == Placed(front, row) + [last]
  {
    assert (front + [last])[..|front|] == front;
  }

  lemma {:induction false} WithoutPlacedLast(sorted: seq<LoopRow>, row: LoopRow, id: LoopId)
    requires forall x :: x in sorted ==> x.position <= row.position
    ensures WithoutLoop(Placed(sorted, row), id)
         == if row.id == id then WithoutLoop(sorted, id) else Placed(WithoutLoop(sorted, id), row)
  {
    hide Placed;
    PlacedLast(sorted, row);
    WithoutLast(sorted, row, id);
    PlacedLast(WithoutLoop(sorted, id), row);
  }

  lemma {:induction false} WithoutPlacedBefore(front: seq<LoopRow>, last: LoopRow, row: LoopRow, id: LoopId)
    requires last.position > row.position
    requires WithoutLoop(Placed(front, row), id)
          == if row.id == id then WithoutLoop(front, id) else Placed(WithoutLoop(front, id), row)
    ensures WithoutLoop(Placed(front + [last], row), id)
         == if row.id == id then WithoutLoop(front + [last], id) else Placed(WithoutLoop(front + [last], id), row)
  {
    hide Placed, WithoutLoop;
    var kept := WithoutLoop(front, id);
    PlacedBefore(front, last, row);
    WithoutLast(Placed(front, row), last, id);
    WithoutLast(front, last, id);
    if last.id != id {
      PlacedBefore(kept, last, row);
    } else {
      assert kept + [] == kept && Placed(front, row) + [] == Placed(front, row);
    }
  }

  lemma {:induction false} WithoutPlaced(sorted: seq<LoopRow>, row: LoopRow, id: LoopId)
    requires Sorted(sorted)
    ensures WithoutLoop(Placed(sorted, row), id)
         == if row.id == id then WithoutLoop(sorted, id) else Placed(WithoutLoop(sorted, id), row)
  {
    hide Placed, WithoutLoop;
    if sorted != [] && sorted[|sorted| - 1].position > row.position {
      WithoutPlaced(sorted[..|sorted| - 1], row, id);
      WithoutPlacedBefore(sorted[..|sorted| - 1], sorted[|sorted| - 1], row, id);
      assert sorted == sorted[..|sorted| - 1] + [sorted[|sorted| - 1]];
    } else {
      forall x | x in sorted ensures x.position <= row.position {
        var i :| 0 <= i < |sorted| && sorted[i] == x;
      }
      WithoutPlacedLast(sorted, row, id);
    }
  }

  /** Deleting a loop takes its own row out of the order and moves nothing else. */
  lemma {:induction false} ADeletionKeepsTheOrder(loops: seq<LoopRow>, id: LoopId)
    ensures BaseOrder(WithoutLoop(loops, id)) == WithoutLoop(BaseOrder(loops), id)
  {
    if loops != [] {
      var front, last := loops[..|loops| - 1], loops[|loops| - 1];
      ADeletionKeepsTheOrder(front, id);
      BaseOrderIsSorted(front);
      WithoutPlaced(BaseOrder(front), last, id);
      if last.id == id {
        assert WithoutLoop(loops, id) == WithoutLoop(front, id);
      } else {
        var kept := WithoutLoop(front, id);
        assert (kept + [last])[..|kept|] == kept;
      }
    }
  }

  /** Row for row the same loop at the same position. */
  ghost predicate SamePlaces(a: seq<LoopRow>, b: seq<LoopRow>) {
    |a| == |b| && forall i :: 0 <= i < |a| ==> a[i].id == b[i].id && a[i].position == b[i].position
  }

  lemma {:induction false} PlacedAlike(a: seq<LoopRow>, b: seq<LoopRow>, x: LoopRow, y: LoopRow)
    requires SamePlaces(a, b) && x.id == y.id && x.position == y.position
    ensures SamePlaces(Placed(a, x), Placed(b, y))
  {
    if a != [] && a[|a| - 1].position > x.position {
      PlacedAlike(a[..|a| - 1], b[..|b| - 1], x, y);
    }
  }

  /** Whatever leaves ids and positions alone leaves the order alone: a rename, a mark cleared. */
  lemma {:induction false} TheSamePlacesTheSameOrder(a: seq<LoopRow>, b: seq<LoopRow>)
    requires SamePlaces(a, b)
    ensures SamePlaces(BaseOrder(a), BaseOrder(b)) && LoopIds(BaseOrder(a)) == LoopIds(BaseOrder(b))
  {
    if a != [] {
      TheSamePlacesTheSameOrder(a[..|a| - 1], b[..|b| - 1]);
      PlacedAlike(BaseOrder(a[..|a| - 1]), BaseOrder(b[..|b| - 1]), a[|a| - 1], b[|b| - 1]);
    }
  }

  // ---- Setting an order ---------------------------------------------------------------------

  lemma {:induction false} IdsOnce(loops: seq<LoopRow>)
    requires LoopsApart(loops)
    ensures NoDuplicates(LoopIds(loops))
  {
  }

  lemma {:induction false} BagOfDistinct<T>(s: seq<T>, x: T)
    requires NoDuplicates(s)
    ensures multiset(s)[x] == if x in s then 1 else 0
  {
    if s != [] {
      var front, last := s[..|s| - 1], s[|s| - 1];
      assert s == front + [last];
      BagOfDistinct(front, x);
      assert last !in front;
    }
  }

  lemma {:induction false} SameElementsSameBag<T>(a: seq<T>, b: seq<T>)
    requires NoDuplicates(a) && NoDuplicates(b)
    requires forall x <- a :: x in b
    requires forall x <- b :: x in a
    ensures multiset(a) == multiset(b)
  {
    forall x | x in multiset(a) || x in multiset(b) ensures multiset(a)[x] == multiset(b)[x] {
      BagOfDistinct(a, x);
      BagOfDistinct(b, x);
    }
    assert multiset(a) <= multiset(b) && multiset(b) <= multiset(a);
  }

  lemma {:induction false} DistinctIfBagIsSet(order: seq<LoopId>, ids: seq<LoopId>)
    requires NoDuplicates(ids) && multiset(order) == multiset(ids)
    ensures NoDuplicates(order) && |order| == |ids| && forall x :: x in order <==> x in ids
  {
    assert |order| == |multiset(order)| && |ids| == |multiset(ids)|;
    forall x ensures x in order <==> x in ids {
      assert x in multiset(order) <==> x in multiset(ids);
    }
    forall i, j | 0 <= i < j < |order| ensures order[i] != order[j] {
      if order[i] == order[j] {
        assert order == order[..j] + order[j..];
        assert order[..j][i] in order[..j] && order[j..][0] in order[j..];
        assert multiset(order) == multiset(order[..j]) + multiset(order[j..]);
        BagOfDistinct(ids, order[i]);
        assert false;
      }
    }
  }

  /** An order is accepted exactly when it is a permutation of the loops there are. */
  lemma {:induction false} AcceptedExactlyThePermutations(order: seq<LoopId>, present: seq<LoopRow>)
    requires LoopsApart(present)
    ensures NamesEveryLoopOnce(order, present) <==> multiset(order) == multiset(LoopIds(present))
  {
    var ids := LoopIds(present);
    IdsOnce(present);
    var named, there := set id | id in order, set id | id in ids;
    DistinctCount(order);
    DistinctCount(ids);
    if NamesEveryLoopOnce(order, present) {
      forall id | id in ids ensures id in order {
        var i :| 0 <= i < |ids| && ids[i] == id;
        assert present[i] in present && present[i].id in named;
      }
      assert there <= named && |there| == |named|;
      SubsetOfSameSize(there, named);
      forall id <- order ensures id in ids {
        assert id in named;
      }
      SameElementsSameBag(order, ids);
    }
    if multiset(order) == multiset(ids) {
      DistinctIfBagIsSet(order, ids);
      assert named == there;
      forall row | row in present ensures row.id in named {
        var i :| 0 <= i < |present| && present[i] == row;
        assert ids[i] in ids;
      }
    }
  }

  lemma {:induction false} SubsetOfSameSize<T>(a: set<T>, b: set<T>)
    requires a <= b && |a| == |b|
    ensures a == b
  {
    assert |b - a| == |b| - |a|;
  }

  lemma {:induction false} PositionOfTheKth(order: seq<LoopId>, k: nat)
    requires NoDuplicates(order) && k < |order|
    ensures PositionIn(order, order[k]) == k
  {
    if k > 0 {
      assert order[0] != order[k];
      PositionOfTheKth(order[1..], k - 1);
    }
  }

  /** Strictly climbing positions below their own number are 0, 1, 2, … */
  lemma {:induction false} ClimbingFills(sorted: seq<LoopRow>, k: nat)
    requires forall i, j :: 0 <= i < j < |sorted| ==> sorted[i].position < sorted[j].position
    requires forall i :: 0 <= i < |sorted| ==> sorted[i].position < |sorted|
    requires k < |sorted|
    ensures sorted[k].position == k
  {
    AtLeast(sorted, k);
    AtMost(sorted, k);
  }

  lemma {:induction false} AtLeast(sorted: seq<LoopRow>, k: nat)
    requires forall i, j :: 0 <= i < j < |sorted| ==> sorted[i].position < sorted[j].position
    requires k < |sorted|
    ensures sorted[k].position >= k
  {
    if k > 0 { AtLeast(sorted, k - 1); }
  }

  lemma {:induction false} AtMost(sorted: seq<LoopRow>, k: nat)
    requires forall i, j :: 0 <= i < j < |sorted| ==> sorted[i].position < sorted[j].position
    requires forall i :: 0 <= i < |sorted| ==> sorted[i].position < |sorted|
    requires k < |sorted|
    ensures sorted[k].position <= k
    decreases |sorted| - k
  {
    if k + 1 < |sorted| { AtMost(sorted, k + 1); }
  }

  /** An order accepted is from then on exactly what the ordered read answers, with positions
      apart; one refused changes nothing. */
  lemma {:induction false} AnOrderSetIsTheOrderRead(t: Tables, order: seq<LoopId>)
    requires LoopsApart(t.loops) && PositionsApart(t.loops)
    ensures OrderSet(t, order).Ok? <==> multiset(order) == multiset(LoopIds(t.loops))
    ensures OrderSet(t, order).Err? ==> OrderSet(t, order).error == IncompleteOrder
    ensures OrderSet(t, order).Ok? ==>
      var after := OrderSet(t, order).value.loops;
      LoopIds(BaseOrder(after)) == order && LoopsApart(after) && PositionsApart(after)
  {
    BaseOrderIsSorted(t.loops);
    BaseOrderApart(t.loops);
    AcceptedExactlyThePermutations(order, BaseOrder(t.loops));
    BagOfIds(BaseOrder(t.loops), t.loops);
    if OrderSet(t, order).Ok? {
      IdsOnce(t.loops);
      DistinctIfBagIsSet(order, LoopIds(t.loops));
      RepositionedReadsAs(t.loops, order);
    }
  }

  lemma {:induction false} BagOfIds(a: seq<LoopRow>, b: seq<LoopRow>)
    requires LoopsApart(a) && LoopsApart(b) && multiset(a) == multiset(b)
    ensures multiset(LoopIds(a)) == multiset(LoopIds(b))
  {
    SameBag(a, b);
    IdsOnce(a);
    IdsOnce(b);
    forall id <- LoopIds(a) ensures id in LoopIds(b) {
      var i :| 0 <= i < |a| && LoopIds(a)[i] == id;
      assert a[i] in b;
      var j :| 0 <= j < |b| && b[j] == a[i];
      assert LoopIds(b)[j] == id;
    }
    forall id <- LoopIds(b) ensures id in LoopIds(a) {
      var i :| 0 <= i < |b| && LoopIds(b)[i] == id;
      assert b[i] in a;
      var j :| 0 <= j < |a| && a[j] == b[i];
      assert LoopIds(a)[j] == id;
    }
    SameElementsSameBag(LoopIds(a), LoopIds(b));
  }

  lemma {:induction false} RepositionedRow(loops: seq<LoopRow>, order: seq<LoopId>, i: nat)
    requires i < |loops| && loops[i].id in order
    ensures
      var row := Repositioned(loops, order)[i];
      row.id == loops[i].id && row.position < |order| && order[row.position] == row.id
  {
  }

  lemma {:induction false} RepositionedApart(loops: seq<LoopRow>, order: seq<LoopId>)
    requires LoopsApart(loops) && forall i :: 0 <= i < |loops| ==> loops[i].id in order
    ensures LoopsApart(Repositioned(loops, order)) && PositionsApart(Repositioned(loops, order))
  {
    var after := Repositioned(loops, order);
    forall i, j | 0 <= i < j < |after| ensures after[i].id != after[j].id && after[i].position != after[j].position {
      RepositionedRow(loops, order, i);
      RepositionedRow(loops, order, j);
      assert loops[i].id != loops[j].id;
    }
  }

  lemma {:induction false} RepositionedReadsAs(loops: seq<LoopRow>, order: seq<LoopId>)
    requires LoopsApart(loops) && |order| == |loops|
    requires forall id :: id in order <==> id in LoopIds(loops)
    ensures
      var after := Repositioned(loops, order);
      LoopIds(BaseOrder(after)) == order && LoopsApart(after) && PositionsApart(after)
  {
    hide BaseOrder, LoopIds, PositionIn;
    var after := Repositioned(loops, order);
    forall i | 0 <= i < |loops| ensures loops[i].id in order {
      assert LoopIds(loops)[i] == loops[i].id;
    }
    RepositionedApart(loops, order);
    BaseOrderIsSorted(after);
    BaseOrderApart(after);
    var sorted := BaseOrder(after);
    forall k | 0 <= k < |sorted|
      ensures sorted[k].position < |sorted| && order[sorted[k].position] == sorted[k].id
    {
      assert sorted[k] in after;
      var i :| 0 <= i < |after| && after[i] == sorted[k];
      RepositionedRow(loops, order, i);
    }
    forall k | 0 <= k < |sorted| ensures sorted[k].id == order[k] {
      ClimbingFills(sorted, k);
    }
  }
}
