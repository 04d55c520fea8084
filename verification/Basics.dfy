/** Small vocabulary shared by every module: optional values, outcomes, and the few
    operations on sequences that the source takes from its iterator library. */
module Basics {

  datatype Option<+T> = None | Some(value: T)

  datatype Result<+T, +E> = Ok(value: T) | Err(error: E)

  /** A reading of the monotonic clock, in nanoseconds. */
  type Instant = nat

  /** How long ago `then` was, as of `now`: nothing, where it has not happened yet. */
  function Since(now: Instant, then_: Instant): (gap: nat)
    ensures now >= then_ ==> then_ + gap == now
  {
    if now >= then_ then now - then_ else 0
  }

  ghost predicate NoDuplicates<T>(s: seq<T>) {
    forall i, j :: 0 <= i < j < |s| ==> s[i] != s[j]
  }

  /** Everything in `s` but `x`, in order. */
  function Without<T(==,!new)>(s: seq<T>, x: T): (r: seq<T>)
    ensures forall y :: y in r <==> y in s && y != x
    ensures NoDuplicates(s) ==> NoDuplicates(r)
    ensures x !in s ==> r == s
  {
    if s == [] then []
    else if s[|s| - 1] == x then Without(s[..|s| - 1], x)
    else
      var kept := Without(s[..|s| - 1], x);
      assert NoDuplicates(s) ==> s[|s| - 1] !in s[..|s| - 1];
      kept + [s[|s| - 1]]
  }

  /** A list used as a set: `x` joins the end unless it is already there. */
  function With<T(==,!new)>(s: seq<T>, x: T): (r: seq<T>)
    ensures forall y :: y in r <==> y in s || y == x
    ensures NoDuplicates(s) ==> NoDuplicates(r)
  {
    if x in s then s else s + [x]
  }

  /** The sequence with the element at `k` taken out. */
  function Removed<T>(s: seq<T>, k: nat): seq<T>
    requires k < |s|
  {
    s[..k] + s[k + 1..]
  }

  /** Every element of a shortened sequence is one of the others. */
  lemma {:induction false} RemovedHolds<T>(s: seq<T>, k: nat)
    requires k < |s|
    ensures |Removed(s, k)| == |s| - 1
    ensures forall i :: 0 <= i < |s| - 1 ==> Removed(s, k)[i] == s[if i < k then i else i + 1]
    ensures forall x :: x in Removed(s, k) ==> x in s
    ensures forall i :: 0 <= i < |s| && i != k ==> s[i] in Removed(s, k)
  {
    forall i | 0 <= i < |s| && i != k
      ensures s[i] in Removed(s, k)
    {
      assert Removed(s, k)[if i < k then i else i - 1] == s[i];
    }
  }

  /** A duplicate-free sequence has as many elements as the set of them. */
  lemma {:induction false} DistinctCount<T>(s: seq<T>)
    ensures |set x | x in s| <= |s|
    ensures NoDuplicates(s) <==> |set x | x in s| == |s|
  {
    if s != [] {
      var front, last := s[..|s| - 1], s[|s| - 1];
      DistinctCount(front);
      var before, after := set x | x in front, set x | x in s;
      assert s == front + [last];
      assert after == before + {last};
      if last in front {
        assert after == before;
        var i :| 0 <= i < |front| && front[i] == last;
        assert s[i] == s[|s| - 1];
      } else {
        assert |after| == |before| + 1;
        if NoDuplicates(front) {
          forall i, j | 0 <= i < j < |s| ensures s[i] != s[j] {
            if j == |s| - 1 { assert front[i] in front; } else { assert front[i] != front[j]; }
          }
        }
        if NoDuplicates(s) {
          forall i, j | 0 <= i < j < |front| ensures front[i] != front[j] {
            assert s[i] != s[j];
          }
        }
      }
    }
  }
}
