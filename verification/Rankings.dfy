/** Ranks as integer keys. The heap of gps/utils/LocHeap.cpp asks its elements only which of
    two outranks the other; any such ranking that is a total preorder is one by keys. */
module Rankings {
  import opened HeapTree

  /** `outRanks` is the strict part of a total preorder on the elements of s. */
  ghost predicate IsRanking<T(!new)>(s: set<T>, outRanks: (T, T) -> bool) {
    && (forall x | x in s :: !outRanks(x, x))
    && (forall x, y | x in s && y in s && outRanks(x, y) :: !outRanks(y, x))
    && (forall x, y, z | x in s && y in s && z in s && outRanks(x, z) :: outRanks(x, y) || outRanks(y, z))
  }

  ghost function OutRanked<T(!new)>(s: set<T>, outRanks: (T, T) -> bool, x: T): set<T> {
    set y | y in s && outRanks(x, y)
  }

  /** How many elements an element outranks. */
  ghost function Key<T(!new)>(s: set<T>, outRanks: (T, T) -> bool, x: T): nat {
    |OutRanked(s, outRanks, x)|
  }

  lemma SubsetIsNotLarger<T>(a: set<T>, b: set<T>)
    requires a <= b
    ensures |a| <= |b|
  {
    assert a + (b - a) == b && |b| == |a| + |b - a|;
  }

  lemma ProperSubsetIsSmaller<T>(a: set<T>, b: set<T>, x: T)
    requires a <= b && x in b && x !in a
    ensures |a| < |b|
  {
    assert |b - a| > 0 by {
      assert x in b - a;
    }
    assert a + (b - a) == b && |b| == |a| + |b - a|;
  }

  /** Counting outranked elements orders elements exactly as the ranking does. */
  lemma KeysRepresentRanking<T(!new)>(s: set<T>, outRanks: (T, T) -> bool, a: T, b: T)
    requires IsRanking(s, outRanks) && a in s && b in s
    ensures outRanks(a, b) <==> Key(s, outRanks, a) > Key(s, outRanks, b)
  {
    var below_a, below_b := OutRanked(s, outRanks, a), OutRanked(s, outRanks, b);
    if outRanks(a, b) {
      assert forall y | y in below_b :: y in below_a by {
        forall y | y in below_b ensures y in below_a {
          assert outRanks(a, b) ==> outRanks(a, y) || outRanks(y, b);
        }
      }
      ProperSubsetIsSmaller(below_b, below_a, b);
    } else {
      assert forall y | y in below_a :: y in below_b by {
        forall y | y in below_a ensures y in below_b {
          assert outRanks(a, y) ==> outRanks(a, b) || outRanks(b, y);
        }
      }
      SubsetIsNotLarger(below_a, below_b);
    }
  }

  /** Elements of a heap, known by address and key, rank as the objects do. */
  lemma ItemsRankAlike<T(!new)>(s: set<T>, outRanks: (T, T) -> bool, a: T, b: T, addrA: nat, addrB: nat)
    requires IsRanking(s, outRanks) && a in s && b in s
    ensures OutRanks(Item(addrA, Key(s, outRanks, a)), Item(addrB, Key(s, outRanks, b))) <==> outRanks(a, b)
  {
    KeysRepresentRanking(s, outRanks, a, b);
  }
}
