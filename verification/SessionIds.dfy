/** LocAdapterBase::generateSessionId (gps/core/LocAdapterBase.cpp). */
module SessionIds {
  /** How many ids there are: 1 to 0xFFFFFFFE. */
  const ID_COUNT := 0xFFFF_FFFE

  /** The counter after n calls; before the first call it is 1. */
  function NthId(n: nat): nat {
    n % ID_COUNT + 1
  }

  class IdGenerator {
    var mSessionIdCounter: nat
    ghost var issued: nat

    ghost predicate Valid()
      reads this
    {
      mSessionIdCounter == NthId(issued)
    }

    constructor ()
      ensures Valid() && issued == 0
    {
      mSessionIdCounter, issued := 1, 0;
    }

    method generateSessionId() returns (id: nat)
      requires Valid()
      modifies this
      ensures Valid() && issued == old(issued) + 1 && id == NthId(issued)
      ensures mSessionIdCounter < 0xFFFF_FFFF
    {
      mSessionIdCounter := mSessionIdCounter + 1;
      if mSessionIdCounter == 0xFFFF_FFFF {
        mSessionIdCounter := 1;
      }
      issued := issued + 1;
      return mSessionIdCounter;
    }
  }

  /** An id is never 0, and two calls return the same id iff they are a multiple of
      0xFFFFFFFE calls apart. */
  lemma IdsRepeatIff(i: nat, j: nat)
    ensures 0 < NthId(i) < 0xFFFF_FFFF
    ensures NthId(i) == NthId(j) <==> (i - j) % ID_COUNT == 0
  {
    var p := ID_COUNT;
    var qi, qj := i / p, j / p;
    assert i - j == p * (qi - qj) + (i % p - j % p);
    if (i - j) % p == 0 {
      var k := (i - j) / p;
      assert p * (k - (qi - qj)) == i % p - j % p;
      MultipleInRangeIsZero(p, k - (qi - qj), i % p - j % p);
    } else if i % p == j % p {
      ExactMultiple(p, qi - qj);
    }
  }

  lemma MultipleInRangeIsZero(p: int, k: int, d: int)
    requires p > 0 && p * k == d && -p < d < p
    ensures d == 0
  {
  }

  lemma ExactMultiple(p: int, k: int)
    requires p > 0
    ensures (p * k) % p == 0
  {
    var m := p * k;
    MultipleInRangeIsZero(p, k - m / p, m % p);
  }

  /** The id was returned by one of the first n calls. */
  ghost predicate Used(id: nat, n: nat) {
    exists i :: 1 <= i <= n && id == NthId(i)
  }

  lemma NextIdIsFresh(n: nat, id: nat)
    requires n < ID_COUNT && Used(id, n)
    ensures id != NthId(n + 1) && Used(id, n + 1) && id > 0
  {
    var i :| 1 <= i <= n && id == NthId(i);
    IdsRepeatIff(n + 1, i);
  }
}
