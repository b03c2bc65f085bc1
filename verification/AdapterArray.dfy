/** The adapter array of gps/core/LocApiBase.cpp. An event mask is the set of its bits. */
module AdapterArray {
  type Mask = set<nat>

  const MAX_ADAPTERS := 10

  class LocAdapterBase {
    var mEvtMask: Mask

    constructor (mask: Mask)
      ensures mEvtMask == mask
    {
      mEvtMask := mask;
    }
  }

  // ---------- the registered adapters as a list ----------

  /** The adapters come first, without holes or duplicates, and nulls fill the rest. */
  predicate Compact(cells: seq<LocAdapterBase?>, n: nat) {
    && n <= |cells| == MAX_ADAPTERS
    && (forall i | 0 <= i < |cells| :: cells[i] == null <==> n <= i)
    && (forall i, j | 0 <= i < j < n :: cells[i] != cells[j])
  }

  /** Take entry j out and put the last entry in its place. */
  function SwapOut(list: seq<LocAdapterBase?>, j: nat): (r: seq<LocAdapterBase?>)
    requires j < |list|
    ensures |r| == |list| - 1
  {
    var last := |list| - 1;
    if j == last then list[..last] else list[j := list[last]][..last]
  }

  /** Swapping an adapter out takes out that adapter and no other. */
  lemma SwapOutRemovesOne(list: seq<LocAdapterBase?>, j: nat)
    requires j < |list| && forall a, b | 0 <= a < b < |list| :: list[a] != list[b]
    ensures forall x :: x in SwapOut(list, j) <==> x in list && x != list[j]
    ensures forall a, b | 0 <= a < b < |list| - 1 :: SwapOut(list, j)[a] != SwapOut(list, j)[b]
  {
    var r := SwapOut(list, j);
    forall x | x in list && x != list[j] ensures x in r {
      var k :| 0 <= k < |list| && list[k] == x;
      assert r[if k == |list| - 1 then j else k] == x;
    }
  }

  // ---------- event masks ----------

  function MaskOf(list: seq<LocAdapterBase?>): (mask: Mask)
    requires null !in list
    reads set a | a in list
    ensures forall bit :: bit in mask <==> exists i :: 0 <= i < |list| && bit in list[i].mEvtMask
  {
    if list == [] then {}
    else
      var init := list[..|list| - 1];
      assert forall i | 0 <= i < |init| :: init[i] == list[i];
      MaskOf(init) + list[|list| - 1].mEvtMask
  }

  // ---------- the object ----------

  class LocApiBase {
    const mLocAdapters: array<LocAdapterBase?>
    const mExcludedMask: Mask
    var openMsgs: seq<Mask>    // the masks of the LocOpenMsg messages sent
    var closes: nat            // calls of close()
    ghost var list: seq<LocAdapterBase?>

    ghost predicate Valid()
      reads this, mLocAdapters
    {
      mLocAdapters.Length == MAX_ADAPTERS && Compact(mLocAdapters[..], |list|) && mLocAdapters[..|list|] == list
    }

    constructor (excludedMask: Mask)
      ensures Valid() && list == [] && openMsgs == [] && closes == 0 && fresh(mLocAdapters)
      ensures mExcludedMask == excludedMask
    {
      mLocAdapters := new LocAdapterBase?[MAX_ADAPTERS](_ => null);
      mExcludedMask := excludedMask;
      openMsgs, closes, list := [], 0, [];
    }

    /** The loop that every event handler uses: it stops at the first null. */
    method broadcast() returns (visited: seq<LocAdapterBase?>)
      requires Valid()
      ensures visited == list
    {
      visited := [];
      var i := 0;
      while i < MAX_ADAPTERS && mLocAdapters[i] != null
        invariant 0 <= i <= |list| && visited == list[..i]
      {
        visited := visited + [mLocAdapters[i]];
        i := i + 1;
      }
    }

    /** An event is in the mask iff some registered adapter asks for it and it is not excluded. */
    method getEvtMask() returns (mask: Mask)
      requires Valid()
      ensures mask == MaskOf(list) - mExcludedMask
      ensures forall bit :: bit in mask <==>
        bit !in mExcludedMask && exists i :: 0 <= i < |list| && bit in list[i].mEvtMask
    {
      mask := {};
      var i := 0;
      while i < MAX_ADAPTERS && mLocAdapters[i] != null
        invariant 0 <= i <= |list| && mask == MaskOf(list[..i])
      {
        assert list[..i + 1][..i] == list[..i];
        mask := mask + mLocAdapters[i].mEvtMask;
        i := i + 1;
      }
      assert list[..i] == list;
      mask := mask - mExcludedMask;
    }

    /** A new adapter goes to the end; a registered one, or one too many, changes nothing. */
    method addAdapter(adapter: LocAdapterBase)
      requires Valid()
      modifies this, mLocAdapters
      ensures Valid() && closes == old(closes)
      ensures
        var added := adapter !in old(list) && |old(list)| < 10;
        && list == (if added then old(list) + [adapter] else old(list))
        && openMsgs == if added then old(openMsgs) + [adapter.mEvtMask] else old(openMsgs)
    {
      var i := 0;
      while i < MAX_ADAPTERS && mLocAdapters[i] != adapter
        invariant 0 <= i <= |list| && adapter !in list[..i]
        invariant Valid() && unchanged(this) && unchanged(mLocAdapters)
      {
        if mLocAdapters[i] == null {
          assert list[..i] == list;
          mLocAdapters[i] := adapter;
          list := list + [adapter];
          openMsgs := openMsgs + [adapter.mEvtMask];
          assert mLocAdapters[..|list|] == list;
          break;
        }
        i := i + 1;
      }
    }

    /** What removeAdapter does to the cells once it has found the adapter at j. */
    method takeOut(j: int) returns (i: int)
      requires Valid() && 0 <= j < |list|
      modifies this`list, mLocAdapters
      ensures Valid() && list == SwapOut(old(list), j) && i == |list|
    {
      ghost var was := list;
      mLocAdapters[j] := null;
      i := j + 1;
      while i < MAX_ADAPTERS && mLocAdapters[i] != null
        invariant j < i <= |was|
        invariant mLocAdapters[j] == null
        invariant forall k | 0 <= k < MAX_ADAPTERS && k != j :: mLocAdapters[k] == old(mLocAdapters[k])
        invariant list == was
      {
        i := i + 1;
      }
      i := i - 1;
      mLocAdapters[j] := mLocAdapters[i];
      mLocAdapters[i] := null;
      list := SwapOut(was, j);
      SwapOutRemovesOne(was, j);
      assert forall k | 0 <= k < i :: mLocAdapters[k] == list[k];
    }

    /** What removeAdapter does when i adapters are left. */
    method closeOrReopen(i: int)
      requires Valid() && i == |list|
      modifies this`closes, this`openMsgs
      ensures closes == if list == [] then old(closes) + 1 else old(closes)
      ensures openMsgs == if list == [] then old(openMsgs) else old(openMsgs) + [MaskOf(list) - mExcludedMask]
    {
      if i == 0 {
        closes := closes + 1;
      } else {
        var mask := getEvtMask();
        openMsgs := openMsgs + [mask];
      }
    }

    /** Exactly the given adapter goes; the API is closed iff it was the last one, and
        otherwise reopened with the mask of those that stay. */
    method removeAdapter(adapter: LocAdapterBase)
      requires Valid()
      modifies this, mLocAdapters
      ensures Valid()
      ensures forall x :: x in list <==> x in old(list) && x != adapter
      ensures |list| == if adapter in old(list) then |old(list)| - 1 else |old(list)|
      ensures closes == if adapter in old(list) && list == [] then old(closes) + 1 else old(closes)
      ensures openMsgs == if adapter in old(list) && list != [] then old(openMsgs) + [MaskOf(list) - mExcludedMask] else old(openMsgs)
    {
      var i := 0;
      while i < MAX_ADAPTERS && mLocAdapters[i] != null
        invariant 0 <= i <= |list| && adapter !in list[..i]
        invariant Valid() && unchanged(this) && unchanged(mLocAdapters)
      {
        if mLocAdapters[i] == adapter {
          SwapOutRemovesOne(list, i);
          i := takeOut(i);
          closeOrReopen(i);
          // The cell after the emptied one is null too, so the search ends here.
          assert i + 1 < MAX_ADAPTERS ==> mLocAdapters[i + 1] == null;
          return;
        }
        i := i + 1;
      }
      assert list[..i] == list;
    }
  }
}
