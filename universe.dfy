/**
 * The universe builder: the constituent maps (ticker symbol to company name)
 * of the selected indices, merged into one map by successive dictionary
 * updates in the fixed order DAX, Dow Jones, S&P 500, Nikkei.
 */
module Universe {
  import opened Wrappers

  /** The indices the user can select. */
  datatype Index = DAX | DowJones | SP500 | Nikkei

  /** The constituent lists of the four indices, symbol to company name. */
  datatype Constituents = Constituents(
    dax: map<string, string>,
    dowJones: map<string, string>,
    sp500: map<string, string>,
    nikkei: map<string, string>
  )
  {
    function Of(i: Index): map<string, string> {
      match i
      case DAX => dax
      case DowJones => dowJones
      case SP500 => sp500
      case Nikkei => nikkei
    }
  }

  /** The order in which the selected indices are merged, whatever order the user picked them in. */
  const MergeOrder: seq<Index> := [DAX, DowJones, SP500, Nikkei]

  /**
   * The maps of the selected indices among `order`, applied one after the
   * other as updates: on a shared symbol the later map's name replaces the
   * earlier one's (Dafny's `m + m'` keeps the right-hand value).
   */
  function Merged(order: seq<Index>, selected: seq<Index>, lists: Constituents): map<string, string>
    decreases |order|
  {
    if order == [] then map[]
    else
      var before := Merged(order[..|order| - 1], selected, lists);
      var i := order[|order| - 1];
      if i in selected then before + lists.Of(i) else before
  }

  /** Index `i` is selected and lists symbol `k`. */
  predicate Listed(i: Index, k: string, selected: seq<Index>, lists: Constituents) {
    i in selected && k in lists.Of(i)
  }

  /**
   * The last index of `order` that is selected and lists symbol `k`, found by
   * a search from the front that prefers any later hit.
   */
  function LastListing(order: seq<Index>, k: string, selected: seq<Index>, lists: Constituents): (r: Option<Index>)
    ensures r.Some? ==> r.value in order && Listed(r.value, k, selected, lists)
    decreases |order|
  {
    if order == [] then None
    else
      match LastListing(order[1..], k, selected, lists)
      case Some(i) => Some(i)
      case None => if Listed(order[0], k, selected, lists) then Some(order[0]) else None
  }

  /**
   * The search finds an index exactly when some index of `order` is selected
   * and lists `k`, and what it finds has no such index after it in `order`.
   */
  lemma {:induction false} LastListingIsLast(order: seq<Index>, k: string, selected: seq<Index>, lists: Constituents)
    ensures LastListing(order, k, selected, lists).Some?
        <==> exists p :: 0 <= p < |order| && Listed(order[p], k, selected, lists)
    ensures LastListing(order, k, selected, lists).Some? ==>
      exists p :: 0 <= p < |order| && order[p] == LastListing(order, k, selected, lists).value &&
        forall q :: p < q < |order| ==> !Listed(order[q], k, selected, lists)
    decreases |order|
  {
    if order != [] {
      var tail := order[1..];
      LastListingIsLast(tail, k, selected, lists);
      assert forall p :: 0 <= p < |tail| ==> tail[p] == order[p + 1];
      match LastListing(tail, k, selected, lists)
      case Some(i) =>
        var p :| 0 <= p < |tail| && tail[p] == i &&
          forall q :: p < q < |tail| ==> !Listed(tail[q], k, selected, lists);
        assert order[p + 1] == i;
        forall q | p + 1 < q < |order| ensures !Listed(order[q], k, selected, lists) {
          assert order[q] == tail[q - 1];
        }
      case None =>
        forall q | 0 < q < |order| ensures !Listed(order[q], k, selected, lists) {
          assert order[q] == tail[q - 1];
        }
    }
  }

  /** Appending one index at the back: that index wins when it is selected and lists `k`. */
  lemma {:induction false} LastListingSnoc(order: seq<Index>, j: Index, k: string, selected: seq<Index>, lists: Constituents)
    ensures LastListing(order + [j], k, selected, lists)
         == if Listed(j, k, selected, lists) then Some(j) else LastListing(order, k, selected, lists)
  {
    if order == [] {
      assert ([] + [j])[1..] == [];
    } else {
      assert (order + [j])[1..] == order[1..] + [j];
      LastListingSnoc(order[1..], j, k, selected, lists);
    }
  }

  /** The merged key set is the union of the key sets of the selected indices in `order`. */
  lemma {:induction false} MergedKeys(order: seq<Index>, selected: seq<Index>, lists: Constituents, k: string)
    ensures k in Merged(order, selected, lists)
        <==> exists i :: i in order && Listed(i, k, selected, lists)
    decreases |order|
  {
    if order != [] {
      var front := order[..|order| - 1];
      var j := order[|order| - 1];
      assert order == front + [j];
      MergedKeys(front, selected, lists, k);
      assert Listed(j, k, selected, lists) <==> j in selected && k in lists.Of(j);
    }
  }

  /**
   * Last write wins: a merged symbol carries the name given to it by the last
   * selected index of `order` that lists it, and a symbol is merged exactly
   * when such an index exists.
   */
  lemma {:induction false} MergedLastWins(order: seq<Index>, selected: seq<Index>, lists: Constituents, k: string)
    ensures k in Merged(order, selected, lists) <==> LastListing(order, k, selected, lists).Some?
    ensures k in Merged(order, selected, lists)
        ==> Merged(order, selected, lists)[k] == lists.Of(LastListing(order, k, selected, lists).value)[k]
    decreases |order|
  {
    if order != [] {
      var front := order[..|order| - 1];
      var j := order[|order| - 1];
      assert order == front + [j];
      MergedLastWins(front, selected, lists, k);
      LastListingSnoc(front, j, k, selected, lists);
    }
  }

  /** The order in which the user picked the indices does not matter, only which ones were picked. */
  lemma {:induction false} SelectionOrderIrrelevant(order: seq<Index>, a: seq<Index>, b: seq<Index>, lists: Constituents)
    requires forall i :: i in a <==> i in b
    ensures Merged(order, a, lists) == Merged(order, b, lists)
    decreases |order|
  {
    if order != [] {
      SelectionOrderIrrelevant(order[..|order| - 1], a, b, lists);
    }
  }

  /** Every index takes part in the merge. */
  lemma MergeOrderComplete(i: Index)
    ensures i in MergeOrder
  {
  }

  /** The universe's key set is the union of the selected indices' key sets; no selection, no keys. */
  lemma UniverseKeys(indices: seq<Index>, lists: Constituents)
    ensures forall k :: k in Merged(MergeOrder, indices, lists) <==> exists i :: i in indices && k in lists.Of(i)
    ensures indices == [] ==> Merged(MergeOrder, indices, lists) == map[]
  {
    forall k ensures k in Merged(MergeOrder, indices, lists) <==> exists i :: i in indices && k in lists.Of(i) {
      MergedKeys(MergeOrder, indices, lists, k);
      forall i | i in indices && k in lists.Of(i) ensures i in MergeOrder {
        MergeOrderComplete(i);
      }
    }
  }

  /** Every symbol of the universe carries the name of the last selected index, in merge order, that lists it. */
  lemma UniverseLastWins(indices: seq<Index>, lists: Constituents)
    ensures forall k :: k in Merged(MergeOrder, indices, lists) ==>
      LastListing(MergeOrder, k, indices, lists).Some? &&
      Merged(MergeOrder, indices, lists)[k] == lists.Of(LastListing(MergeOrder, k, indices, lists).value)[k]
    ensures forall k :: k in Merged(MergeOrder, indices, lists) ==>
      exists p :: 0 <= p < |MergeOrder| && MergeOrder[p] == LastListing(MergeOrder, k, indices, lists).value &&
        Listed(MergeOrder[p], k, indices, lists) &&
        forall q :: p < q < |MergeOrder| ==> !Listed(MergeOrder[q], k, indices, lists)
  {
    forall k | k in Merged(MergeOrder, indices, lists)
      ensures LastListing(MergeOrder, k, indices, lists).Some?
      ensures Merged(MergeOrder, indices, lists)[k] == lists.Of(LastListing(MergeOrder, k, indices, lists).value)[k]
    {
      MergedLastWins(MergeOrder, indices, lists, k);
    }
    forall k | k in Merged(MergeOrder, indices, lists)
      ensures exists p :: 0 <= p < |MergeOrder| && MergeOrder[p] == LastListing(MergeOrder, k, indices, lists).value &&
                Listed(MergeOrder[p], k, indices, lists) &&
                forall q :: p < q < |MergeOrder| ==> !Listed(MergeOrder[q], k, indices, lists)
    {
      MergedLastWins(MergeOrder, indices, lists, k);
      LastListingIsLast(MergeOrder, k, indices, lists);
    }
  }

  /** Builds the ticker map for the selected indices, one update per selected index. */
  method BuildUniverse(indices: seq<Index>, lists: Constituents) returns (tickerMap: map<string, string>)
    ensures tickerMap == Merged(MergeOrder, indices, lists)
    ensures forall k :: k in tickerMap <==> exists i :: i in indices && k in lists.Of(i)
    ensures forall k :: k in tickerMap ==>
      LastListing(MergeOrder, k, indices, lists).Some? &&
      tickerMap[k] == lists.Of(LastListing(MergeOrder, k, indices, lists).value)[k]
    ensures indices == [] ==> tickerMap == map[]
  {
    tickerMap := map[];
    assert tickerMap == Merged([], indices, lists);
    if DAX in indices {
      tickerMap := tickerMap + lists.dax;
    }
    assert [DAX][..0] == [];
    assert tickerMap == Merged([DAX], indices, lists);
    if DowJones in indices {
      tickerMap := tickerMap + lists.dowJones;
    }
    assert [DAX, DowJones][..1] == [DAX];
    assert tickerMap == Merged([DAX, DowJones], indices, lists);
    if SP500 in indices {
      tickerMap := tickerMap + lists.sp500;
    }
    assert [DAX, DowJones, SP500][..2] == [DAX, DowJones];
    assert tickerMap == Merged([DAX, DowJones, SP500], indices, lists);
    if Nikkei in indices {
      tickerMap := tickerMap + lists.nikkei;
    }
    assert MergeOrder[..3] == [DAX, DowJones, SP500];
    ghost var universe := Merged(MergeOrder, indices, lists);
    assert tickerMap == universe;
    UniverseKeys(indices, lists);
    UniverseLastWins(indices, lists);
  }
}
