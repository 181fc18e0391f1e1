/** The "toggle folded" action: one fold value is decided for the whole
    selection, then written to every selected node. Folded states are a map
    from node to flag; the folding decision belongs to the map controller and
    is a parameter. */
module ToggleFolded {

  /** A list iterator: the list and the cursor between elements. */
  datatype ListIterator<N> = ListIterator(list: seq<N>, cursor: nat) {
    predicate Valid() {
      cursor <= |list|
    }

    predicate HasPrevious() {
      cursor > 0
    }

    predicate HasNext() {
      cursor < |list|
    }
  }

  /** What the map controller's `getFoldingState` returns: the fold value,
      and where it left the iterator it was given. */
  datatype FoldQuery = FoldQuery(fold: bool, cursor: nat)

  /** One call of the map controller's `setFolded`. */
  datatype SetFoldedCall<N> = SetFoldedCall(node: N, folded: bool)

  /** Reference result: every node of `nodes` has flag `fold`, every other
      node keeps its flag. */
  function FoldedAfter<N(!new)>(folded: map<N, bool>, nodes: seq<N>, fold: bool): (r: map<N, bool>)
    ensures forall n :: n in nodes ==> n in r && r[n] == fold
    ensures forall n :: n !in nodes ==> (n in r <==> n in folded)
    ensures forall n :: n !in nodes && n in folded ==> r[n] == folded[n]
  {
    map n | n in folded.Keys + (set m | m in nodes) :: if n in nodes then fold else folded[n]
  }

  /** Setting one more node extends the reference result by one update. */
  lemma FoldedAfterExtend<N(!new)>(folded: map<N, bool>, nodes: seq<N>, node: N, fold: bool)
    ensures FoldedAfter(folded, nodes + [node], fold) == FoldedAfter(folded, nodes, fold)[node := fold]
  {
  }

  /** `resetIterator`: step back until there is no previous element. The list
      is not modified and the cursor ends at the start. */
  method ResetIterator<N>(it: ListIterator<N>) returns (r: ListIterator<N>)
    requires it.Valid()
    ensures r == ListIterator(it.list, 0)
  {
    r := it;
    while r.HasPrevious()
      invariant r.Valid() && r.list == it.list
      decreases r.cursor
    {
      r := r.(cursor := r.cursor - 1);
    }
  }

  /** `toggleFolded(ListIterator)`: ask once, with the rewound iterator and
      before any change, which fold value the selection gets; rewind again
      (the query may have moved the iterator) and set every listed node to
      that value, in list order, once per position. */
  method ToggleFoldedIterator<N(!new)>(it: ListIterator<N>, folded: map<N, bool>,
                                 getFoldingState: (seq<N>, map<N, bool>) -> FoldQuery)
    returns (fold: bool, folded': map<N, bool>, calls: seq<SetFoldedCall<N>>)
    requires it.Valid()
    ensures fold == getFoldingState(it.list, folded).fold
    ensures |calls| == |it.list|
    ensures forall k :: 0 <= k < |calls| ==> calls[k] == SetFoldedCall(it.list[k], fold)
    ensures folded' == FoldedAfter(folded, it.list, fold)
  {
    var rewound := ResetIterator(it);
    var query := getFoldingState(rewound.list, folded);
    fold := query.fold;
    var moved := rewound.(cursor := if query.cursor <= |rewound.list| then query.cursor else |rewound.list|);
    var i := ResetIterator(moved);
    folded' := folded;
    calls := [];
    while i.HasNext()
      invariant i.Valid() && i.list == it.list
      invariant |calls| == i.cursor
      invariant forall k :: 0 <= k < i.cursor ==> calls[k] == SetFoldedCall(it.list[k], fold)
      invariant folded' == FoldedAfter(folded, it.list[..i.cursor], fold)
      decreases |i.list| - i.cursor
    {
      var node := i.list[i.cursor];
      assert it.list[..i.cursor + 1] == it.list[..i.cursor] + [node];
      FoldedAfterExtend(folded, it.list[..i.cursor], node, fold);
      i := i.(cursor := i.cursor + 1);
      folded' := folded'[node := fold];
      calls := calls + [SetFoldedCall(node, fold)];
    }
    assert it.list[..i.cursor] == it.list;
  }

  /** `toggleFolded()`: the same, on a fresh iterator over the current
      selection. Every selected node ends with the one computed value, the
      others are untouched, and an empty selection changes nothing. */
  method ToggleFoldedSelection<N(!new)>(selected: seq<N>, folded: map<N, bool>,
                                  getFoldingState: (seq<N>, map<N, bool>) -> FoldQuery)
    returns (fold: bool, folded': map<N, bool>)
    ensures fold == getFoldingState(selected, folded).fold
    ensures forall n :: n in selected ==> n in folded' && folded'[n] == fold
    ensures forall n :: n !in selected ==> (n in folded' <==> n in folded)
    ensures forall n :: n !in selected && n in folded ==> folded'[n] == folded[n]
    ensures |selected| == 0 ==> folded' == folded
  {
    var calls;
    fold, folded', calls := ToggleFoldedIterator(ListIterator(selected, 0), folded, getFoldingState);
  }
}
