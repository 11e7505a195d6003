/** The array edits of the options pages: `splice(i, 1)`, `splice(i, 0, x)` and drag reordering. */
module Lists {

  /** `a.splice(i, 1)` on a copy: the element at `i` is removed; an index past the end removes nothing. */
  function SpliceOut<T>(a: seq<T>, i: nat): (r: seq<T>)
    ensures i < |a| ==> |r| == |a| - 1 && multiset(r) + multiset{a[i]} == multiset(a)
    ensures i < |a| ==> forall k :: 0 <= k < |r| ==> r[k] == (if k < i then a[k] else a[k + 1])
    ensures i >= |a| ==> r == a
  {
    if i < |a| then
      assert a == a[..i] + [a[i]] + a[i + 1..];
      a[..i] + a[i + 1..]
    else a
  }

  /** `a.splice(i, 0, x)`: `x` is inserted before position `i`, or at the end when `i` is past it. */
  function SpliceIn<T>(a: seq<T>, i: nat, x: T): (r: seq<T>)
    ensures |r| == |a| + 1 && multiset(r) == multiset(a) + multiset{x}
    ensures r[if i < |a| then i else |a|] == x
  {
    var j := if i < |a| then i else |a|;
    assert a == a[..j] + a[j..];
    a[..j] + [x] + a[j..]
  }

  /** Taking out what was just put in gives the original back. */
  lemma SpliceOutOfSpliceIn<T>(a: seq<T>, i: nat, x: T)
    ensures SpliceOut(SpliceIn(a, i, x), if i < |a| then i else |a|) == a
  {
    var j := if i < |a| then i else |a|;
    var r := SpliceIn(a, i, x);
    assert r == a[..j] + [x] + a[j..];
    assert r[..j] + r[j + 1..] == a;
  }

  /**
   * `reorder(list, startIndex, endIndex)` of the settings page: the element at
   * `start` is taken out and put back at `end` (JavaScript clamps `end` to the
   * end of the shortened list).  The input is not modified: it is a value here.
   */
  function Reorder<T>(list: seq<T>, start: nat, end: nat): (r: seq<T>)
    requires start < |list|
    ensures |r| == |list| && multiset(r) == multiset(list)
    ensures r[if end < |list| then end else |list| - 1] == list[start]
  {
    SpliceIn(SpliceOut(list, start), end, list[start])
  }

  /** Apart from the moved element, the reordered list holds the others in their old order. */
  lemma ReorderKeepsOthers<T>(list: seq<T>, start: nat, end: nat)
    requires start < |list|
    ensures SpliceOut(Reorder(list, start, end), if end < |list| then end else |list| - 1) == SpliceOut(list, start)
  {
    SpliceOutOfSpliceIn(SpliceOut(list, start), end, list[start]);
  }

  /** Dragging an element back to where it came from restores the list. */
  lemma ReorderUndo<T>(list: seq<T>, start: nat, end: nat)
    requires start < |list| && end < |list|
    ensures Reorder(Reorder(list, start, end), end, start) == list
  {
    var r := Reorder(list, start, end);
    ReorderKeepsOthers(list, start, end);
    ReorderKeepsOthers(r, end, start);
    assert SpliceOut(r, end) == SpliceOut(list, start) && r[end] == list[start];
    ReorderSamePlace(list, start);
  }

  /** Moving an element to its own position changes nothing (the drop guard skips that case anyway). */
  lemma ReorderSamePlace<T>(list: seq<T>, i: nat)
    requires i < |list|
    ensures Reorder(list, i, i) == list
  {
    var a := SpliceOut(list, i);
    assert a[..i] == list[..i];
    assert a[i..] == list[i + 1..];
    assert list == list[..i] + [list[i]] + list[i + 1..];
  }
}
