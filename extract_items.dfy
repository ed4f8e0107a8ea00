/**
 * The handler of the ExtractItems operation: from an input made of inner
 * iterables it takes, for every inner iterable in turn, the item at a fixed
 * 0-based selection.
 *
 * A `java.util.List` is read by index and left alone. Any other iterable is
 * walked with its iterator, and every element before the selection is
 * removed from it on the way: the scan is destructive. The same iterable may
 * occur more than once in the input, so the handler is specified against the
 * contents of every such iterable (a map from the object to its elements),
 * which the scan updates as it goes.
 */
module ExtractItems {
  import opened Wrappers

  /** What the handler throws. */
  datatype Failure =
    | OperationNull                            // "Operation cannot be null"
    | InputNull                                // "Input cannot be null"
    | IndexOutOfBounds(index: int, size: nat)  // List.get outside the list
    | NoSuchElement                            // Iterator.next past the last element
    | NullIterable                             // an inner iterable that is itself null

  /** An inner iterable that is not a List: forward iteration with remove() only. */
  class ScanIterable<T> {
    var elems: seq<T>

    constructor (s: seq<T>)
      ensures elems == s
    {
      elems := s;
    }

    /**
     * Advances an iterator to the selection, removing each element it passes,
     * and returns the element found there.
     */
    method Extract(selection: int) returns (r: Result<T, Failure>)
      modifies this
      ensures r == ScanExtract(old(elems), selection).item
      ensures elems == ScanExtract(old(elems), selection).rest
    {
      var count := 0;
      while count < selection
        invariant 0 <= count <= |old(elems)|
        invariant count <= selection || count == 0
        invariant elems == old(elems)[count..]
      {
        if elems == [] {
          // iterator.next() on an exhausted iterator
          return Err(NoSuchElement);
        }
        // iterator.next() returns the front element, iterator.remove() deletes it
        elems := elems[1..];
        count := count + 1;
      }
      if elems == [] {
        return Err(NoSuchElement);
      }
      r := Ok(elems[0]);
    }
  }

  /** The item a scan returns and the elements the iterable keeps. */
  datatype Scan<T> = Scan(item: Result<T, Failure>, rest: seq<T>)

  /**
   * Reference behaviour of the destructive scan: it removes the first
   * min(selection, |s|) elements (none for a selection of zero or below)
   * and then reads the element now at the front, if any.
   */
  function ScanExtract<T>(s: seq<T>, selection: int): (r: Scan<T>)
    ensures |r.rest| == if selection <= 0 then |s| else if selection < |s| then |s| - selection else 0
    ensures r.rest == s[|s| - |r.rest|..]
    ensures r.item.Ok? <==> r.rest != []
    ensures r.item.Ok? ==> r.item.value == r.rest[0]
    ensures r.item.Err? ==> r.item.error == NoSuchElement
  {
    var skipped := if selection <= 0 then 0 else if selection < |s| then selection else |s|;
    var rest := s[skipped..];
    Scan(if rest == [] then Err(NoSuchElement) else Ok(rest[0]), rest)
  }

  /** A selection inside the iterable: its element, and exactly the elements before it are gone. */
  lemma {:induction false} ScanExtractInRange<T>(s: seq<T>, selection: int)
    requires 0 <= selection < |s|
    ensures ScanExtract(s, selection).item == Ok(s[selection])
    ensures s == s[..selection] + ScanExtract(s, selection).rest
  {
  }

  /** A selection of zero reads the first element and removes nothing. */
  lemma {:induction false} ScanExtractZero<T>(s: seq<T>)
    requires s != []
    ensures ScanExtract(s, 0) == Scan(Ok(s[0]), s)
  {
  }

  /** An iterable of at most `selection` elements fails, after every element has been removed. */
  lemma {:induction false} ScanExtractTooShort<T>(s: seq<T>, selection: int)
    requires 0 <= selection && |s| <= selection
    ensures ScanExtract(s, selection) == Scan(Err(NoSuchElement), [])
  {
  }

  /** `List.get(selection)`: the element at the index, or an out-of-bounds failure. */
  function ListExtract<T>(items: seq<T>, selection: int): (r: Result<T, Failure>)
    ensures r.Ok? <==> 0 <= selection < |items|
    ensures r.Ok? ==> r.value == items[selection]
    ensures r.Err? ==> r.error == IndexOutOfBounds(selection, |items|)
  {
    if 0 <= selection < |items| then Ok(items[selection])
    else Err(IndexOutOfBounds(selection, |items|))
  }

  /** One inner iterable of the input. */
  datatype Inner<T> =
    | ListInner(items: seq<T>)
    | ScanInner(iterable: ScanIterable<T>)
    | NullInner

  /** The contents of every non-List iterable, by object. */
  type Contents<T> = map<ScanIterable<T>, seq<T>>

  datatype ExtractItemsOp<T> = ExtractItemsOp(input: Option<seq<Inner<T>>>, selection: int)

  /** The item one extraction yields together with the contents of the iterables afterwards. */
  datatype Step<T> = Step(item: Result<T, Failure>, after: Contents<T>)

  /** The outcome of a run together with the contents of the iterables afterwards. */
  datatype Run<T> = Run(result: Result<seq<T>, Failure>, after: Contents<T>)

  /** The non-List iterables that occur in the input. */
  ghost function Iterables<T>(inners: seq<Inner<T>>): set<ScanIterable<T>>
  {
    set i | i in inners && i.ScanInner? :: i.iterable
  }

  ghost function Footprint<T>(op: Option<ExtractItemsOp<T>>): set<ScanIterable<T>>
  {
    if op.Some? && op.value.input.Some? then Iterables(op.value.input.value) else {}
  }

  ghost function Snapshot<T>(its: set<ScanIterable<T>>): Contents<T>
    reads its
  {
    map c | c in its :: c.elems
  }

  /** Contents tracked alongside the iterables are their snapshot. */
  lemma {:induction false} SnapshotOf<T>(its: set<ScanIterable<T>>, heap: Contents<T>)
    requires heap.Keys == its
    requires forall c :: c in its ==> c.elems == heap[c]
    ensures Snapshot(its) == heap
  {
  }

  predicate Covers<T>(inners: seq<Inner<T>>, heap: Contents<T>)
  {
    forall i :: 0 <= i < |inners| && inners[i].ScanInner? ==> inners[i].iterable in heap
  }

  /** What the inner iterable holds right now. */
  function ElementsOf<T>(inner: Inner<T>, heap: Contents<T>): seq<T>
    requires inner.ScanInner? ==> inner.iterable in heap
  {
    match inner
    case ListInner(items) => items
    case ScanInner(c) => heap[c]
    case NullInner => []
  }

  /** `extract`: index a List, scan anything else; a null inner iterable throws. */
  function ExtractOne<T>(inner: Inner<T>, selection: int, heap: Contents<T>): (r: Step<T>)
    requires inner.ScanInner? ==> inner.iterable in heap
    ensures r.after.Keys == heap.Keys
    ensures !inner.ScanInner? ==> r.after == heap
  {
    match inner
    case NullInner => Step(Err(NullIterable), heap)
    case ListInner(items) => Step(ListExtract(items, selection), heap)
    case ScanInner(c) =>
      var scan := ScanExtract(heap[c], selection);
      Step(scan.item, heap[c := scan.rest])
  }

  /** The stream map over the outer input, in order, stopping at the first failure. */
  function ExtractAll<T>(inners: seq<Inner<T>>, selection: int, heap: Contents<T>): (r: Run<T>)
    requires Covers(inners, heap)
    ensures r.after.Keys == heap.Keys
    ensures r.result.Ok? ==> |r.result.value| == |inners|
    decreases |inners|
  {
    if inners == [] then Run(Ok([]), heap)
    else
      var n := |inners| - 1;
      var prefix := ExtractAll(inners[..n], selection, heap);
      if prefix.result.Err? then prefix
      else
        var step := ExtractOne(inners[n], selection, prefix.after);
        if step.item.Err? then Run(Err(step.item.error), step.after)
        else Run(Ok(prefix.result.value + [step.item.value]), step.after)
  }

  /** Extending the input by one inner iterable extends the run by one extraction. */
  lemma {:induction false} ExtractAllSnoc<T>(inners: seq<Inner<T>>, i: nat, selection: int, heap: Contents<T>)
    requires i < |inners| && Covers(inners, heap)
    ensures Covers(inners[..i], heap)
    ensures var prefix := ExtractAll(inners[..i], selection, heap);
      prefix.result.Ok? ==>
        var step := ExtractOne(inners[i], selection, prefix.after);
        ExtractAll(inners[..i + 1], selection, heap)
          == if step.item.Err? then Run(Err(step.item.error), step.after)
             else Run(Ok(prefix.result.value + [step.item.value]), step.after)
  {
    assert inners[..i + 1][..i] == inners[..i];
  }

  /** A prefix of a covered input is covered. */
  lemma {:induction false} CoversPrefix<T>(inners: seq<Inner<T>>, k: nat, heap: Contents<T>)
    requires k <= |inners| && Covers(inners, heap)
    ensures Covers(inners[..k], heap)
  {
    forall i | 0 <= i < k ensures inners[..k][i] == inners[i] { }
  }

  /** A run over all but the last inner that fails is the whole run. */
  lemma {:induction false} FailurePropagates<T>(inners: seq<Inner<T>>, selection: int, heap: Contents<T>)
    requires inners != [] && Covers(inners, heap) && Covers(inners[..|inners| - 1], heap)
    requires ExtractAll(inners[..|inners| - 1], selection, heap).result.Err?
    ensures ExtractAll(inners, selection, heap) == ExtractAll(inners[..|inners| - 1], selection, heap)
  {
  }

  /** A failure ends the run: no later inner iterable is touched. */
  lemma {:induction false} FailureIsFinal<T>(inners: seq<Inner<T>>, k: nat, selection: int, heap: Contents<T>)
    requires k <= |inners| && Covers(inners, heap)
    requires ExtractAll(inners[..k], selection, heap).result.Err?
    ensures ExtractAll(inners, selection, heap) == ExtractAll(inners[..k], selection, heap)
    decreases |inners|
  {
    if k < |inners| {
      var n := |inners| - 1;
      var init := inners[..n];
      CoversPrefix(inners, n, heap);
      assert init[..k] == inners[..k];
      FailureIsFinal(init, k, selection, heap);
      FailurePropagates(inners, selection, heap);
    } else {
      assert inners[..k] == inners;
    }
  }

  /** No non-List iterable occurs twice in the input. */
  predicate Unaliased<T>(inners: seq<Inner<T>>)
  {
    forall i, j :: 0 <= i < j < |inners| && inners[i].ScanInner? && inners[j].ScanInner? ==>
      inners[i].iterable != inners[j].iterable
  }

  /** Every inner iterable is present and holds an element at the selection. */
  predicate AllReachSelection<T>(inners: seq<Inner<T>>, selection: nat, heap: Contents<T>)
    requires Covers(inners, heap)
  {
    forall i :: 0 <= i < |inners| ==> !inners[i].NullInner? && selection < |ElementsOf(inners[i], heap)|
  }

  lemma {:induction false} IterablesSnoc<T>(inners: seq<Inner<T>>)
    requires inners != []
    ensures var n := |inners| - 1;
      Iterables(inners) == Iterables(inners[..n]) + (if inners[n].ScanInner? then {inners[n].iterable} else {})
  {
    var n := |inners| - 1;
    assert inners == inners[..n] + [inners[n]];
    forall c | c in Iterables(inners)
      ensures c in Iterables(inners[..n]) || (inners[n].ScanInner? && c == inners[n].iterable)
    {
      var i :| i in inners && i.ScanInner? && i.iterable == c;
      if i != inners[n] {
        assert i in inners[..n];
      }
    }
  }

  /** The iterables of the input before position n are other objects than the one at n. */
  lemma {:induction false} NotEarlier<T>(inners: seq<Inner<T>>, n: nat)
    requires n < |inners| && Unaliased(inners) && inners[n].ScanInner?
    ensures inners[n].iterable !in Iterables(inners[..n])
  {
  }

  /** One extraction succeeds exactly when the inner iterable is present and reaches the selection. */
  lemma {:induction false} ExtractOneSucceedsIff<T>(inner: Inner<T>, selection: nat, heap: Contents<T>)
    requires inner.ScanInner? ==> inner.iterable in heap
    ensures ExtractOne(inner, selection, heap).item.Ok?
      <==> !inner.NullInner? && selection < |ElementsOf(inner, heap)|
  {
  }

  /** Dropping the last inner iterable keeps the input covered and unaliased. */
  lemma {:induction false} InitKeepsShape<T>(inners: seq<Inner<T>>, heap: Contents<T>)
    requires inners != [] && Covers(inners, heap) && Unaliased(inners)
    ensures Covers(inners[..|inners| - 1], heap) && Unaliased(inners[..|inners| - 1])
  {
  }

  /** Every inner reaches the selection exactly when those before the last do and the last one does. */
  lemma {:induction false} AllReachSnoc<T>(inners: seq<Inner<T>>, selection: nat, heap: Contents<T>)
    requires inners != [] && Covers(inners, heap)
    ensures var n := |inners| - 1;
      Covers(inners[..n], heap) &&
      (AllReachSelection(inners, selection, heap) <==>
        AllReachSelection(inners[..n], selection, heap) &&
        !inners[n].NullInner? && selection < |ElementsOf(inners[n], heap)|)
  {
    var n := |inners| - 1;
    forall i | 0 <= i < n ensures inners[..n][i] == inners[i] { }
  }

  /** After a successful run over the earlier inners, the last inner still holds what it held. */
  lemma {:induction false} LastUntouched<T>(inners: seq<Inner<T>>, selection: nat, heap: Contents<T>)
    requires inners != [] && Covers(inners, heap) && Unaliased(inners)
    requires Covers(inners[..|inners| - 1], heap)
    requires ExtractAll(inners[..|inners| - 1], selection, heap).result.Ok?
    ensures var n := |inners| - 1;
      var after := ExtractAll(inners[..n], selection, heap).after;
      (inners[n].ScanInner? ==> inners[n].iterable in after) &&
      ElementsOf(inners[n], after) == ElementsOf(inners[n], heap)
  {
    var n := |inners| - 1;
    InitKeepsShape(inners, heap);
    ExtractAllAfter(inners[..n], selection, heap);
    if inners[n].ScanInner? {
      NotEarlier(inners, n);
    }
  }

  /**
   * With a non-negative selection and no iterable repeated, the handler
   * succeeds exactly when every inner iterable is present and reaches the
   * selection; one that is null or too short makes it fail, never clamp.
   */
  lemma {:induction false} ExtractAllSucceedsIff<T>(inners: seq<Inner<T>>, selection: nat, heap: Contents<T>)
    requires Covers(inners, heap) && Unaliased(inners)
    ensures ExtractAll(inners, selection, heap).result.Ok? <==> AllReachSelection(inners, selection, heap)
    decreases |inners|
  {
    if inners != [] {
      var n := |inners| - 1;
      InitKeepsShape(inners, heap);
      ExtractAllSucceedsIff(inners[..n], selection, heap);
      AllReachSnoc(inners, selection, heap);
      var prefix := ExtractAll(inners[..n], selection, heap);
      if prefix.result.Ok? {
        LastUntouched(inners, selection, heap);
        ExtractOneSucceedsIff(inners[n], selection, prefix.after);
      }
    }
  }

  /**
   * After a successful run every non-List iterable of the input has lost
   * exactly its first `selection` elements, and nothing else has changed.
   */
  lemma {:induction false} ExtractAllAfter<T>(inners: seq<Inner<T>>, selection: nat, heap: Contents<T>)
    requires Covers(inners, heap) && Unaliased(inners)
    ensures var run := ExtractAll(inners, selection, heap);
      run.result.Ok? ==> forall c :: c in heap ==>
        if c in Iterables(inners) then selection <= |heap[c]| && run.after[c] == heap[c][selection..]
        else run.after[c] == heap[c]
    decreases |inners|
  {
    if inners == [] {
      assert Iterables(inners) == {};
    } else {
      var n := |inners| - 1;
      var xs := inners[..n];
      assert Covers(xs, heap) && Unaliased(xs);
      ExtractAllAfter(xs, selection, heap);
      IterablesSnoc(inners);
      if inners[n].ScanInner? {
        NotEarlier(inners, n);
      }
    }
  }

  /** A successful run returns, in input order, the element at the selection of each inner iterable. */
  lemma {:induction false} ExtractAllItems<T>(inners: seq<Inner<T>>, selection: nat, heap: Contents<T>)
    requires Covers(inners, heap) && Unaliased(inners)
    ensures var run := ExtractAll(inners, selection, heap);
      run.result.Ok? ==> forall i :: 0 <= i < |inners| ==>
        selection < |ElementsOf(inners[i], heap)| && run.result.value[i] == ElementsOf(inners[i], heap)[selection]
    decreases |inners|
  {
    if inners != [] {
      var n := |inners| - 1;
      var xs := inners[..n];
      assert Covers(xs, heap) && Unaliased(xs);
      ExtractAllItems(xs, selection, heap);
      ExtractAllAfter(xs, selection, heap);
      var prefix := ExtractAll(xs, selection, heap);
      var run := ExtractAll(inners, selection, heap);
      if run.result.Ok? {
        assert prefix.result.Ok?;
        if inners[n].ScanInner? {
          NotEarlier(inners, n);
        }
        var elems := ElementsOf(inners[n], heap);
        assert ElementsOf(inners[n], prefix.after) == elems;
        var x := ExtractOne(inners[n], selection, prefix.after).item;
        assert x.Ok? && selection < |elems| && x.value == elems[selection];
        assert run.result.value == prefix.result.value + [x.value];
        forall i | 0 <= i < n
          ensures selection < |ElementsOf(inners[i], heap)| && run.result.value[i] == ElementsOf(inners[i], heap)[selection]
        {
          assert xs[i] == inners[i];
        }
      }
    }
  }

  /**
   * A negative selection: `List.get` fails with an out-of-bounds index, while
   * the scan never advances, removes nothing and returns the first element.
   */
  lemma {:induction false} NegativeSelection<T>(items: seq<T>, c: ScanIterable<T>, selection: int, heap: Contents<T>)
    requires selection < 0 && c in heap && heap[c] != []
    ensures ExtractOne(ListInner(items), selection, heap).item == Err(IndexOutOfBounds(selection, |items|))
    ensures ExtractOne(ScanInner(c), selection, heap) == Step(Ok(heap[c][0]), heap)
  {
    assert ScanExtract(heap[c], selection).rest == heap[c][0..];
    assert heap[c][0..] == heap[c];
    assert heap[c := heap[c]] == heap;
  }

  /** [[a,b,c],[d,e,f]] of Lists with selection 1 gives [b,e] and changes nothing. */
  lemma {:induction false} ListScenario<T>(a: T, b: T, c: T, d: T, e: T, f: T, heap: Contents<T>)
    ensures ExtractAll([ListInner([a, b, c]), ListInner([d, e, f])], 1, heap) == Run(Ok([b, e]), heap)
  {
    var lists := [ListInner([a, b, c]), ListInner([d, e, f])];
    assert lists[..0] == [] && lists[..2] == lists;
    ExtractAllSnoc(lists, 0, 1, heap);
    ExtractAllSnoc(lists, 1, 1, heap);
    var first := ExtractOne(lists[0], 1, heap).item;
    var second := ExtractOne(lists[1], 1, heap).item;
    assert first.value == b && second.value == e;
    assert [] + [first.value] == [b];
    assert [b] + [second.value] == [b, e];
  }

  /** The first of two non-List iterables: [a,b,c] yields b and keeps [b,c]. */
  lemma {:induction false} ScanScenarioFirst<T>(a: T, b: T, c: T, scans: seq<Inner<T>>, heap: Contents<T>)
    requires |scans| == 2 && scans[0].ScanInner? && Covers(scans, heap)
    requires heap[scans[0].iterable] == [a, b, c]
    ensures Covers(scans[..1], heap)
    ensures ExtractAll(scans[..1], 1, heap) == Run(Ok([b]), heap[scans[0].iterable := [b, c]])
  {
    assert scans[..0] == [];
    ExtractAllSnoc(scans, 0, 1, heap);
    assert [a, b, c][1..] == [b, c];
    assert [] + [b] == [b];
  }

  /** The second of two non-List iterables: [d,e,f] yields e and keeps [e,f]. */
  lemma {:induction false} ScanScenarioSecond<T>(b: T, d: T, e: T, f: T, scans: seq<Inner<T>>, heap: Contents<T>, mid: Contents<T>)
    requires |scans| == 2 && scans[1].ScanInner? && Covers(scans, heap) && Covers(scans[..1], heap)
    requires ExtractAll(scans[..1], 1, heap) == Run(Ok([b]), mid)
    requires scans[1].iterable in mid && mid[scans[1].iterable] == [d, e, f]
    ensures ExtractAll(scans, 1, heap) == Run(Ok([b, e]), mid[scans[1].iterable := [e, f]])
  {
    ExtractAllSnoc(scans, 1, 1, heap);
    assert scans[..2] == scans;
    assert [d, e, f][1..] == [e, f];
    assert [b] + [e] == [b, e];
  }

  /** The same input of non-List iterables gives [b,e] and leaves them holding [b,c] and [e,f]. */
  lemma {:induction false} ScanScenario<T>(a: T, b: T, c: T, d: T, e: T, f: T,
                        it1: ScanIterable<T>, it2: ScanIterable<T>, heap: Contents<T>)
    requires it1 != it2 && heap == map[it1 := [a, b, c], it2 := [d, e, f]]
    ensures ExtractAll([ScanInner(it1), ScanInner(it2)], 1, heap)
         == Run(Ok([b, e]), map[it1 := [b, c], it2 := [e, f]])
  {
    var scans := [ScanInner(it1), ScanInner(it2)];
    ScanScenarioFirst(a, b, c, scans, heap);
    var mid := heap[it1 := [b, c]];
    ScanScenarioSecond(b, d, e, f, scans, heap, mid);
    assert mid[it2 := [e, f]] == map[it1 := [b, c], it2 := [e, f]];
  }

  /** `doOperation`: the two null checks, then the extraction over the whole input. */
  function Handle<T>(op: Option<ExtractItemsOp<T>>, heap: Contents<T>): (r: Run<T>)
    requires op.Some? && op.value.input.Some? ==> Covers(op.value.input.value, heap)
    ensures op.None? ==> r == Run(Err(OperationNull), heap)
    ensures op.Some? && op.value.input.None? ==> r == Run(Err(InputNull), heap)
  {
    if op.None? then Run(Err(OperationNull), heap)
    else if op.value.input.None? then Run(Err(InputNull), heap)
    else ExtractAll(op.value.input.value, op.value.selection, heap)
  }

  /** `extract` on one inner iterable, against the contents the scan sees. */
  method ExtractFrom<T>(inner: Inner<T>, selection: int, ghost fp: set<ScanIterable<T>>, ghost heap: Contents<T>)
      returns (x: Result<T, Failure>, ghost after: Contents<T>)
    requires inner.ScanInner? ==> inner.iterable in fp
    requires Snapshot(fp) == heap
    modifies if inner.ScanInner? then {inner.iterable} else {}
    ensures Step(x, after) == ExtractOne(inner, selection, heap)
    ensures Snapshot(fp) == after
  {
    match inner {
      case NullInner =>
        x, after := Err(NullIterable), heap;
      case ListInner(items) =>
        x, after := ListExtract(items, selection), heap;
      case ScanInner(c) =>
        x := c.Extract(selection);
        after := heap[c := c.elems];
        SnapshotOf(fp, after);
    }
  }

  /** The stream map over the outer input, run against the live iterables. */
  method ExtractEach<T>(inners: seq<Inner<T>>, selection: int) returns (r: Result<seq<T>, Failure>)
    modifies Iterables(inners)
    ensures Covers(inners, old(Snapshot(Iterables(inners))))
    ensures ExtractAll(inners, selection, old(Snapshot(Iterables(inners)))) == Run(r, Snapshot(Iterables(inners)))
  {
    ghost var fp := Iterables(inners);
    ghost var heap := Snapshot(fp);
    ghost var before := heap;
    assert Covers(inners, before) by {
      forall i | 0 <= i < |inners| && inners[i].ScanInner?
        ensures inners[i].iterable in before
      {
        assert inners[i] in inners;
      }
    }
    var out: seq<T> := [];
    var i := 0;
    while i < |inners|
      invariant 0 <= i <= |inners|
      invariant Snapshot(fp) == heap
      invariant ExtractAll(inners[..i], selection, before).result == Ok(out)
      invariant ExtractAll(inners[..i], selection, before).after == heap
    {
      ExtractAllSnoc(inners, i, selection, before);
      assert inners[i].ScanInner? ==> inners[i].iterable in fp by {
        assert inners[i] in inners;
      }
      var x: Result<T, Failure>;
      x, heap := ExtractFrom(inners[i], selection, fp, heap);
      if x.Err? {
        FailureIsFinal(inners, i + 1, selection, before);
        return Err(x.error);
      }
      out := out + [x.value];
      i := i + 1;
    }
    assert inners[..i] == inners;
    r := Ok(out);
  }

  method DoOperation<T>(op: Option<ExtractItemsOp<T>>) returns (r: Result<seq<T>, Failure>)
    modifies Footprint(op)
    ensures Handle(op, old(Snapshot(Footprint(op)))) == Run(r, Snapshot(Footprint(op)))
  {
    if op.None? {
      return Err(OperationNull);
    }
    if op.value.input.None? {
      return Err(InputNull);
    }
    r := ExtractEach(op.value.input.value, op.value.selection);
  }
}
