/**
  * `MarketGroups/Sidebar/index.tsx`: the list of a sport's market groups.
  * Every list the server returns is sorted in place by `order` (a stable
  * sort); a drag-and-drop moves one group inside the list array itself and
  * sends the list renumbered 1..n; removing the selected group clears the
  * page's selection.
  */
module MarketGroupsSidebar {
  import opened JsValues
  import opened MarketGroupTypes

  // ---------------------------------------------------------------------
  // sortByOrder
  // ---------------------------------------------------------------------

  predicate SortedByOrder(s: seq<MarketGroup>) {
    forall i, j :: 0 <= i < j < |s| ==> s[i].order <= s[j].order
  }

  /**
    * `x` placed into `s` after the last element whose order is not larger
    * than its own: walking from the back, it passes only larger orders.
    */
  function Insert(x: MarketGroup, s: seq<MarketGroup>): seq<MarketGroup>
  {
    if s == [] then [x]
    else if s[|s| - 1].order > x.order then Insert(x, s[..|s| - 1]) + [s[|s| - 1]]
    else s + [x]
  }

  /** The stable sort by `order` that `Array.prototype.sort` with `a.order - b.order` performs. */
  function StableSortByOrder(s: seq<MarketGroup>): seq<MarketGroup>
  {
    if s == [] then [] else Insert(s[|s| - 1], StableSortByOrder(s[..|s| - 1]))
  }

  /** The groups with a given order, in list order. */
  function WithOrder(s: seq<MarketGroup>, k: int): seq<MarketGroup>
  {
    if s == [] then []
    else WithOrder(s[..|s| - 1], k) + (if s[|s| - 1].order == k then [s[|s| - 1]] else [])
  }

  lemma {:induction false} WithOrderAppend(a: seq<MarketGroup>, b: seq<MarketGroup>, k: int)
    ensures WithOrder(a + b, k) == WithOrder(a, k) + WithOrder(b, k)
  {
    if b == [] {
      assert a + b == a;
    } else {
      WithOrderAppend(a, b[..|b| - 1], k);
      assert (a + b)[..|a + b| - 1] == a + b[..|b| - 1];
      assert (a + b)[|a + b| - 1] == b[|b| - 1];
    }
  }

  lemma {:induction false} InsertPermutes(x: MarketGroup, s: seq<MarketGroup>)
    ensures multiset(Insert(x, s)) == multiset(s) + multiset{x}
  {
    if s != [] && s[|s| - 1].order > x.order {
      InsertPermutes(x, s[..|s| - 1]);
      assert s == s[..|s| - 1] + [s[|s| - 1]];
    }
  }

  lemma {:induction false} InsertSorted(x: MarketGroup, s: seq<MarketGroup>)
    requires SortedByOrder(s)
    ensures SortedByOrder(Insert(x, s))
  {
    if s != [] && s[|s| - 1].order > x.order {
      var init := s[..|s| - 1];
      InsertSorted(x, init);
      InsertPermutes(x, init);
      var r := Insert(x, init);
      forall i | 0 <= i < |r|
        ensures r[i].order <= s[|s| - 1].order
      {
        assert r[i] in multiset(r);
        assert r[i] in multiset(init) || r[i] == x;
      }
    }
  }

  /** Inserting passes only larger orders, so among equal orders `x` comes last. */
  lemma {:induction false} InsertStable(x: MarketGroup, s: seq<MarketGroup>, k: int)
    ensures WithOrder(Insert(x, s), k) == WithOrder(s, k) + (if x.order == k then [x] else [])
  {
    if s == [] {
      assert WithOrder([x], k) == WithOrder([], k) + (if x.order == k then [x] else []);
    } else if s[|s| - 1].order > x.order {
      var init, last := s[..|s| - 1], s[|s| - 1];
      InsertStable(x, init, k);
      WithOrderAppend(Insert(x, init), [last], k);
      assert WithOrder([last], k) == WithOrder([], k) + (if last.order == k then [last] else []);
    } else {
      WithOrderAppend(s, [x], k);
      assert WithOrder([x], k) == WithOrder([], k) + (if x.order == k then [x] else []);
    }
  }

  /** The sorted list is non-decreasing by order. */
  lemma {:induction false} StableSortIsSorted(s: seq<MarketGroup>)
    ensures SortedByOrder(StableSortByOrder(s))
  {
    if s != [] {
      StableSortIsSorted(s[..|s| - 1]);
      InsertSorted(s[|s| - 1], StableSortByOrder(s[..|s| - 1]));
    }
  }

  /** The sorted list holds the same groups. */
  lemma {:induction false} StableSortPermutes(s: seq<MarketGroup>)
    ensures multiset(StableSortByOrder(s)) == multiset(s)
  {
    if s != [] {
      var init, last := s[..|s| - 1], s[|s| - 1];
      var sortedInit := StableSortByOrder(init);
      StableSortPermutes(init);
      InsertPermutes(last, sortedInit);
      PermutesStep(s, sortedInit, StableSortByOrder(s));
    }
  }

  /** Adding the last element to a list with the same members as the rest gives the members of the whole. */
  lemma PermutesStep(s: seq<MarketGroup>, sortedInit: seq<MarketGroup>, sorted: seq<MarketGroup>)
    requires s != []
    requires multiset(sortedInit) == multiset(s[..|s| - 1])
    requires multiset(sorted) == multiset(sortedInit) + multiset{s[|s| - 1]}
    ensures multiset(sorted) == multiset(s)
  {
    assert s == s[..|s| - 1] + [s[|s| - 1]];
  }

  /** Groups of equal order keep their original relative order. */
  lemma {:induction false} StableSortIsStable(s: seq<MarketGroup>, k: int)
    ensures WithOrder(StableSortByOrder(s), k) == WithOrder(s, k)
  {
    if s != [] {
      var init, last := s[..|s| - 1], s[|s| - 1];
      StableSortIsStable(init, k);
      InsertStable(last, StableSortByOrder(init), k);
    }
  }

  /** A list already in order is left as it is. */
  lemma {:induction false} SortedIsUnchanged(s: seq<MarketGroup>)
    requires SortedByOrder(s)
    ensures StableSortByOrder(s) == s
  {
    if s != [] {
      var init := s[..|s| - 1];
      SortedIsUnchanged(init);
      assert s == init + [s[|s| - 1]];
    }
  }

  /**
    * Where the walk from the back stops: after the prefix `s[..j]`, when
    * every later element has a larger order and `s[j - 1]` does not.
    */
  lemma {:induction false} InsertSplit(x: MarketGroup, s: seq<MarketGroup>, j: int)
    requires 0 <= j <= |s|
    requires forall k :: j <= k < |s| ==> s[k].order > x.order
    requires j == 0 || s[j - 1].order <= x.order
    ensures Insert(x, s) == s[..j] + [x] + s[j..]
  {
    if |s| > j {
      var init := s[..|s| - 1];
      InsertSplit(x, init, j);
      assert init[..j] == s[..j];
      assert init[j..] + [s[|s| - 1]] == s[j..];
    } else {
      assert s[..j] == s;
    }
  }

  /**
    * One step of the in-place insertion sort: `a[i]` moves left past the
    * larger orders before it, into the sorted prefix `a[..i]`.
    */
  method InsertInto(a: array<MarketGroup>, i: int)
    requires 0 <= i < a.Length
    modifies a
    ensures a[..i + 1] == Insert(old(a[i]), old(a[..i]))
    ensures a[i + 1..] == old(a[i + 1..])
  {
    ghost var s := a[..i];
    var x := a[i];
    var j := i;
    while j > 0 && a[j - 1].order > x.order
      invariant 0 <= j <= i
      invariant forall k :: 0 <= k < j ==> a[k] == s[k]
      invariant forall k :: j < k <= i ==> a[k] == s[k - 1]
      invariant forall k :: i < k < a.Length ==> a[k] == old(a[k])
      invariant forall k :: j <= k < i ==> s[k].order > x.order
    {
      a[j] := a[j - 1];
      j := j - 1;
    }
    a[j] := x;
    InsertSplit(x, s, j);
    SplicedAt(a[..i + 1], s, x, j);
  }

  /** A list that agrees with `s` before `j`, holds `x` at `j` and `s` shifted by one after it. */
  lemma SplicedAt<T>(r: seq<T>, s: seq<T>, x: T, j: int)
    requires 0 <= j <= |s| && |r| == |s| + 1
    requires forall k :: 0 <= k < j ==> r[k] == s[k]
    requires r[j] == x
    requires forall k :: j < k < |r| ==> r[k] == s[k - 1]
    ensures r == s[..j] + [x] + s[j..]
  {
  }

  /** `sortByOrder(data)`: sorts the array in place and returns it. */
  method SortByOrder(a: array<MarketGroup>) returns (sorted: array<MarketGroup>)
    modifies a
    ensures sorted == a
    ensures a[..] == StableSortByOrder(old(a[..]))
  {
    var i := 0;
    while i < a.Length
      invariant 0 <= i <= a.Length
      invariant a[..i] == StableSortByOrder(old(a[..])[..i])
      invariant a[i..] == old(a[i..])
    {
      assert old(a[..])[..i + 1][..i] == old(a[..])[..i];
      InsertInto(a, i);
      i := i + 1;
    }
    assert a[..] == a[..a.Length];
    assert old(a[..]) == old(a[..])[..a.Length];
    sorted := a;
  }

  // ---------------------------------------------------------------------
  // onDragEnd
  // ---------------------------------------------------------------------

  /** `s` without its element at index `k`. */
  function RemoveAt<T>(s: seq<T>, k: int): (r: seq<T>)
    requires 0 <= k < |s|
    ensures |r| == |s| - 1
  {
    s[..k] + s[k + 1..]
  }

  /** `splice(from, 1)` then `splice(to, 0, removed)`: the element at `from` moved to `to`. */
  function Move<T>(s: seq<T>, from: int, to: int): (r: seq<T>)
    requires 0 <= from < |s| && 0 <= to < |s|
    ensures |r| == |s|
    ensures r[to] == s[from]
  {
    var rest := RemoveAt(s, from);
    rest[..to] + [s[from]] + rest[to..]
  }

  /** Where each element of a moved list comes from. */
  function MovedFrom(from: int, to: int, k: int): int {
    if k == to then from
    else if from < to && from <= k < to then k + 1
    else if to < from && to < k <= from then k - 1
    else k
  }

  lemma MoveIndex<T>(s: seq<T>, from: int, to: int)
    requires 0 <= from < |s| && 0 <= to < |s|
    ensures forall k :: 0 <= k < |s| ==> 0 <= MovedFrom(from, to, k) < |s| && Move(s, from, to)[k] == s[MovedFrom(from, to, k)]
  {
    var rest := RemoveAt(s, from);
    assert forall k :: 0 <= k < |rest| ==> rest[k] == if k < from then s[k] else s[k + 1];
  }

  /** A move is a permutation. */
  lemma MovePermutes<T>(s: seq<T>, from: int, to: int)
    requires 0 <= from < |s| && 0 <= to < |s|
    ensures multiset(Move(s, from, to)) == multiset(s)
  {
    var rest := RemoveAt(s, from);
    assert s == s[..from] + [s[from]] + s[from + 1..];
    assert multiset(s) == multiset(s[..from]) + multiset{s[from]} + multiset(s[from + 1..]);
    assert rest == rest[..to] + rest[to..];
    assert multiset(rest) == multiset(s[..from]) + multiset(s[from + 1..]);
    assert multiset(rest) == multiset(rest[..to]) + multiset(rest[to..]);
    var r := Move(s, from, to);
    assert r == rest[..to] + [s[from]] + rest[to..];
    assert multiset(r) == multiset(rest[..to]) + multiset{s[from]} + multiset(rest[to..]);
    assert multiset(r) == multiset(rest) + multiset{s[from]};
    assert multiset(r) == multiset(s);
  }

  /** Taking the moved element back out leaves the other elements as they were, in their order. */
  lemma MoveKeepsOthers<T>(s: seq<T>, from: int, to: int)
    requires 0 <= from < |s| && 0 <= to < |s|
    ensures RemoveAt(Move(s, from, to), to) == RemoveAt(s, from)
  {
    var rest := RemoveAt(s, from);
    var r := Move(s, from, to);
    assert r[..to] == rest[..to];
    assert r[to + 1..] == rest[to..];
    assert rest == rest[..to] + rest[to..];
  }

  /** `marketGroups.map((market, index) => ({ ...market, order: index + 1 }))` */
  function Renumber(s: seq<MarketGroup>): (r: seq<MarketGroup>)
    ensures |r| == |s|
    ensures forall i :: 0 <= i < |s| ==> r[i].order == i + 1
    ensures forall i :: 0 <= i < |s| ==> r[i].(order := s[i].order) == s[i]
  {
    seq(|s|, i requires 0 <= i < |s| => s[i].(order := i + 1))
  }

  /** A renumbered list is in order, so the server echoing it back and the sort leave it as sent. */
  lemma RenumberSortedIsUnchanged(s: seq<MarketGroup>)
    ensures SortedByOrder(Renumber(s))
    ensures StableSortByOrder(Renumber(s)) == Renumber(s)
  {
    SortedIsUnchanged(Renumber(s));
  }

  /** The in-place move: the array's elements shift by one between `from` and `to`. */
  method MoveInPlace(a: array<MarketGroup>, from: int, to: int)
    requires 0 <= from < a.Length && 0 <= to < a.Length
    modifies a
    ensures a[..] == Move(old(a[..]), from, to)
  {
    ghost var s := a[..];
    var removed := a[from];
    if from < to {
      ShiftLeft(a, from, to);
    } else {
      ShiftRight(a, to, from);
    }
    assert forall k :: 0 <= k < a.Length && k != to ==> a[k] == s[MovedFrom(from, to, k)];
    a[to] := removed;
    MoveIndex(s, from, to);
    var r := Move(s, from, to);
    assert forall k :: 0 <= k < a.Length ==> a[k] == r[k];
    assert a[..] == r;
  }

  /** `a[lo..hi]` takes `a[lo + 1..hi + 1]`; `a[hi]` is left for the caller. */
  method ShiftLeft(a: array<MarketGroup>, lo: int, hi: int)
    requires 0 <= lo < hi < a.Length
    modifies a
    ensures forall k :: 0 <= k < a.Length && !(lo <= k < hi) ==> a[k] == old(a[k])
    ensures forall k :: lo <= k < hi ==> a[k] == old(a[k + 1])
  {
    var i := lo;
    while i < hi
      invariant lo <= i <= hi
      invariant forall k :: 0 <= k < a.Length && !(lo <= k < i) ==> a[k] == old(a[k])
      invariant forall k :: lo <= k < i ==> a[k] == old(a[k + 1])
    {
      a[i] := a[i + 1];
      i := i + 1;
    }
  }

  /** `a[lo + 1..hi + 1]` takes `a[lo..hi]`; `a[lo]` is left for the caller. */
  method ShiftRight(a: array<MarketGroup>, lo: int, hi: int)
    requires 0 <= lo <= hi < a.Length
    modifies a
    ensures forall k :: 0 <= k < a.Length && !(lo < k <= hi) ==> a[k] == old(a[k])
    ensures forall k :: lo < k <= hi ==> a[k] == old(a[k - 1])
  {
    var i := hi;
    while i > lo
      invariant lo <= i <= hi
      invariant forall k :: 0 <= k < a.Length && !(i < k <= hi) ==> a[k] == old(a[k])
      invariant forall k :: i < k <= hi ==> a[k] == old(a[k - 1])
    {
      a[i] := a[i - 1];
      i := i - 1;
    }
  }

  // ---------------------------------------------------------------------
  // createMarketGroup's messages
  // ---------------------------------------------------------------------

  const CreateFailedPrefix := "Failed to create market group. "

  /** The error `message.error` shows when creating a group fails with an HTTP status and message. */
  function CreateErrorMessage(name: string, status: int, errorMessage: string): (m: string)
    ensures CreateFailedPrefix <= m
    ensures status == 400 ==> |m| == |CreateFailedPrefix| + 13 + |name| + 15
    ensures status == 400 ==> m[|CreateFailedPrefix| + 13..|m| - 15] == name
    ensures status != 400 ==> m[|CreateFailedPrefix|..] == errorMessage
  {
    CreateFailedPrefix + (if status == 400 then "Market group " + name + " already exists" else errorMessage)
  }

  /** Different names give different "already exists" messages. */
  lemma ConflictMessageNamesTheGroup(n1: string, n2: string, e1: string, e2: string)
    requires CreateErrorMessage(n1, 400, e1) == CreateErrorMessage(n2, 400, e2)
    ensures n1 == n2
  {
  }

  // ---------------------------------------------------------------------
  // The sidebar's state
  // ---------------------------------------------------------------------

  class Sidebar {
    /** The list state; the drop handler writes into this very array. */
    var marketGroups: array<MarketGroup>
    var loading: bool
    /** The sidebar's own highlighted group. */
    var selectedMarketGroup: Option<MarketGroup>

    constructor ()
      ensures marketGroups.Length == 0 && !loading && selectedMarketGroup.None?
    {
      marketGroups := new MarketGroup[0];
      loading := false;
      selectedMarketGroup := None;
    }

    /**
      * `onDragEnd`: without a destination nothing changes. Otherwise the
      * group at the source index is moved to the destination inside the
      * state array itself, and the list renumbered 1..n is what `updateOrder`
      * is called with.
      */
    method OnDragEnd(source: int, destination: Option<int>) returns (ordersToUpdate: Option<seq<MarketGroup>>)
      requires 0 <= source < marketGroups.Length
      requires destination.Some? ==> 0 <= destination.value < marketGroups.Length
      modifies marketGroups
      ensures destination.None? ==> ordersToUpdate.None? && marketGroups[..] == old(marketGroups[..])
      ensures destination.Some? ==>
        && marketGroups[..] == Move(old(marketGroups[..]), source, destination.value)
        && ordersToUpdate == Some(Renumber(marketGroups[..]))
    {
      if destination.None? {
        return None;
      }
      MoveInPlace(marketGroups, source, destination.value);
      ordersToUpdate := Some(Renumber(marketGroups[..]));
    }

    /** `setMarketGroups(sortByOrder(data))` for a list the server returned. */
    method SetSortedMarketGroups(data: array<MarketGroup>)
      modifies this, data
      ensures marketGroups == data
      ensures data[..] == StableSortByOrder(old(data[..]))
      ensures loading == old(loading) && selectedMarketGroup == old(selectedMarketGroup)
    {
      var sorted := SortByOrder(data);
      marketGroups := sorted;
    }

    /**
      * The load effect. For a chosen sport, loading starts and the request is
      * sent; `data` is the server's list, or `None` when the request fails.
      * With a list, its groups are stored sorted, loading ends and the page's
      * selection is cleared (returned true). A failure is not caught: the
      * `then` callback never runs, so loading stays on and nothing else
      * changes. Without a sport nothing happens.
      */
    method LoadMarketGroups(sportId: Option<int>, data: Option<array<MarketGroup>>) returns (clearSelection: bool)
      modifies this, if data.Some? then {data.value} else {}
      ensures clearSelection <==> TruthyNum(sportId) && data.Some?
      ensures TruthyNum(sportId) && data.Some? ==>
        marketGroups == data.value && data.value[..] == StableSortByOrder(old(data.value[..])) && !loading
      ensures TruthyNum(sportId) && data.None? ==>
        marketGroups == old(marketGroups) && marketGroups[..] == old(marketGroups[..]) && loading
      ensures !TruthyNum(sportId) ==> marketGroups == old(marketGroups) && loading == old(loading)
      ensures !TruthyNum(sportId) && data.Some? ==> data.value[..] == old(data.value[..])
      ensures selectedMarketGroup == old(selectedMarketGroup)
    {
      clearSelection := false;
      if TruthyNum(sportId) {
        loading := true;
        if data.Some? {
          SetSortedMarketGroups(data.value);
          clearSelection := true;
          loading := false;
        }
      }
    }

    /**
      * `removeMarketGroup(id)`: loading starts and the delete is sent; `data`
      * is the server's remaining list, or `None` when the request fails.
      * With a list, it is stored sorted, loading ends, and the page's
      * selection is cleared (`select(undefined)`, returned true) exactly when
      * the removed group is the page's selected one. A failure is not
      * caught: loading stays on, the list stays as it was and nothing is
      * cleared.
      */
    method RemoveMarketGroup(id: int, selected: Option<MarketGroup>, data: Option<array<MarketGroup>>)
      returns (clearSelection: bool)
      modifies this, if data.Some? then {data.value} else {}
      ensures clearSelection <==> data.Some? && selected.Some? && selected.value.id == id
      ensures data.Some? ==>
        marketGroups == data.value && data.value[..] == StableSortByOrder(old(data.value[..])) && !loading
      ensures data.None? ==>
        marketGroups == old(marketGroups) && marketGroups[..] == old(marketGroups[..]) && loading
      ensures selectedMarketGroup == old(selectedMarketGroup)
    {
      loading := true;
      clearSelection := false;
      if data.Some? {
        SetSortedMarketGroups(data.value);
        clearSelection := selected.Some? && selected.value.id == id;
        loading := false;
      }
    }

    /** `onMarketGroupSelect(marketGroup)`: highlights the group and passes it to the page's `select`. */
    method OnMarketGroupSelect(marketGroup: Option<MarketGroup>) returns (selectedForPage: Option<MarketGroup>)
      modifies this
      ensures selectedMarketGroup == marketGroup && selectedForPage == marketGroup
      ensures marketGroups == old(marketGroups) && loading == old(loading)
    {
      selectedMarketGroup := marketGroup;
      selectedForPage := marketGroup;
    }
  }
}
