/** What list.sort(key=...) does to a device history: the ordering is determined by being
    sorted and by keeping the items of equal timestamp in their processing order. */
module StableSort {
  import opened DeviceRecord

  ghost predicate Sorted(items: seq<HistoryItem>) {
    forall i, j :: 0 <= i < j < |items| ==> items[i].stamp <= items[j].stamp
  }

  /** The items with timestamp t, in order. */
  function At(items: seq<HistoryItem>, t: int): seq<HistoryItem> {
    if items == [] then []
    else Single(items[0], t) + At(items[1..], t)
  }

  function Single(item: HistoryItem, t: int): seq<HistoryItem> { if item.stamp == t then [item] else [] }

  /** A stable rearrangement: per timestamp the same items in the same order. */
  ghost predicate Rearranges(sorted: seq<HistoryItem>, items: seq<HistoryItem>) {
    forall t :: At(sorted, t) == At(items, t)
  }

  function InsertFirst(item: HistoryItem, items: seq<HistoryItem>): seq<HistoryItem> {
    if items == [] || item.stamp <= items[0].stamp then [item] + items
    else [items[0]] + InsertFirst(item, items[1..])
  }

  function SortByStamp(items: seq<HistoryItem>): seq<HistoryItem> {
    if items == [] then [] else InsertFirst(items[0], SortByStamp(items[1..]))
  }

  lemma {:induction false} InsertKeepsSorted(item: HistoryItem, items: seq<HistoryItem>)
    requires Sorted(items)
    ensures Sorted(InsertFirst(item, items))
    ensures |InsertFirst(item, items)| == |items| + 1
    ensures forall x :: x in InsertFirst(item, items) <==> x == item || x in items
  {
    if items != [] && item.stamp > items[0].stamp {
      InsertKeepsSorted(item, items[1..]);
      assert forall x :: x in items <==> x == items[0] || x in items[1..];
      var rest := InsertFirst(item, items[1..]);
      forall k | 0 <= k < |rest| ensures items[0].stamp <= rest[k].stamp {
        assert rest[k] in rest;
        if rest[k] in items[1..] {
          var j :| 0 <= j < |items[1..]| && items[1..][j] == rest[k];
          assert items[j + 1] == rest[k];
        }
      }
    }
  }

  lemma {:induction false} InsertAt(item: HistoryItem, items: seq<HistoryItem>, t: int)
    ensures At(InsertFirst(item, items), t) == Single(item, t) + At(items, t)
  {
    if items != [] && item.stamp > items[0].stamp {
      InsertAt(item, items[1..], t);
      AtCons(items[0], InsertFirst(item, items[1..]), t);
      OneIsEmpty(Single(items[0], t), Single(item, t), At(items[1..], t));
    } else {
      AtCons(item, items, t);
    }
  }

  lemma AtCons(item: HistoryItem, items: seq<HistoryItem>, t: int)
    ensures At([item] + items, t) == Single(item, t) + At(items, t)
  {
    assert ([item] + items)[1..] == items;
  }

  lemma OneIsEmpty(a: seq<HistoryItem>, b: seq<HistoryItem>, c: seq<HistoryItem>)
    requires a == [] || b == []
    ensures a + (b + c) == b + (a + c)
  {}

  lemma {:induction false} SortIsStable(items: seq<HistoryItem>)
    ensures Sorted(SortByStamp(items)) && Rearranges(SortByStamp(items), items)
    ensures |SortByStamp(items)| == |items|
  {
    if items != [] {
      SortIsStable(items[1..]);
      InsertKeepsSorted(items[0], SortByStamp(items[1..]));
      forall t ensures At(SortByStamp(items), t) == At(items, t) {
        InsertAt(items[0], SortByStamp(items[1..]), t);
      }
    }
  }

  lemma {:induction false} AtMembers(items: seq<HistoryItem>, t: int)
    ensures forall x :: x in At(items, t) <==> x in items && x.stamp == t
    ensures items != [] && items[0].stamp == t ==> At(items, t) != [] && At(items, t)[0] == items[0]
  {
    if items != [] {
      AtMembers(items[1..], t);
      assert forall x :: x in items <==> x == items[0] || x in items[1..];
    }
  }

  /** There is only one sorted, stable rearrangement, so any correct stable sort gives it. */
  lemma {:induction false} StableSortIsUnique(a: seq<HistoryItem>, b: seq<HistoryItem>)
    requires Sorted(a) && Sorted(b) && Rearranges(a, b)
    ensures a == b
    decreases |a|
  {
    if a == [] || b == [] {
      if a != [] { AtMembers(a, a[0].stamp); }
      if b != [] { AtMembers(b, b[0].stamp); }
    } else {
      SameHead(a, b);
      forall t ensures At(a[1..], t) == At(b[1..], t) {
        assert At(a, t) == At(b, t);
        SameTail(Single(a[0], t), At(a[1..], t), At(b[1..], t));
      }
      StableSortIsUnique(a[1..], b[1..]);
    }
  }

  lemma SameHead(a: seq<HistoryItem>, b: seq<HistoryItem>)
    requires a != [] && b != [] && Sorted(a) && Sorted(b) && Rearranges(a, b)
    ensures a[0] == b[0]
  {
    AtMembers(a, a[0].stamp);
    AtMembers(b, a[0].stamp);
    AtMembers(a, b[0].stamp);
    AtMembers(b, b[0].stamp);
    assert a[0] in b && b[0] in a;
    assert a[0].stamp == b[0].stamp;
  }

  lemma SameTail(x: seq<HistoryItem>, a: seq<HistoryItem>, b: seq<HistoryItem>)
    requires x + a == x + b
    ensures a == b
  {
    assert a == (x + a)[|x|..] && b == (x + b)[|x|..];
  }
}
