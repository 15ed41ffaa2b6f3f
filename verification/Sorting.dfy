/** `sorted` on strings, by the whole string or by the part before the first `=`.  For items with
    distinct keys the result is the one increasing arrangement of their set, so it does not depend on
    the order they came in. */
module Sorting {
  import opened Texts

  /** The sort key: `t.partition("=")[0]`, or the item itself. */
  function Key(item: string, byName: bool): string {
    if byName then item[..Find(item, '=')] else item
  }

  function Insert(item: string, items: seq<string>, byName: bool): seq<string> {
    if items == [] then [item]
    else if Less(Key(items[0], byName), Key(item, byName)) then [items[0]] + Insert(item, items[1..], byName)
    else [item] + items
  }

  function Sort(items: seq<string>, byName: bool): seq<string> {
    if items == [] then [] else Insert(items[0], Sort(items[1..], byName), byName)
  }

  predicate DistinctKeys(items: seq<string>, byName: bool) {
    forall i, j | 0 <= i < j < |items| :: Key(items[i], byName) != Key(items[j], byName)
  }

  predicate Increasing(items: seq<string>, byName: bool) {
    forall i, j | 0 <= i < j < |items| :: Less(Key(items[i], byName), Key(items[j], byName))
  }

  function Elements(items: seq<string>): set<string> {
    set x | x in items
  }

  lemma {:induction false} InsertIncreasing(item: string, items: seq<string>, byName: bool)
    requires Increasing(items, byName)
    requires forall x | x in items :: Key(x, byName) != Key(item, byName)
    ensures Increasing(Insert(item, items, byName), byName)
    ensures Elements(Insert(item, items, byName)) == Elements(items) + {item}
    ensures |Insert(item, items, byName)| == |items| + 1
  {
    hide Key, Less;
    if items != [] {
      var first := items[0];
      var rest := items[1..];
      assert items == [first] + rest;
      if Less(Key(first, byName), Key(item, byName)) {
        InsertIncreasing(item, rest, byName);
        var more := Insert(item, rest, byName);
        forall x | x in more
          ensures Less(Key(first, byName), Key(x, byName))
        {
          assert x in Elements(more);
        }
        ConsIncreasing(first, more, byName);
      } else {
        LessTotal(Key(first, byName), Key(item, byName));
        assert first in items;
        forall x | x in items
          ensures Less(Key(item, byName), Key(x, byName))
        {
          if x != first {
            LessTransitive(Key(item, byName), Key(first, byName), Key(x, byName));
          }
        }
        ConsIncreasing(item, items, byName);
      }
    }
  }

  lemma ConsIncreasing(item: string, items: seq<string>, byName: bool)
    requires Increasing(items, byName) && forall x | x in items :: Less(Key(item, byName), Key(x, byName))
    ensures Increasing([item] + items, byName)
  {
  }

  lemma {:induction false} SortIncreasing(items: seq<string>, byName: bool)
    requires DistinctKeys(items, byName)
    ensures Increasing(Sort(items, byName), byName)
    ensures Elements(Sort(items, byName)) == Elements(items)
    ensures |Sort(items, byName)| == |items|
  {
    hide Key, Insert;
    if items != [] {
      var rest := items[1..];
      assert DistinctKeys(rest, byName) && items == [items[0]] + rest;
      SortIncreasing(rest, byName);
      forall x | x in Sort(rest, byName)
        ensures Key(x, byName) != Key(items[0], byName)
      {
        assert x in Elements(rest);
      }
      InsertIncreasing(items[0], Sort(rest, byName), byName);
    }
  }

  /** `sorted` gives the same items, each once, in the order of their keys' characters. */
  lemma SortsInOrder(items: seq<string>, byName: bool)
    requires DistinctKeys(items, byName)
    ensures var sorted := Sort(items, byName);
            && |sorted| == |items| && (forall x :: x in sorted <==> x in items)
            && forall i, j | 0 <= i < j < |sorted| :: Before(Key(sorted[i], byName), Key(sorted[j], byName))
  {
    hide Key, Less, Before, Sort;
    SortIncreasing(items, byName);
    var sorted := Sort(items, byName);
    forall x
      ensures x in sorted <==> x in items
    {
      assert x in Elements(sorted) <==> x in Elements(items);
    }
    forall i, j | 0 <= i < j < |sorted|
      ensures Before(Key(sorted[i], byName), Key(sorted[j], byName))
    {
      LessIsBefore(Key(sorted[i], byName), Key(sorted[j], byName));
    }
  }

  /** A set of items has one increasing arrangement. */
  lemma {:induction false} IncreasingUnique(a: seq<string>, b: seq<string>, byName: bool)
    requires Increasing(a, byName) && Increasing(b, byName) && Elements(a) == Elements(b)
    ensures a == b
  {
    hide Key, Less;
    assert a != [] ==> a[0] in Elements(a);
    assert b != [] ==> b[0] in Elements(b);
    if a != [] {
      SameFirst(a, b, byName);
      assert Elements(a[1..]) == Elements(a) - {a[0]} by { TailElements(a, byName); }
      assert Elements(b[1..]) == Elements(b) - {b[0]} by { TailElements(b, byName); }
      IncreasingUnique(a[1..], b[1..], byName);
      assert a == [a[0]] + a[1..] && b == [b[0]] + b[1..];
    }
  }

  lemma SameFirst(a: seq<string>, b: seq<string>, byName: bool)
    requires Increasing(a, byName) && Increasing(b, byName) && Elements(a) == Elements(b) && a != [] && b != []
    ensures a[0] == b[0]
  {
    hide Key, Less;
    assert a[0] in Elements(b) && b[0] in Elements(a);
    if a[0] != b[0] {
      LessTotal(Key(a[0], byName), Key(b[0], byName));
    }
  }

  lemma TailElements(a: seq<string>, byName: bool)
    requires Increasing(a, byName) && a != []
    ensures Elements(a[1..]) == Elements(a) - {a[0]}
  {
    hide Key, Less;
    assert a == [a[0]] + a[1..];
    forall x | x in a[1..]
      ensures x != a[0]
    {
      LessTotal(Key(a[0], byName), Key(a[0], byName));
    }
  }

  /** Sorting forgets the order of the items, and nothing else. */
  lemma SortForgetsOrder(a: seq<string>, b: seq<string>, byName: bool)
    requires DistinctKeys(a, byName) && DistinctKeys(b, byName)
    ensures Sort(a, byName) == Sort(b, byName) <==> Elements(a) == Elements(b)
  {
    SortIncreasing(a, byName);
    SortIncreasing(b, byName);
    if Elements(a) == Elements(b) {
      IncreasingUnique(Sort(a, byName), Sort(b, byName), byName);
    }
  }
}
