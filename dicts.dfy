/** Python's `dict[str, str]` as the model sees it: entries in insertion order, no key twice. */
module Dicts {
  import opened Wrappers
  import opened Strings

  type Item = (string, string)

  predicate KeysUnique(s: seq<Item>) {
    forall i, j :: 0 <= i < j < |s| ==> s[i].0 != s[j].0
  }

  /** A dict: iterating `items()` yields exactly this sequence. */
  type Dict = s: seq<Item> | KeysUnique(s) witness []

  function Keys(s: seq<Item>): set<string> {
    set i | 0 <= i < |s| :: s[i].0
  }

  lemma KeysCons(x: Item, s: seq<Item>)
    ensures Keys([x] + s) == {x.0} + Keys(s)
  {
    var t := [x] + s;
    assert t[0] == x;
    forall k | k in Keys(s) ensures k in Keys(t) {
      var i :| 0 <= i < |s| && s[i].0 == k;
      assert t[i + 1].0 == k;
    }
    forall k | k in Keys(t) ensures k in {x.0} + Keys(s) {
      var i :| 0 <= i < |t| && t[i].0 == k;
      if i > 0 {
        assert s[i - 1].0 == k;
      }
    }
  }

  /** The dict's contents, forgetting insertion order. */
  function ToMap(d: Dict): (m: map<string, string>)
    ensures m.Keys == Keys(d)
  {
    map i | 0 <= i < |d| :: d[i].0 := d[i].1
  }

  /** An entry belongs to the dict exactly when its contents map its key to its value. */
  lemma InToMap(d: Dict, x: Item)
    ensures x in d <==> x.0 in ToMap(d) && ToMap(d)[x.0] == x.1
  {
    if x.0 in ToMap(d) {
      var i :| 0 <= i < |d| && d[i].0 == x.0;
      assert ToMap(d)[x.0] == d[i].1;
    }
  }

  /** Two dicts with the same contents have the same entries. */
  lemma SameContentsSameEntries(d1: Dict, d2: Dict)
    requires ToMap(d1) == ToMap(d2)
    ensures forall x :: x in d1 <==> x in d2
  {
    forall x ensures x in d1 <==> x in d2 {
      InToMap(d1, x);
      InToMap(d2, x);
    }
  }

  /** Dicts with the same entries have the same contents. */
  lemma SameEntriesSameContents(d1: Dict, d2: Dict)
    requires forall x :: x in d1 <==> x in d2
    ensures ToMap(d1) == ToMap(d2)
  {
    forall k | k in ToMap(d1) ensures k in ToMap(d2) && ToMap(d2)[k] == ToMap(d1)[k] {
      InToMap(d1, (k, ToMap(d1)[k]));
      InToMap(d2, (k, ToMap(d1)[k]));
    }
    forall k | k in ToMap(d2) ensures k in ToMap(d1) {
      InToMap(d2, (k, ToMap(d2)[k]));
      InToMap(d1, (k, ToMap(d2)[k]));
    }
  }

  /** Python's `d.get(k, default)`. */
  function Get(d: Dict, k: string, default: string): (v: string)
    ensures k in ToMap(d) ==> v == ToMap(d)[k]
    ensures k !in ToMap(d) ==> v == default
    decreases |d|
  {
    if |d| == 0 then default
    else if d[0].0 == k then d[0].1
    else
      var rest: Dict := d[1..];
      ToMapTail(d);
      Get(rest, k, default)
  }

  /** The contents of a non-empty dict: its first entry added to the contents of the rest. */
  lemma ToMapTail(d: Dict)
    requires |d| > 0
    ensures ToMap(d) == ToMap(d[1..])[d[0].0 := d[0].1]
  {
    assert d == [d[0]] + d[1..];
  }

  /** Python's `d[k] = v`: an existing key keeps its place and takes the new value, a new key goes last. */
  function Put(d: Dict, k: string, v: string): (r: Dict)
    ensures Keys(r) == Keys(d) + {k}
    ensures forall x :: x in r <==> (x in d && x.0 != k) || x == (k, v)
    ensures k !in Keys(d) ==> r == d + [(k, v)]
    ensures k in Keys(d) ==>
      |r| == |d| && forall i :: 0 <= i < |d| ==> r[i] == (if d[i].0 == k then (k, v) else d[i])
    decreases |d|
  {
    if |d| == 0 then
      KeysCons((k, v), []);
      [(k, v)]
    else
      var rest: Dict := d[1..];
      assert d == [d[0]] + rest;
      KeysCons(d[0], rest);
      if d[0].0 == k then
        PutReplacesFirst(d[0], rest, v);
        [(k, v)] + rest
      else
        var tail := Put(rest, k, v);
        PutKeepsFirst(d[0], rest, k, v, tail);
        [d[0]] + tail
  }

  /** Assigning the first key of a dict replaces its value where it stands. */
  lemma PutReplacesFirst(head: Item, rest: Dict, v: string)
    requires head.0 !in Keys(rest)
    ensures KeysUnique([(head.0, v)] + rest)
    ensures Keys([(head.0, v)] + rest) == Keys([head] + rest)
    ensures forall x :: x in [(head.0, v)] + rest <==> (x in [head] + rest && x.0 != head.0) || x == (head.0, v)
    ensures forall i :: 0 <= i < |rest| + 1 ==>
      ([(head.0, v)] + rest)[i] == (if ([head] + rest)[i].0 == head.0 then (head.0, v) else ([head] + rest)[i])
  {
    KeysCons((head.0, v), rest);
    KeysCons(head, rest);
    forall j | 0 <= j < |rest| ensures rest[j].0 != head.0 {
    }
  }

  /** Assigning another key than the first keeps the first entry and assigns in the rest. */
  lemma PutKeepsFirst(head: Item, rest: Dict, k: string, v: string, tail: Dict)
    requires head.0 !in Keys(rest) && head.0 != k
    requires Keys(tail) == Keys(rest) + {k}
    requires forall x :: x in tail <==> (x in rest && x.0 != k) || x == (k, v)
    requires k !in Keys(rest) ==> tail == rest + [(k, v)]
    requires k in Keys(rest) ==>
      |tail| == |rest| && forall i :: 0 <= i < |rest| ==> tail[i] == (if rest[i].0 == k then (k, v) else rest[i])
    ensures KeysUnique([head] + tail)
    ensures Keys([head] + tail) == Keys([head] + rest) + {k}
    ensures forall x :: x in [head] + tail <==> (x in [head] + rest && x.0 != k) || x == (k, v)
    ensures k !in Keys([head] + rest) ==> [head] + tail == [head] + rest + [(k, v)]
    ensures k in Keys([head] + rest) ==>
      |tail| == |rest| && forall i :: 0 <= i < |rest| + 1 ==>
        ([head] + tail)[i] == (if ([head] + rest)[i].0 == k then (k, v) else ([head] + rest)[i])
  {
    KeysCons(head, tail);
    KeysCons(head, rest);
    forall j | 0 <= j < |tail| ensures tail[j].0 != head.0 {
      assert tail[j].0 in Keys(tail);
    }
  }

  /** Keys in strictly ascending order: what `sorted(d.items())` yields for a dict. */
  predicate StrictlySorted(s: seq<Item>) {
    forall i, j :: 0 <= i < j < |s| ==> Less(s[i].0, s[j].0)
  }

  lemma SortedKeysUnique(s: seq<Item>)
    requires StrictlySorted(s)
    ensures KeysUnique(s)
  {
    forall i, j | 0 <= i < j < |s| ensures s[i].0 != s[j].0 {
      LessIrreflexive(s[i].0);
    }
  }

  /** Every entry of a sorted sequence has a key no smaller than the first. */
  lemma SortedHeadLeast(s: seq<Item>, x: Item)
    requires StrictlySorted(s) && x in s
    ensures x == s[0] || Less(s[0].0, x.0)
  {
  }

  lemma KeysOfSameMultiset(a: seq<Item>, b: seq<Item>)
    requires multiset(a) == multiset(b)
    ensures Keys(a) == Keys(b)
  {
    forall k | k in Keys(a) ensures k in Keys(b) {
      var i :| 0 <= i < |a| && a[i].0 == k;
      assert a[i] in multiset(b);
    }
    forall k | k in Keys(b) ensures k in Keys(a) {
      var i :| 0 <= i < |b| && b[i].0 == k;
      assert b[i] in multiset(a);
    }
  }

  /** One step of insertion sort: place `x` before the first larger key. */
  function Insert(x: Item, s: seq<Item>): (r: seq<Item>)
    ensures multiset(r) == multiset(s) + multiset{x}
    decreases |s|
  {
    if |s| == 0 then [x]
    else if Less(x.0, s[0].0) then [x] + s
    else
      assert s == [s[0]] + s[1..];
      [s[0]] + Insert(x, s[1..])
  }

  lemma {:induction false} InsertSorted(x: Item, s: seq<Item>)
    requires StrictlySorted(s) && x.0 !in Keys(s)
    ensures StrictlySorted(Insert(x, s))
    decreases |s|
  {
    if |s| == 0 {
    } else if Less(x.0, s[0].0) {
      forall j | 0 < j < |s| ensures Less(x.0, s[j].0) {
        LessTransitive(x.0, s[0].0, s[j].0);
      }
    } else {
      assert x.0 != s[0].0;
      LessTotal(x.0, s[0].0);
      var rest := s[1..];
      assert x.0 !in Keys(rest);
      InsertSorted(x, rest);
      var t := Insert(x, rest);
      forall j | 0 <= j < |t| ensures Less(s[0].0, t[j].0) {
        assert t[j] in multiset(t);
        assert t[j] == x || t[j] in rest;
      }
    }
  }

  /** Python's `sorted(d.items())`: the same entries, keys ascending. */
  function SortByKey(d: Dict): (r: Dict)
    ensures multiset(r) == multiset(d)
    ensures StrictlySorted(r)
    decreases |d|
  {
    if |d| == 0 then []
    else
      var tail: Dict := d[1..];
      var rest := SortByKey(tail);
      assert d == [d[0]] + tail;
      KeysOfSameMultiset(rest, tail);
      InsertSorted(d[0], rest);
      var r := Insert(d[0], rest);
      SortedKeysUnique(r);
      r
  }

  /** Sorting a dict keeps exactly its entries. */
  lemma SortByKeyEntries(d: Dict)
    ensures forall x :: x in SortByKey(d) <==> x in d
  {
    var r := SortByKey(d);
    forall x ensures x in r <==> x in d {
      assert x in r <==> x in multiset(r);
      assert x in d <==> x in multiset(d);
    }
  }

  lemma NoEntriesEmpty(s: seq<Item>)
    ensures (forall x :: x !in s) ==> |s| == 0
  {
    if |s| > 0 {
      assert s[0] in s;
    }
  }

  /** A set of entries has at most one strictly sorted arrangement. */
  lemma {:induction false} SortedUnique(a: seq<Item>, b: seq<Item>)
    requires StrictlySorted(a) && StrictlySorted(b)
    requires forall x :: x in a <==> x in b
    ensures a == b
    decreases |a|
  {
    if |a| == 0 {
      NoEntriesEmpty(b);
    } else {
      assert a[0] in b;
      assert b[0] in a;
      SortedHeadLeast(a, b[0]);
      SortedHeadLeast(b, a[0]);
      LessAsymmetric(a[0].0, b[0].0);
      assert a[0] == b[0];
      forall x ensures x in a[1..] <==> x in b[1..] {
        assert a == [a[0]] + a[1..];
        assert b == [b[0]] + b[1..];
        if x in a[1..] {
          var i :| 1 <= i < |a| && a[i] == x;
          LessIrreflexive(a[0].0);
          assert x != a[0] && x in a && x in b;
          assert x in b[1..];
        }
        if x in b[1..] {
          var i :| 1 <= i < |b| && b[i] == x;
          LessIrreflexive(b[0].0);
          assert x != b[0] && x in b && x in a;
          assert x in a[1..];
        }
      }
      SortedUnique(a[1..], b[1..]);
      assert a == [a[0]] + a[1..];
      assert b == [b[0]] + b[1..];
    }
  }

  /** `sorted(d.items())` depends only on the dict's contents, not on insertion order. */
  lemma SortByKeyCanonical(d1: Dict, d2: Dict)
    requires ToMap(d1) == ToMap(d2)
    ensures SortByKey(d1) == SortByKey(d2)
  {
    SameContentsSameEntries(d1, d2);
    SortByKeyEntries(d1);
    SortByKeyEntries(d2);
    SortedUnique(SortByKey(d1), SortByKey(d2));
  }
}
