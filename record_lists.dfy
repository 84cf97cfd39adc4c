/**
 * The array methods the application applies to lists of records — `filter`, `map`
 * with a merge or a replacement at a matching key, `find` and `findIndex` — each
 * comparing one field with `===`, together with their properties.
 */
module RecordLists {
  import opened Json
  import opened Wrappers

  /** `t` is obtained from `s` by deleting entries: the order of what is left is kept. */
  predicate IsSubsequence(t: seq<Record>, s: seq<Record>)
    decreases |s|
  {
    t == [] || (s != [] && ((t[0] == s[0] && IsSubsequence(t[1..], s[1..])) || IsSubsequence(t, s[1..])))
  }

  /** Every list is a subsequence of itself. */
  lemma {:induction false} SubsequenceOfItself(s: seq<Record>)
    ensures IsSubsequence(s, s)
  {
    if s != [] {
      SubsequenceOfItself(s[1..]);
    }
  }

  /** `items.filter(x => (x[key] === v) === keep)`. */
  function Where(items: seq<Record>, key: string, v: Value, keep: bool): (r: seq<Record>)
    ensures |r| <= |items|
    ensures forall x :: x in r <==> x in items && (Field(x, key) == v) == keep
  {
    if items == [] then []
    else
      var rest := Where(items[1..], key, v, keep);
      if (Field(items[0], key) == v) == keep then [items[0]] + rest else rest
  }

  /** Filtering keeps the surviving entries in their original order. */
  lemma {:induction false} WhereIsSubsequence(items: seq<Record>, key: string, v: Value, keep: bool)
    ensures IsSubsequence(Where(items, key, v, keep), items)
  {
    if items != [] {
      WhereIsSubsequence(items[1..], key, v, keep);
      var r := Where(items, key, v, keep);
      if (Field(items[0], key) == v) == keep {
        assert r[0] == items[0] && r[1..] == Where(items[1..], key, v, keep);
      }
    }
  }

  /** Filtering keeps every surviving record as often as it occurred, and drops the others entirely. */
  lemma {:induction false} WhereMultiplicity(items: seq<Record>, key: string, v: Value, keep: bool, x: Record)
    ensures multiset(Where(items, key, v, keep))[x] ==
            if (Field(x, key) == v) == keep then multiset(items)[x] else 0
  {
    if items != [] {
      WhereMultiplicity(items[1..], key, v, keep, x);
      assert items == [items[0]] + items[1..];
    }
  }

  /** `WhereMultiplicity` for every record at once. */
  lemma WhereCounts(items: seq<Record>, key: string, v: Value, keep: bool)
    ensures forall x :: multiset(Where(items, key, v, keep))[x] ==
                        if (Field(x, key) == v) == keep then multiset(items)[x] else 0
  {
    forall x {
      WhereMultiplicity(items, key, v, keep, x);
    }
  }

  /** Two removals by different values give the same list in either order. */
  lemma {:induction false} WhereCommute(items: seq<Record>, key: string, a: Value, b: Value)
    ensures Where(Where(items, key, a, false), key, b, false) == Where(Where(items, key, b, false), key, a, false)
  {
    if items != [] {
      WhereCommute(items[1..], key, a, b);
    }
  }

  /** A filter that every entry passes returns the list unchanged. */
  lemma {:induction false} WhereKeepsAll(items: seq<Record>, key: string, v: Value, keep: bool)
    requires forall k :: 0 <= k < |items| ==> (Field(items[k], key) == v) == keep
    ensures Where(items, key, v, keep) == items
  {
    if items != [] {
      WhereKeepsAll(items[1..], key, v, keep);
    }
  }

  /** Filtering twice by the same test is filtering once. */
  lemma WhereIdempotent(items: seq<Record>, key: string, v: Value, keep: bool)
    ensures Where(Where(items, key, v, keep), key, v, keep) == Where(items, key, v, keep)
  {
    var r := Where(items, key, v, keep);
    assert forall k :: 0 <= k < |r| ==> r[k] in r;
    WhereKeepsAll(r, key, v, keep);
  }

  /** Filtering distributes over concatenation. */
  lemma {:induction false} WhereAppend(s: seq<Record>, t: seq<Record>, key: string, v: Value, keep: bool)
    ensures Where(s + t, key, v, keep) == Where(s, key, v, keep) + Where(t, key, v, keep)
  {
    if s != [] {
      WhereAppend(s[1..], t, key, v, keep);
      assert (s + t)[1..] == s[1..] + t;
    } else {
      assert s + t == t;
    }
  }

  /** `items.map(x => x[key] === v ? {...x, ...patch} : x)`. */
  function MergeWhere(items: seq<Record>, key: string, v: Value, patch: Record): (r: seq<Record>)
    ensures |r| == |items|
    ensures forall k :: 0 <= k < |items| && Field(items[k], key) != v ==> r[k] == items[k]
    ensures forall k :: 0 <= k < |items| && Field(items[k], key) == v ==> r[k] == items[k] + patch
  {
    if items == [] then []
    else
      var head := if Field(items[0], key) == v then items[0] + patch else items[0];
      [head] + MergeWhere(items[1..], key, v, patch)
  }

  /** `items.map(x => x[key] === v ? reply : x)`. */
  function ReplaceWhere(items: seq<Record>, key: string, v: Value, reply: Record): (r: seq<Record>)
    ensures |r| == |items|
    ensures forall k :: 0 <= k < |items| && Field(items[k], key) != v ==> r[k] == items[k]
    ensures forall k :: 0 <= k < |items| && Field(items[k], key) == v ==> r[k] == reply
  {
    if items == [] then []
    else
      var head := if Field(items[0], key) == v then reply else items[0];
      [head] + ReplaceWhere(items[1..], key, v, reply)
  }

  /** `items.findIndex(x => x[key] === v)`: the first matching position, or -1. */
  function FindIndex(items: seq<Record>, key: string, v: Value): (i: int)
    ensures -1 <= i < |items|
    ensures i == -1 <==> forall k :: 0 <= k < |items| ==> Field(items[k], key) != v
    ensures 0 <= i ==> Field(items[i], key) == v && forall k :: 0 <= k < i ==> Field(items[k], key) != v
  {
    if items == [] then -1
    else if Field(items[0], key) == v then 0
    else
      var j := FindIndex(items[1..], key, v);
      if j < 0 then -1 else j + 1
  }

  /** The first matching position is the one `findIndex` reports. */
  lemma FindIndexIsFirst(items: seq<Record>, key: string, v: Value, i: int)
    requires 0 <= i < |items| && Field(items[i], key) == v
    requires forall k :: 0 <= k < i ==> Field(items[k], key) != v
    ensures FindIndex(items, key, v) == i
  {
  }

  /** `items.find(x => x[key] === v)`. */
  function Find(items: seq<Record>, key: string, v: Value): (r: Option<Record>)
    ensures r.None? <==> forall x :: x in items ==> Field(x, key) != v
    ensures r.Some? ==> r.value in items && Field(r.value, key) == v
    ensures r.Some? ==> exists i :: 0 <= i < |items| && r.value == items[i] && Field(items[i], key) == v &&
                                    forall k :: 0 <= k < i ==> Field(items[k], key) != v
  {
    var i := FindIndex(items, key, v);
    if i < 0 then None else Some(items[i])
  }

  /** No two entries share a value at `key`. */
  predicate UniqueAt(items: seq<Record>, key: string)
  {
    forall i, j :: 0 <= i < j < |items| ==> Field(items[i], key) != Field(items[j], key)
  }

  /** With unique values at `key`, searching for an entry's own value finds that entry. */
  lemma FindIndexOfUnique(items: seq<Record>, key: string, k: int)
    requires UniqueAt(items, key) && 0 <= k < |items|
    ensures FindIndex(items, key, Field(items[k], key)) == k
  {
  }

  /** Appending a record whose value at `key` is fresh keeps the values unique. */
  lemma AppendFreshKeepsUnique(items: seq<Record>, key: string, x: Record)
    requires UniqueAt(items, key)
    requires forall y :: y in items ==> Field(y, key) != Field(x, key)
    ensures UniqueAt(items + [x], key)
  {
    var s := items + [x];
    forall i, j | 0 <= i < j < |s|
      ensures Field(s[i], key) != Field(s[j], key)
    {
      if j == |items| {
        assert s[i] in items;
      }
    }
  }

  /** `items.map(f)`. */
  function MapRecords(items: seq<Record>, f: Record -> Record): (r: seq<Record>)
    ensures |r| == |items|
    ensures forall k :: 0 <= k < |items| ==> r[k] == f(items[k])
  {
    if items == [] then [] else [f(items[0])] + MapRecords(items[1..], f)
  }

  /**
   * What a public section does with its fetched data: a non-empty array replaces
   * the shown list, normalised record by record; anything else, including a
   * rejected request, leaves the shown list as it is.
   */
  function ReplaceIfNonEmpty(current: seq<Record>, fetched: Fetched, normalize: Record -> Record): (r: seq<Record>)
    ensures fetched.Array? && fetched.items != [] ==>
              |r| == |fetched.items| && forall k :: 0 <= k < |r| ==> r[k] == normalize(fetched.items[k])
    ensures !(fetched.Array? && fetched.items != []) ==> r == current
    ensures current != [] ==> r != []
  {
    if fetched.Array? && |fetched.items| > 0 then MapRecords(fetched.items, normalize) else current
  }
}
