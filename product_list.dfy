/**
 * The array operations the store applies to its list of products:
 * `find` and `findIndex` by `i_id`, assignment into the slot `findIndex`
 * returns, and `splice` at that slot. Each is stated on the list's elements.
 */
module ProductList {
  import opened Products

  /** `findIndex(p => p.i_id === id)`: the first index whose record carries
      `id`, or -1 when no record does. */
  function FindIndex(s: seq<Product>, id: string): (r: int)
    ensures -1 <= r < |s|
    ensures r >= 0 ==> HasId(s[r], id)
    ensures forall j :: 0 <= j < |s| && (r < 0 || j < r) ==> !HasId(s[j], id)
  {
    if s == [] then -1
    else if HasId(s[0], id) then 0
    else
      var k := FindIndex(s[1..], id);
      if k < 0 then -1 else k + 1
  }

  /** `find(p => p.i_id === id)`: the first record carrying `id`, if any. */
  function Find(s: seq<Product>, id: string): (r: Option<Product>)
    ensures r.None? <==> forall j :: 0 <= j < |s| ==> !HasId(s[j], id)
    ensures r.Some? ==> HasId(r.value, id) && r.value in s
  {
    if s == [] then None
    else if HasId(s[0], id) then Some(s[0])
    else Find(s[1..], id)
  }

  /** `find` returns the element at the index `findIndex` gives. */
  lemma {:induction false} FindAtFirstIndex(s: seq<Product>, id: string)
    ensures Find(s, id) == if FindIndex(s, id) < 0 then None else Some(s[FindIndex(s, id)])
  {
    if s != [] && !HasId(s[0], id) {
      FindAtFirstIndex(s[1..], id);
    }
  }

  /** Looking up in a list extended at its end: the old part is searched first. */
  lemma {:induction false} FindAppend(a: seq<Product>, b: seq<Product>, id: string)
    ensures Find(a + b, id) == if Find(a, id).Some? then Find(a, id) else Find(b, id)
  {
    if a == [] {
      assert a + b == b;
    } else {
      assert (a + b)[0] == a[0];
      assert (a + b)[1..] == a[1..] + b;
      FindAppend(a[1..], b, id);
    }
  }

  /** The elements after `s[FindIndex(s, id)] = p`. With the index at -1 the
      assignment creates a property named "-1" on the array object and leaves
      every element and the length as they are. */
  function Updated(s: seq<Product>, id: string, p: Product): (r: seq<Product>)
    ensures |r| == |s|
    ensures FindIndex(s, id) >= 0 ==> r[FindIndex(s, id)] == p
    ensures forall j :: 0 <= j < |s| && j != FindIndex(s, id) ==> r[j] == s[j]
    ensures FindIndex(s, id) < 0 ==> r == s
  {
    var index := FindIndex(s, id);
    if index < 0 then s else s[index := p]
  }

  /** After an update whose new record keeps the id, a lookup of that id
      finds the new record. */
  lemma FindAfterUpdate(s: seq<Product>, id: string, p: Product)
    requires FindIndex(s, id) >= 0 && HasId(p, id)
    ensures Find(Updated(s, id, p), id) == Some(p)
  {
  }

  function Min(a: int, b: int): (r: int) { if a <= b then a else b }

  function Max(a: int, b: int): (r: int) { if a <= b then b else a }

  /** `Array.prototype.splice(start, deleteCount)` on the elements: a negative
      start counts back from the end, and start and count are clamped to the
      array. */
  function Splice(s: seq<Product>, start: int, deleteCount: int): (r: seq<Product>)
    ensures multiset(r) <= multiset(s)
    ensures 0 <= start < |s| && deleteCount == 1 ==> r == s[..start] + s[start + 1..]
    ensures start == -1 && deleteCount == 1 && s != [] ==> r == s[..|s| - 1]
    ensures s == [] ==> r == []
  {
    var from := if start < 0 then Max(|s| + start, 0) else Min(start, |s|);
    var count := Min(Max(deleteCount, 0), |s| - from);
    assert s == s[..from] + s[from..from + count] + s[from + count..];
    s[..from] + s[from + count..]
  }

  /** The elements after `s.splice(FindIndex(s, id), 1)`. When `id` is present
      exactly its first record goes; when it is absent the index is -1, so a
      non-empty list loses its LAST record and an empty one stays empty. */
  function Removed(s: seq<Product>, id: string): (r: seq<Product>)
    ensures FindIndex(s, id) >= 0 ==>
              |r| == |s| - 1 &&
              r[..FindIndex(s, id)] == s[..FindIndex(s, id)] &&
              r[FindIndex(s, id)..] == s[FindIndex(s, id) + 1..]
    ensures FindIndex(s, id) < 0 && s != [] ==> r == s[..|s| - 1]
    ensures FindIndex(s, id) < 0 && s == [] ==> r == []
  {
    Splice(s, FindIndex(s, id), 1)
  }

  /** Removing a present id takes out exactly the record found, nothing else:
      the old list is the new one plus that record. */
  lemma RemovedPermutation(s: seq<Product>, id: string)
    requires FindIndex(s, id) >= 0
    ensures multiset(Removed(s, id)) + multiset{s[FindIndex(s, id)]} == multiset(s)
  {
    var i := FindIndex(s, id);
    assert Removed(s, id) == Splice(s, i, 1) == s[..i] + s[i + 1..];
    MultisetCut(s, i);
  }

  lemma MultisetCut(s: seq<Product>, i: nat)
    requires i < |s|
    ensures multiset(s[..i] + s[i + 1..]) + multiset{s[i]} == multiset(s)
  {
    assert s == s[..i] + ([s[i]] + s[i + 1..]);
  }

  /** Every record carrying `id` sits at one position. */
  predicate UniqueId(s: seq<Product>, id: string)
  {
    forall j, k :: 0 <= j < k < |s| && HasId(s[j], id) ==> !HasId(s[k], id)
  }

  /** With a single record carrying `id`, removing it leaves no record for
      that id. */
  lemma RemovedUniqueIsGone(s: seq<Product>, id: string)
    requires FindIndex(s, id) >= 0 && UniqueId(s, id)
    ensures Find(Removed(s, id), id) == None
  {
  }

  /** Removing an absent id from a non-empty list drops the last record, which
      need not carry anything to do with that id: a corollary of `Removed`
      stated through `Find`, as `findProduct` would report the absence. */
  lemma RemovedAbsentDropsLast(s: seq<Product>, id: string)
    requires s != [] && Find(s, id) == None
    ensures Removed(s, id) == s[..|s| - 1]
    ensures multiset(Removed(s, id)) + multiset{s[|s| - 1]} == multiset(s)
  {
    FindAtFirstIndex(s, id);
    var r := Removed(s, id);
    assert s == r + [s[|s| - 1]];
  }
}
