/**
 * The JavaScript array operations the list code edits its lists with:
 * `splice`, `slice` and a first-match scan (`indexOf`, and the key lookup
 * loops built on the same idea). Index arguments follow ECMAScript: a
 * negative index counts from the end, and every index is clamped to the
 * array's bounds.
 */
module ArrayOps {

  /** The position an index argument of `splice`/`slice` stands for in an array of length `len`. */
  function RelativeIndex(i: int, len: nat): (r: nat)
    ensures r <= len
    ensures 0 <= i <= len ==> r == i
    ensures i < 0 && len + i >= 0 ==> r == len + i
    ensures i > len ==> r == len
    ensures len + i < 0 ==> r == 0
  {
    if i < 0 then (if len + i > 0 then len + i else 0)
    else if i < len then i else len
  }

  /** The array `s.splice(start, deleteCount, ...items)` leaves behind. */
  function Splice<T>(s: seq<T>, start: int, deleteCount: int, items: seq<T>): (r: seq<T>)
    ensures |r| == |s| - SpliceDeleted(|s|, start, deleteCount) + |items|
  {
    var from := RelativeIndex(start, |s|);
    var n := SpliceDeleted(|s|, start, deleteCount);
    s[..from] + items + s[from + n..]
  }

  /** How many elements `splice(start, deleteCount)` removes from an array of length `len`. */
  function SpliceDeleted(len: nat, start: int, deleteCount: int): (n: nat)
    ensures RelativeIndex(start, len) + n <= len
    ensures deleteCount >= 0 && RelativeIndex(start, len) + deleteCount <= len ==> n == deleteCount
    ensures deleteCount <= 0 ==> n == 0
    ensures deleteCount > len - RelativeIndex(start, len) ==> n == len - RelativeIndex(start, len)
  {
    var from := RelativeIndex(start, len);
    if deleteCount <= 0 then 0
    else if deleteCount < len - from then deleteCount
    else len - from
  }

  /** Removing at a valid index takes out exactly that element. */
  lemma SpliceRemoveAt<T>(s: seq<T>, i: int)
    requires 0 <= i < |s|
    ensures Splice(s, i, 1, []) == s[..i] + s[i + 1..]
  {
  }

  /** `splice(-1, 1)` removes the last element, as happens when a key lookup fails. */
  lemma SpliceRemoveMinusOne<T>(s: seq<T>)
    requires s != []
    ensures Splice(s, -1, 1, []) == s[..|s| - 1]
  {
  }

  /** Inserting one element at a position in `0..|s|` puts it exactly there. */
  lemma SpliceInsertAt<T>(s: seq<T>, i: int, x: T)
    requires 0 <= i <= |s|
    ensures Splice(s, i, 0, [x]) == s[..i] + [x] + s[i..]
  {
  }

  /**
   * Removing the element at `i` and re-inserting it at `j` (the reorder a drag
   * performs) keeps the length and the multiset of elements and leaves the
   * moved element at `j`; everything outside the two positions' span stays put.
   */
  lemma {:induction false} MoveKeepsElements<T>(s: seq<T>, i: int, j: int)
    requires 0 <= i < |s| && 0 <= j < |s|
    ensures var r := Splice(Splice(s, i, 1, []), j, 0, [s[i]]);
      && |r| == |s|
      && multiset(r) == multiset(s)
      && r[j] == s[i]
      && (forall k :: 0 <= k < |s| && k < i && k < j ==> r[k] == s[k])
      && (forall k :: 0 <= k < |s| && k > i && k > j ==> r[k] == s[k])
  {
    var t := s[..i] + s[i + 1..];
    SpliceRemoveAt(s, i);
    SpliceInsertAt(t, j, s[i]);
    MovedParts(s, i, j);
  }

  /** The move written with slices: remove at `i`, then insert at `j`. */
  lemma MovedParts<T>(s: seq<T>, i: int, j: int)
    requires 0 <= i < |s| && 0 <= j < |s|
    ensures var t := s[..i] + s[i + 1..];
      var r := t[..j] + [s[i]] + t[j..];
      && |r| == |s|
      && multiset(r) == multiset(s)
      && r[j] == s[i]
      && (forall k :: 0 <= k < |s| && k < i && k < j ==> r[k] == s[k])
      && (forall k :: 0 <= k < |s| && k > i && k > j ==> r[k] == s[k])
  {
    var t := s[..i] + s[i + 1..];
    var r := t[..j] + [s[i]] + t[j..];
    calc {
      multiset(r);
      multiset(t[..j]) + multiset([s[i]]) + multiset(t[j..]);
      { assert t == t[..j] + t[j..]; }
      multiset(t) + multiset([s[i]]);
      { assert s == s[..i] + [s[i]] + s[i + 1..]; }
      multiset(s);
    }
  }

  /** The array `s.slice(begin, end)` returns. */
  function Slice<T>(s: seq<T>, begin: int, end: int): (r: seq<T>)
    ensures 0 <= begin <= end <= |s| ==> r == s[begin..end]
    ensures |r| <= |s|
    ensures 0 <= begin && 0 <= end ==> |r| <= if end > begin then end - begin else 0
    ensures 0 <= begin ==> forall i :: 0 <= i < |r| ==> begin + i < |s| && r[i] == s[begin + i]
  {
    var b := RelativeIndex(begin, |s|);
    var e := RelativeIndex(end, |s|);
    if b < e then s[b..e] else []
  }

  /**
   * The first index whose element satisfies `p`, or -1: the shape of
   * `indexOf` and of every key-lookup `for` loop in the list code.
   */
  function FirstIndex<T>(s: seq<T>, p: T -> bool): (r: int)
    ensures -1 <= r < |s|
    ensures r >= 0 ==> p(s[r]) && forall j :: 0 <= j < r ==> !p(s[j])
    ensures r == -1 ==> forall j :: 0 <= j < |s| ==> !p(s[j])
  {
    if s == [] then -1
    else if p(s[0]) then 0
    else
      var r := FirstIndex(s[1..], p);
      if r < 0 then -1 else r + 1
  }

  /** `s.indexOf(x)`: strict equality, first occurrence, -1 if absent. */
  function IndexOf<T(==)>(s: seq<T>, x: T): (r: int)
    ensures r >= 0 <==> x in s
    ensures r >= 0 ==> r < |s| && s[r] == x && x !in s[..r]
  {
    FirstIndex(s, y => y == x)
  }
}
