/**
 * The two uses of `Array.prototype.splice` the board code makes:
 * `a.splice(i, 1)` with a valid index (remove one element) and
 * `a.splice(start, 0, x)` (insert one element). The insertion start is
 * normalised the way splice normalises it: a start past the end appends,
 * a negative start counts back from the end and stops at 0.
 */
module ArraySplice {

  /** The position at which `splice(start, ...)` acts on an array of length `len`. */
  function StartIndex(start: int, len: nat): (k: nat)
    ensures k <= len
    ensures 0 <= start ==> k == (if start <= len then start else len)
    ensures 0 < len && start < len ==> k < len
    ensures start < 0 <= len + start ==> k == len + start
    ensures len + start < 0 ==> k == 0
  {
    if start < 0 then (if len + start >= 0 then len + start else 0)
    else if start <= len then start
    else len
  }

  /** `s` after `s.splice(i, 1)`. */
  function Removed<T>(s: seq<T>, i: nat): (r: seq<T>)
    requires i < |s|
    ensures |r| == |s| - 1
  {
    s[..i] + s[i + 1..]
  }

  /** `s` after `s.splice(start, 0, x)`. */
  function Inserted<T>(s: seq<T>, start: int, x: T): (r: seq<T>)
    ensures |r| == |s| + 1
  {
    var k := StartIndex(start, |s|);
    s[..k] + [x] + s[k..]
  }

  /** Inserting puts `x` at the normalised start and shifts the rest right by one. */
  lemma InsertedAt<T>(s: seq<T>, start: int, x: T)
    ensures var k := StartIndex(start, |s|);
      && Inserted(s, start, x)[k] == x
      && Inserted(s, start, x)[..k] == s[..k]
      && Inserted(s, start, x)[k + 1..] == s[k..]
  {
  }

  /** Removing what was just inserted gives back the original sequence. */
  lemma RemoveInserted<T>(s: seq<T>, start: int, x: T)
    ensures Removed(Inserted(s, start, x), StartIndex(start, |s|)) == s
  {
    var k := StartIndex(start, |s|);
    var t := Inserted(s, start, x);
    assert t[..k] == s[..k];
    assert t[k + 1..] == s[k..];
    assert s == s[..k] + s[k..];
  }

  /** Re-inserting a removed element at its old index gives back the original sequence. */
  lemma InsertRemoved<T>(s: seq<T>, i: nat)
    requires i < |s|
    ensures Inserted(Removed(s, i), i, s[i]) == s
  {
    var r := Removed(s, i);
    assert r[..i] == s[..i];
    assert r[i..] == s[i + 1..];
    assert s == s[..i] + [s[i]] + s[i + 1..];
  }

  lemma RemovedMultiset<T>(s: seq<T>, i: nat)
    requires i < |s|
    ensures multiset(Removed(s, i)) + multiset{s[i]} == multiset(s)
  {
    assert s == s[..i] + [s[i]] + s[i + 1..];
  }

  lemma InsertedMultiset<T>(s: seq<T>, start: int, x: T)
    ensures multiset(Inserted(s, start, x)) == multiset(s) + multiset{x}
  {
    var k := StartIndex(start, |s|);
    assert s == s[..k] + s[k..];
  }

  /** Element `j` of `Removed(s, i)` is element `j` or `j + 1` of `s`. */
  lemma RemovedAt<T>(s: seq<T>, i: nat, j: nat)
    requires i < |s| && j < |s| - 1
    ensures Removed(s, i)[j] == if j < i then s[j] else s[j + 1]
  {
  }
}
