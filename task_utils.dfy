/**
 * The task helpers of the board: the two remove-then-insert helpers used on
 * copies of card arrays, the initials of a user's name and the priority
 * colour lookup. Each helper works on a copy in the source, so here each is a
 * function of its inputs: the caller's sequences cannot change.
 */
module TaskUtils {
  import opened ArraySplice
  import opened JsString

  /**
   * `reorderTasks(tasks, startIndex, endIndex)`: remove the element at
   * `startIndex`, where a negative index counts back from the end and stops
   * at 0 as in `splice`, then insert it at `endIndex` of the shorter
   * sequence. A `startIndex` of `n` or more, or an empty array, removes
   * nothing and makes the source insert `undefined`, so those are excluded
   * here.
   */
  function ReorderTasks<T>(tasks: seq<T>, startIndex: int, endIndex: int): (r: seq<T>)
    requires 0 < |tasks| && startIndex < |tasks|
    ensures |r| == |tasks|
  {
    var i := StartIndex(startIndex, |tasks|);
    Inserted(Removed(tasks, i), endIndex, tasks[i])
  }

  /** Where the moved element lands: `endIndex` clamped to the last position. */
  function Landing(n: nat, endIndex: int): (k: nat)
    requires n > 0
    ensures k < n
    ensures 0 <= endIndex ==> k == if endIndex < n then endIndex else n - 1
  {
    StartIndex(endIndex, n - 1)
  }

  /**
   * The result of moving element `i` to position `k`, element by element:
   * the elements between the two positions shift by one towards `i`.
   */
  function Shifted<T>(s: seq<T>, i: nat, k: nat, j: nat): T
    requires i < |s| && k < |s| && j < |s|
  {
    if j == k then s[i]
    else if i <= k && i <= j < k then s[j + 1]
    else if k < i && k < j <= i then s[j - 1]
    else s[j]
  }

  /** `reorderTasks` agrees with the element-by-element description of a move. */
  lemma ReorderTasksAt<T>(tasks: seq<T>, startIndex: int, endIndex: int)
    requires 0 < |tasks| && startIndex < |tasks|
    ensures var i := StartIndex(startIndex, |tasks|);
      var k := Landing(|tasks|, endIndex);
      forall j :: 0 <= j < |tasks| ==>
        ReorderTasks(tasks, startIndex, endIndex)[j] == Shifted(tasks, i, k, j)
  {
    var i := StartIndex(startIndex, |tasks|);
    var k := Landing(|tasks|, endIndex);
    var rest := Removed(tasks, i);
    var r := ReorderTasks(tasks, startIndex, endIndex);
    InsertedAt(rest, endIndex, tasks[i]);
    forall j | 0 <= j < |tasks|
      ensures r[j] == Shifted(tasks, i, k, j)
    {
      if j < k {
        assert r[j] == r[..k][j] == rest[j];
        RemovedAt(tasks, i, j);
      } else if j > k {
        assert r[j] == r[k + 1..][j - k - 1] == rest[j - 1];
        RemovedAt(tasks, i, j - 1);
      }
    }
  }

  /** `reorderTasks` is a permutation of its input. */
  lemma ReorderTasksPermutes<T>(tasks: seq<T>, startIndex: int, endIndex: int)
    requires 0 < |tasks| && startIndex < |tasks|
    ensures multiset(ReorderTasks(tasks, startIndex, endIndex)) == multiset(tasks)
  {
    var i := StartIndex(startIndex, |tasks|);
    RemovedMultiset(tasks, i);
    InsertedMultiset(Removed(tasks, i), endIndex, tasks[i]);
  }

  /**
   * The element at `startIndex` (counted from the end when negative, and
   * the first one when that count passes the start) ends
   * at `endIndex` clamped to `n - 1`, and taking it out again leaves the
   * other elements in their old order.
   */
  lemma ReorderTasksMovesOne<T>(tasks: seq<T>, startIndex: int, endIndex: int)
    requires 0 < |tasks| && startIndex < |tasks|
    ensures var r := ReorderTasks(tasks, startIndex, endIndex);
      var i := StartIndex(startIndex, |tasks|);
      var k := Landing(|tasks|, endIndex);
      && r[k] == tasks[i]
      && Removed(r, k) == Removed(tasks, i)
  {
    var i := StartIndex(startIndex, |tasks|);
    var rest := Removed(tasks, i);
    InsertedAt(rest, endIndex, tasks[i]);
    RemoveInserted(rest, endIndex, tasks[i]);
  }

  /**
   * A negative start removes from the end: `reorderTasks([a, b, c], -1, 0)`
   * takes `c` out and puts it first.
   */
  lemma ReorderTasksNegativeStart<T>(a: T, b: T, c: T)
    ensures ReorderTasks([a, b, c], -1, 0) == [c, a, b]
  {
    assert Removed([a, b, c], 2) == [a, b];
  }

  /**
   * A start further back than the length stops at 0:
   * `reorderTasks([a, b, c], -10, 2)` moves `a` to the end.
   */
  lemma ReorderTasksFarNegativeStart<T>(a: T, b: T, c: T)
    ensures ReorderTasks([a, b, c], -10, 2) == [b, c, a]
  {
    assert Removed([a, b, c], 0) == [b, c];
  }

  /** Moving an element to its own index changes nothing. */
  lemma ReorderTasksSameIndex<T>(tasks: seq<T>, i: nat)
    requires i < |tasks|
    ensures ReorderTasks(tasks, i, i) == tasks
  {
    InsertRemoved(tasks, i);
  }

  /** The `{ source, destination }` pair `moveTaskBetweenColumns` returns. */
  datatype Transfer<T> = Transfer(source: seq<T>, destination: seq<T>)

  /**
   * `moveTaskBetweenColumns(sourceColumn, destColumn, sourceIndex, destIndex)`:
   * the source copy loses the element at `sourceIndex`, which the destination
   * copy gains at `destIndex`.
   */
  function MoveTaskBetweenColumns<T>(sourceColumn: seq<T>, destColumn: seq<T>, sourceIndex: int, destIndex: int): (r: Transfer<T>)
    requires 0 < |sourceColumn| && sourceIndex < |sourceColumn|
    ensures |r.source| == |sourceColumn| - 1
    ensures |r.destination| == |destColumn| + 1
  {
    var i := StartIndex(sourceIndex, |sourceColumn|);
    Transfer(Removed(sourceColumn, i), Inserted(destColumn, destIndex, sourceColumn[i]))
  }

  /**
   * The moved element is the one at `sourceIndex` (counted from the end
   * when negative, and the first one when that count passes the start) and
   * lands at `destIndex`
   * clamped to the destination's length; the elements left in the source keep
   * their order, the destination's old elements keep theirs around it, and no
   * element is lost or duplicated.
   */
  lemma MoveTaskBetweenColumnsSpec<T>(sourceColumn: seq<T>, destColumn: seq<T>, sourceIndex: int, destIndex: int)
    requires 0 < |sourceColumn| && sourceIndex < |sourceColumn|
    ensures var r := MoveTaskBetweenColumns(sourceColumn, destColumn, sourceIndex, destIndex);
      var i := StartIndex(sourceIndex, |sourceColumn|);
      var k := StartIndex(destIndex, |destColumn|);
      && r.destination[k] == sourceColumn[i]
      && r.destination[..k] == destColumn[..k]
      && r.destination[k + 1..] == destColumn[k..]
      && r.source == sourceColumn[..i] + sourceColumn[i + 1..]
      && multiset(r.source) + multiset(r.destination) == multiset(sourceColumn) + multiset(destColumn)
  {
    var i := StartIndex(sourceIndex, |sourceColumn|);
    InsertedAt(destColumn, destIndex, sourceColumn[i]);
    RemovedMultiset(sourceColumn, i);
    InsertedMultiset(destColumn, destIndex, sourceColumn[i]);
  }

  /**
   * The first character of every part `split(' ')` produces; an empty part
   * gives `undefined`, which `join('')` turns into nothing.
   */
  function Heads(parts: seq<string>): string
  {
    if parts == [] then []
    else (if parts[0] == [] then [] else [parts[0][0]]) + Heads(parts[1..])
  }

  /**
   * The characters of `s` that begin a run of non-space characters;
   * `atStart` says whether the text before `s` ended at a space (or is empty).
   */
  function WordStarts(s: string, atStart: bool): string
  {
    if s == [] then []
    else if s[0] == ' ' then WordStarts(s[1..], true)
    else (if atStart then [s[0]] else []) + WordStarts(s[1..], false)
  }

  /** `getInitials(name)`. */
  function GetInitials(name: string): (r: string)
    ensures |r| <= 2
  {
    var all := Upper(Heads(Split(name)));
    if |all| <= 2 then all else all[..2]
  }

  lemma {:induction false} HeadsSplit(s: string)
    ensures Heads(Split(s)) == WordStarts(s, true)
    ensures Heads(Split(s)[1..]) == WordStarts(s, false)
    decreases |s|
  {
    if s != [] {
      var rest := Split(s[1..]);
      HeadsSplit(s[1..]);
      if s[0] == ' ' {
        assert Split(s)[1..] == rest;
      } else {
        var parts := [[s[0]] + rest[0]] + rest[1..];
        assert parts[1..] == rest[1..];
        assert Heads(parts) == [s[0]] + Heads(rest[1..]);
      }
    }
  }

  /**
   * The initials are the upper-cased first characters of the words of the
   * name, where a word is a run of characters between single spaces and
   * empty runs contribute nothing, cut to the first two.
   */
  lemma GetInitialsSpec(name: string)
    ensures var w := WordStarts(name, true);
      GetInitials(name) == Upper(if |w| <= 2 then w else w[..2])
  {
    HeadsSplit(name);
  }

  /** Every character of a `WordStarts` result is a non-space character of the text. */
  lemma {:induction false} WordStartsAreLetters(s: string, atStart: bool)
    ensures forall c :: c in WordStarts(s, atStart) ==> c in s && c != ' '
    decreases |s|
  {
    if s != [] {
      WordStartsAreLetters(s[1..], s[0] == ' ');
    }
  }

  /** A word without spaces contributes its first character, and only when it starts a word. */
  lemma {:induction false} WordStartsOfWord(w: string, atStart: bool)
    requires w != [] && ' ' !in w
    ensures WordStarts(w, atStart) == if atStart then [w[0]] else []
    decreases |w|
  {
    if |w| > 1 {
      assert w[1..] != [] && ' ' !in w[1..];
      WordStartsOfWord(w[1..], false);
    }
  }

  /** A word followed by a space contributes as above, and the text after the space starts a word. */
  lemma {:induction false} WordStartsAfterWord(w: string, rest: string, atStart: bool)
    requires w != [] && ' ' !in w
    ensures WordStarts(w + " " + rest, atStart) == (if atStart then [w[0]] else []) + WordStarts(rest, true)
    decreases |w|
  {
    var s := w + " " + rest;
    assert s[0] == w[0] && s[0] != ' ';
    if |w| == 1 {
      assert s[1..] == " " + rest;
      assert (" " + rest)[1..] == rest;
    } else {
      assert s[1..] == w[1..] + " " + rest;
      assert w[1..] != [] && ' ' !in w[1..];
      WordStartsAfterWord(w[1..], rest, false);
    }
  }

  lemma WordStartsOfName()
    ensures WordStarts("Alex Johnson", true) == "AJ"
  {
    assert "Alex Johnson" == "Alex" + " " + "Johnson";
    WordStartsAfterWord("Alex", "Johnson", true);
    WordStartsOfWord("Johnson", true);
  }

  /** "Alex Johnson" has the initials "AJ". */
  lemma GetInitialsExample()
    ensures GetInitials("Alex Johnson") == "AJ"
  {
    WordStartsOfName();
    GetInitialsSpec("Alex Johnson");
    assert Upper("AJ") == "AJ";
  }

  const PriorityLowClass := "border-l-4 border-priority-low"
  const PriorityMediumClass := "border-l-4 border-priority-medium"
  const PriorityHighClass := "border-l-4 border-priority-high"

  /** The colour table of `getPriorityColor`, keyed by priority name. */
  const PriorityColors: map<string, string> :=
    map["low" := PriorityLowClass, "medium" := PriorityMediumClass, "high" := PriorityHighClass]

  /** `getPriorityColor(priority)`: the table entry, or the medium class for a name not in the table. */
  function GetPriorityColor(priority: string): string
  {
    if priority in PriorityColors && PriorityColors[priority] != "" then PriorityColors[priority]
    else PriorityColors["medium"]
  }

  /**
   * The three priority names get three different classes; every other name
   * gets the medium class.
   */
  lemma GetPriorityColorSpec(priority: string)
    ensures priority == "low" ==> GetPriorityColor(priority) == PriorityLowClass
    ensures priority == "high" ==> GetPriorityColor(priority) == PriorityHighClass
    ensures priority != "low" && priority != "high" ==> GetPriorityColor(priority) == PriorityMediumClass
    ensures PriorityLowClass != PriorityMediumClass && PriorityMediumClass != PriorityHighClass
    ensures PriorityHighClass != PriorityLowClass
  {
  }
}
