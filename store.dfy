/**
 * The board store: one optional board and one drag state, changed in place by
 * the recipes `moveCard`, `addCard`, `updateCard`, `deleteCard`, `addColumn`,
 * `updateColumn`, `deleteColumn`, `setDragState` and `resetDragState`.
 *
 * Each recipe is specified by a function on the board's column sequence
 * (`Moved`, `CardAdded`, ...); the methods of `KanbanStore` perform the recipe
 * step by step and are proved to reach that function's result. The lemmas
 * state what the results mean: where the cards end up, that `order` is dense
 * afterwards, that cards are conserved and that nothing else changes.
 */
module Store {
  import opened KanbanTypes
  import opened ArraySplice

  // ---------------------------------------------------------------------
  // Lookups: `find` and `findIndex` by id, which stop at the first match.
  // ---------------------------------------------------------------------

  /** The position of the first occurrence of `id` in `ids`, if any. */
  function IndexOf(ids: seq<string>, id: string): (r: Option<nat>)
    ensures r.Some? ==> r.value < |ids| && ids[r.value] == id
    ensures r.Some? ==> forall j :: 0 <= j < r.value ==> ids[j] != id
    ensures r.None? ==> forall j :: 0 <= j < |ids| ==> ids[j] != id
    decreases |ids|
  {
    if ids == [] then None
    else if ids[0] == id then Some(0)
    else
      match IndexOf(ids[1..], id)
      case None => None
      case Some(k) => Some(k + 1)
  }

  function CardIds(cards: seq<Card>): seq<string>
  {
    seq(|cards|, i requires 0 <= i < |cards| => cards[i].id)
  }

  function ColumnIds(cols: seq<Column>): seq<string>
  {
    seq(|cols|, i requires 0 <= i < |cols| => cols[i].id)
  }

  /** `columns.find((c) => c.id === id)`, as a position. */
  function ColumnIndex(cols: seq<Column>, id: string): (r: Option<nat>)
    ensures r.Some? ==> r.value < |cols| && cols[r.value].id == id
    ensures r.Some? ==> forall j :: 0 <= j < r.value ==> cols[j].id != id
    ensures r.None? ==> forall j :: 0 <= j < |cols| ==> cols[j].id != id
  {
    var ids := ColumnIds(cols);
    assert forall j :: 0 <= j < |cols| ==> ids[j] == cols[j].id;
    IndexOf(ids, id)
  }

  /** `cards.findIndex((c) => c.id === id)`, with `-1` as `None`. */
  function CardIndex(cards: seq<Card>, id: string): (r: Option<nat>)
    ensures r.Some? ==> r.value < |cards| && cards[r.value].id == id
    ensures r.Some? ==> forall j :: 0 <= j < r.value ==> cards[j].id != id
    ensures r.None? ==> forall j :: 0 <= j < |cards| ==> cards[j].id != id
  {
    var ids := CardIds(cards);
    assert forall j :: 0 <= j < |cards| ==> ids[j] == cards[j].id;
    IndexOf(ids, id)
  }

  // ---------------------------------------------------------------------
  // Renumbering: `cards.forEach((c, i) => (c.order = i))`.
  // ---------------------------------------------------------------------

  /** Every card's `order` is its position. */
  predicate Dense(cards: seq<Card>)
  {
    forall i :: 0 <= i < |cards| ==> cards[i].order == i
  }

  /** Every column's `order` is its position. */
  predicate DenseColumns(cols: seq<Column>)
  {
    forall i :: 0 <= i < |cols| ==> cols[i].order == i
  }

  /** The cards with their `order` fields blanked: what a renumbering keeps. */
  function WithoutOrder(cards: seq<Card>): seq<Card>
  {
    seq(|cards|, i requires 0 <= i < |cards| => cards[i].(order := 0))
  }

  /** The cards after renumbering: dense, and otherwise the same cards in the same places. */
  function Renumbered(cards: seq<Card>): (r: seq<Card>)
    ensures Dense(r)
    ensures WithoutOrder(r) == WithoutOrder(cards)
    ensures CardIds(r) == CardIds(cards)
  {
    seq(|cards|, i requires 0 <= i < |cards| => cards[i].(order := i))
  }

  /** The columns after renumbering: dense, and otherwise the same columns in the same places. */
  function RenumberedColumns(cols: seq<Column>): (r: seq<Column>)
    ensures DenseColumns(r)
    ensures |r| == |cols| && ColumnIds(r) == ColumnIds(cols)
    ensures forall i :: 0 <= i < |r| ==> r[i].(order := cols[i].order) == cols[i]
  {
    seq(|cols|, i requires 0 <= i < |cols| => cols[i].(order := i))
  }

  /** The `forEach` loop that renumbers a column's cards. */
  method RenumberCards(cards: seq<Card>) returns (r: seq<Card>)
    ensures r == Renumbered(cards)
  {
    r := cards;
    var i := 0;
    while i < |r|
      invariant 0 <= i <= |r| == |cards|
      invariant forall j :: 0 <= j < i ==> r[j] == cards[j].(order := j)
      invariant forall j :: i <= j < |r| ==> r[j] == cards[j]
    {
      r := r[i := r[i].(order := i)];
      i := i + 1;
    }
  }

  /** The `forEach` loop that renumbers the board's columns. */
  method RenumberColumns(cols: seq<Column>) returns (r: seq<Column>)
    ensures r == RenumberedColumns(cols)
  {
    r := cols;
    var i := 0;
    while i < |r|
      invariant 0 <= i <= |r| == |cols|
      invariant forall j :: 0 <= j < i ==> r[j] == cols[j].(order := j)
      invariant forall j :: i <= j < |r| ==> r[j] == cols[j]
    {
      r := r[i := r[i].(order := i)];
      i := i + 1;
    }
  }

  lemma RenumberedTwice(cards: seq<Card>)
    ensures Renumbered(Renumbered(cards)) == Renumbered(cards)
  {
  }

  // ---------------------------------------------------------------------
  // Board invariants.
  // ---------------------------------------------------------------------

  /** A column whose cards are numbered densely and point back at it. */
  predicate ColumnWellFormed(c: Column)
  {
    && Dense(c.cards)
    && forall i :: 0 <= i < |c.cards| ==> c.cards[i].columnId == c.id
  }

  /** Column orders are dense and every column is well formed. */
  predicate WellFormed(cols: seq<Column>)
  {
    && DenseColumns(cols)
    && forall k :: 0 <= k < |cols| ==> ColumnWellFormed(cols[k])
  }

  /** The ids of all cards on the board, with multiplicity. */
  function AllCardIds(cols: seq<Column>): multiset<string>
    decreases |cols|
  {
    if cols == [] then multiset{} else multiset(CardIds(cols[0].cards)) + AllCardIds(cols[1..])
  }

  /** Replacing one column changes the board's cards by exactly that column's cards. */
  lemma {:induction false} AllCardIdsUpdate(cols: seq<Column>, k: nat, c: Column)
    requires k < |cols|
    ensures AllCardIds(cols[k := c]) + multiset(CardIds(cols[k].cards))
         == AllCardIds(cols) + multiset(CardIds(c.cards))
    decreases |cols|
  {
    var u := cols[k := c];
    if k == 0 {
      assert u[1..] == cols[1..];
    } else {
      assert u[0] == cols[0];
      assert u[1..] == cols[1..][k - 1 := c];
      AllCardIdsUpdate(cols[1..], k - 1, c);
      var head := multiset(CardIds(cols[0].cards));
      var was := multiset(CardIds(cols[k].cards));
      var now := multiset(CardIds(c.cards));
      calc {
        AllCardIds(u) + was;
        head + AllCardIds(u[1..]) + was;
        head + (AllCardIds(cols[1..][k - 1 := c]) + multiset(CardIds(cols[1..][k - 1].cards)));
        head + (AllCardIds(cols[1..]) + now);
        AllCardIds(cols) + now;
      }
    }
  }

  lemma Cancel(a: multiset<string>, b: multiset<string>, c: multiset<string>)
    requires a + c == b + c
    ensures a == b
  {
    assert forall x :: a[x] == (a + c)[x] - c[x] == (b + c)[x] - c[x] == b[x];
  }

  /** Giving one column new cards changes the board's cards by exactly the difference. */
  lemma ReplaceCards(cols: seq<Column>, k: nat, cards: seq<Card>)
    requires k < |cols|
    ensures AllCardIds(cols[k := cols[k].(cards := cards)]) + multiset(CardIds(cols[k].cards))
         == AllCardIds(cols) + multiset(CardIds(cards))
  {
    AllCardIdsUpdate(cols, k, cols[k].(cards := cards));
  }

  lemma CardIdsInserted(cards: seq<Card>, start: int, x: Card)
    ensures multiset(CardIds(Inserted(cards, start, x))) == multiset(CardIds(cards)) + multiset{x.id}
  {
    assert CardIds(Inserted(cards, start, x)) == Inserted(CardIds(cards), start, x.id);
    InsertedMultiset(CardIds(cards), start, x.id);
  }

  lemma CardIdsRemoved(cards: seq<Card>, i: nat)
    requires i < |cards|
    ensures CardIds(Removed(cards, i)) == Removed(CardIds(cards), i)
    ensures multiset(CardIds(Removed(cards, i))) + multiset{cards[i].id} == multiset(CardIds(cards))
  {
    assert CardIds(Removed(cards, i)) == Removed(CardIds(cards), i);
    RemovedMultiset(CardIds(cards), i);
  }

  // ---------------------------------------------------------------------
  // moveCard
  // ---------------------------------------------------------------------

  /** The positions `moveCard` works on: source column, target column, card within the source. */
  datatype MovePlan = MovePlan(source: nat, target: nat, card: nat)

  /** The three lookups of `moveCard`; `None` when any of them fails. */
  function Plan(cols: seq<Column>, cardId: string, sourceColumnId: string, targetColumnId: string): (p: Option<MovePlan>)
    ensures p.Some? ==> p.value.source < |cols| && p.value.target < |cols|
    ensures p.Some? ==> p.value.card < |cols[p.value.source].cards|
    ensures p.Some? ==> ColumnIndex(cols, sourceColumnId) == Some(p.value.source)
    ensures p.Some? ==> ColumnIndex(cols, targetColumnId) == Some(p.value.target)
    ensures p.Some? ==> CardIndex(cols[p.value.source].cards, cardId) == Some(p.value.card)
    ensures p.None? <==>
      || ColumnIndex(cols, sourceColumnId).None?
      || ColumnIndex(cols, targetColumnId).None?
      || CardIndex(cols[ColumnIndex(cols, sourceColumnId).value].cards, cardId).None?
  {
    match ColumnIndex(cols, sourceColumnId)
    case None => None
    case Some(si) =>
      match ColumnIndex(cols, targetColumnId)
      case None => None
      case Some(ti) =>
        match CardIndex(cols[si].cards, cardId)
        case None => None
        case Some(ci) => Some(MovePlan(si, ti, ci))
  }

  /** The target column's cards once the card has left the source (the same sequence when they coincide). */
  function Destination(cols: seq<Column>, p: MovePlan): seq<Card>
    requires p.source < |cols| && p.target < |cols| && p.card < |cols[p.source].cards|
  {
    if p.source == p.target then Removed(cols[p.source].cards, p.card) else cols[p.target].cards
  }

  /** The board's columns after `moveCard(cardId, sourceColumnId, targetColumnId, newIndex)` at time `now`. */
  function Moved(cols: seq<Column>, cardId: string, sourceColumnId: string, targetColumnId: string,
                 newIndex: int, now: Timestamp): seq<Column>
  {
    match Plan(cols, cardId, sourceColumnId, targetColumnId)
    case None => cols
    case Some(p) =>
      var card := cols[p.source].cards[p.card].(columnId := targetColumnId, updatedAt := now);
      var rest := Removed(cols[p.source].cards, p.card);
      if p.source == p.target then
        cols[p.source := cols[p.source].(cards := Renumbered(Inserted(rest, newIndex, card)))]
      else
        cols[p.source := cols[p.source].(cards := Renumbered(rest))]
            [p.target := cols[p.target].(cards := Renumbered(Inserted(cols[p.target].cards, newIndex, card)))]
  }

  /** An unknown column, or a card that is not in the source column, leaves the board as it was. */
  lemma MoveUnknownIsNoOp(cols: seq<Column>, cardId: string, sourceColumnId: string, targetColumnId: string,
                          newIndex: int, now: Timestamp)
    requires
      || (forall j :: 0 <= j < |cols| ==> cols[j].id != sourceColumnId)
      || (forall j :: 0 <= j < |cols| ==> cols[j].id != targetColumnId)
      || (forall j :: 0 <= j < |cols| && cols[j].id == sourceColumnId ==>
            forall i :: 0 <= i < |cols[j].cards| ==> cols[j].cards[i].id != cardId)
    ensures Moved(cols, cardId, sourceColumnId, targetColumnId, newIndex, now) == cols
  {
  }

  /**
   * The moved card sits in the target column at the clamped index
   * (min(newIndex, length) for a non-negative index), with `columnId` and
   * `updatedAt` refreshed and no other field of it changed; around it the
   * target keeps its cards in their order.
   */
  lemma MovePlacesCard(cols: seq<Column>, cardId: string, sourceColumnId: string, targetColumnId: string,
                       newIndex: int, now: Timestamp)
    requires Plan(cols, cardId, sourceColumnId, targetColumnId).Some?
    ensures var p := Plan(cols, cardId, sourceColumnId, targetColumnId).value;
      var r := Moved(cols, cardId, sourceColumnId, targetColumnId, newIndex, now);
      var dest := Destination(cols, p);
      var k := StartIndex(newIndex, |dest|);
      var card := cols[p.source].cards[p.card];
      && |r| == |cols|
      && |r[p.target].cards| == |dest| + 1
      && (0 <= newIndex ==> k == if newIndex < |dest| then newIndex else |dest|)
      && r[p.target].cards[k] == card.(columnId := targetColumnId, updatedAt := now, order := k)
      && r[p.target].cards[k].id == cardId
      && WithoutOrder(r[p.target].cards[..k]) == WithoutOrder(dest[..k])
      && WithoutOrder(r[p.target].cards[k + 1..]) == WithoutOrder(dest[k..])
  {
    var p := Plan(cols, cardId, sourceColumnId, targetColumnId).value;
    var r := Moved(cols, cardId, sourceColumnId, targetColumnId, newIndex, now);
    var dest := Destination(cols, p);
    var k := StartIndex(newIndex, |dest|);
    var card := cols[p.source].cards[p.card].(columnId := targetColumnId, updatedAt := now);
    var ins := Inserted(dest, newIndex, card);
    InsertedAt(dest, newIndex, card);
    assert r[p.target].cards == Renumbered(ins);
    assert WithoutOrder(r[p.target].cards[..k]) == WithoutOrder(ins[..k]);
    assert WithoutOrder(r[p.target].cards[k + 1..]) == WithoutOrder(ins[k + 1..]);
  }

  /** When the columns differ the source loses exactly the moved card and keeps the rest in order. */
  lemma MoveRemovesFromSource(cols: seq<Column>, cardId: string, sourceColumnId: string, targetColumnId: string,
                              newIndex: int, now: Timestamp)
    requires Plan(cols, cardId, sourceColumnId, targetColumnId).Some?
    requires var p := Plan(cols, cardId, sourceColumnId, targetColumnId).value; p.source != p.target
    ensures var p := Plan(cols, cardId, sourceColumnId, targetColumnId).value;
      var r := Moved(cols, cardId, sourceColumnId, targetColumnId, newIndex, now);
      var source := cols[p.source].cards;
      && WithoutOrder(r[p.source].cards) == WithoutOrder(Removed(source, p.card))
      && CardIds(r[p.source].cards) == Removed(CardIds(source), p.card)
      && (multiset(CardIds(source))[cardId] == 1 ==> cardId !in CardIds(r[p.source].cards))
  {
    var p := Plan(cols, cardId, sourceColumnId, targetColumnId).value;
    var source := cols[p.source].cards;
    var ids := CardIds(source);
    assert CardIds(Removed(source, p.card)) == Removed(ids, p.card);
    RemovedMultiset(ids, p.card);
  }

  /** Afterwards both touched columns are numbered densely. */
  lemma MoveRenumbers(cols: seq<Column>, cardId: string, sourceColumnId: string, targetColumnId: string,
                      newIndex: int, now: Timestamp)
    requires Plan(cols, cardId, sourceColumnId, targetColumnId).Some?
    ensures var p := Plan(cols, cardId, sourceColumnId, targetColumnId).value;
      var r := Moved(cols, cardId, sourceColumnId, targetColumnId, newIndex, now);
      Dense(r[p.source].cards) && Dense(r[p.target].cards)
  {
  }

  /** Columns other than source and target are untouched, and no column's own fields change. */
  lemma MoveFrame(cols: seq<Column>, cardId: string, sourceColumnId: string, targetColumnId: string,
                  newIndex: int, now: Timestamp)
    ensures var r := Moved(cols, cardId, sourceColumnId, targetColumnId, newIndex, now);
      && |r| == |cols|
      && (forall k :: 0 <= k < |r| ==> r[k].(cards := cols[k].cards) == cols[k])
      && (Plan(cols, cardId, sourceColumnId, targetColumnId).Some? ==>
            var p := Plan(cols, cardId, sourceColumnId, targetColumnId).value;
            forall k :: 0 <= k < |r| && k != p.source && k != p.target ==> r[k] == cols[k])
  {
  }

  /** A move neither creates nor loses cards. */
  lemma MoveConservesCards(cols: seq<Column>, cardId: string, sourceColumnId: string, targetColumnId: string,
                           newIndex: int, now: Timestamp)
    ensures AllCardIds(Moved(cols, cardId, sourceColumnId, targetColumnId, newIndex, now)) == AllCardIds(cols)
  {
    var plan := Plan(cols, cardId, sourceColumnId, targetColumnId);
    if plan.Some? {
      var p := plan.value;
      var source := cols[p.source].cards;
      var card := source[p.card].(columnId := targetColumnId, updatedAt := now);
      var rest := Removed(source, p.card);
      CardIdsRemoved(source, p.card);
      if p.source == p.target {
        var cards := Renumbered(Inserted(rest, newIndex, card));
        CardIdsInserted(rest, newIndex, card);
        ReplaceSameCards(cols, p.source, cards);
      } else {
        var cards := Renumbered(Inserted(cols[p.target].cards, newIndex, card));
        CardIdsInserted(cols[p.target].cards, newIndex, card);
        ReplaceTwo(cols, p.source, p.target, Renumbered(rest), cards, cardId);
      }
    }
  }

  lemma ReplaceSameCards(cols: seq<Column>, k: nat, cards: seq<Card>)
    requires k < |cols|
    requires multiset(CardIds(cards)) == multiset(CardIds(cols[k].cards))
    ensures AllCardIds(cols[k := cols[k].(cards := cards)]) == AllCardIds(cols)
  {
    ReplaceCards(cols, k, cards);
    Cancel(AllCardIds(cols[k := cols[k].(cards := cards)]), AllCardIds(cols), multiset(CardIds(cards)));
  }

  /** One card id moving from column `a` to column `b` leaves the board's cards as they were. */
  lemma ReplaceTwo(cols: seq<Column>, a: nat, b: nat, ca: seq<Card>, cb: seq<Card>, x: string)
    requires a < |cols| && b < |cols| && a != b
    requires multiset(CardIds(ca)) + multiset{x} == multiset(CardIds(cols[a].cards))
    requires multiset(CardIds(cb)) == multiset(CardIds(cols[b].cards)) + multiset{x}
    ensures AllCardIds(cols[a := cols[a].(cards := ca)][b := cols[b].(cards := cb)]) == AllCardIds(cols)
  {
    var mid := cols[a := cols[a].(cards := ca)];
    var r := mid[b := mid[b].(cards := cb)];
    assert mid[b] == cols[b];
    assert r == cols[a := cols[a].(cards := ca)][b := cols[b].(cards := cb)];
    var ma := multiset(CardIds(ca));
    var mb := multiset(CardIds(cols[b].cards));
    ReplaceCards(cols, a, ca);
    assert AllCardIds(mid) + ma + multiset{x} == AllCardIds(cols) + ma;
    Cancel(AllCardIds(mid) + multiset{x}, AllCardIds(cols), ma);
    ReplaceCards(mid, b, cb);
    assert AllCardIds(r) + mb == AllCardIds(mid) + multiset{x} + mb;
    Cancel(AllCardIds(r), AllCardIds(mid) + multiset{x}, mb);
  }

  /** Every card of `cards` points at column `id`. */
  predicate PointAt(cards: seq<Card>, id: string)
  {
    forall i :: 0 <= i < |cards| ==> cards[i].columnId == id
  }

  /** A column whose cards point at it and are renumbered is well formed. */
  lemma RenumberedWellFormed(c: Column, cards: seq<Card>)
    requires PointAt(cards, c.id)
    ensures ColumnWellFormed(c.(cards := Renumbered(cards)))
  {
    var r := Renumbered(cards);
    assert forall i :: 0 <= i < |r| ==> r[i].columnId == cards[i].columnId;
  }

  /** Removing a card keeps every card pointing at the column. */
  lemma PointAtRemoved(cards: seq<Card>, i: nat, id: string)
    requires PointAt(cards, id) && i < |cards|
    ensures PointAt(Removed(cards, i), id)
  {
    var rest := Removed(cards, i);
    forall j | 0 <= j < |rest|
      ensures rest[j].columnId == id
    {
      RemovedAt(cards, i, j);
    }
  }

  /** Inserting a card that points at the column keeps every card pointing at it. */
  lemma PointAtInserted(cards: seq<Card>, start: int, x: Card)
    requires PointAt(cards, x.columnId)
    ensures PointAt(Inserted(cards, start, x), x.columnId)
  {
    var ins := Inserted(cards, start, x);
    var k := StartIndex(start, |cards|);
    InsertedAt(cards, start, x);
    forall j | 0 <= j < |ins|
      ensures ins[j].columnId == x.columnId
    {
      if j < k {
        assert ins[j] == ins[..k][j] == cards[j];
      } else if j > k {
        assert ins[j] == ins[k + 1..][j - k - 1] == cards[j - 1];
      }
    }
  }

  /** A move keeps the board well formed: dense orders and cards pointing at their column. */
  lemma MovePreservesWellFormed(cols: seq<Column>, cardId: string, sourceColumnId: string, targetColumnId: string,
                                newIndex: int, now: Timestamp)
    requires WellFormed(cols)
    ensures WellFormed(Moved(cols, cardId, sourceColumnId, targetColumnId, newIndex, now))
  {
    var plan := Plan(cols, cardId, sourceColumnId, targetColumnId);
    if plan.Some? {
      var p := plan.value;
      var r := Moved(cols, cardId, sourceColumnId, targetColumnId, newIndex, now);
      MoveFrame(cols, cardId, sourceColumnId, targetColumnId, newIndex, now);
      var source := cols[p.source].cards;
      var card := source[p.card].(columnId := targetColumnId, updatedAt := now);
      var rest := Removed(source, p.card);
      assert ColumnWellFormed(cols[p.source]) && ColumnWellFormed(cols[p.target]);
      assert PointAt(source, cols[p.source].id) && PointAt(cols[p.target].cards, cols[p.target].id);
      assert cols[p.target].id == targetColumnId;
      PointAtRemoved(source, p.card, cols[p.source].id);
      if p.source == p.target {
        PointAtInserted(rest, newIndex, card);
        RenumberedWellFormed(cols[p.source], Inserted(rest, newIndex, card));
      } else {
        RenumberedWellFormed(cols[p.source], rest);
        PointAtInserted(cols[p.target].cards, newIndex, card);
        RenumberedWellFormed(cols[p.target], Inserted(cols[p.target].cards, newIndex, card));
      }
      forall k | 0 <= k < |r|
        ensures ColumnWellFormed(r[k])
      {
        if k != p.source && k != p.target {
          assert r[k] == cols[k];
          assert ColumnWellFormed(cols[k]);
        }
      }
    }
  }

  /** Two card lists that agree apart from `order` renumber to the same list. */
  lemma RenumberedByShape(a: seq<Card>, b: seq<Card>)
    requires WithoutOrder(a) == WithoutOrder(b)
    ensures Renumbered(a) == Renumbered(b)
  {
    assert |a| == |WithoutOrder(a)| == |b|;
    forall i | 0 <= i < |a|
      ensures a[i].(order := i) == b[i].(order := i)
    {
      assert WithoutOrder(a)[i] == WithoutOrder(b)[i];
    }
  }

  /** Removing at the same place keeps two lists that agree apart from `order` in agreement. */
  lemma WithoutOrderRemoved(a: seq<Card>, b: seq<Card>, i: nat)
    requires WithoutOrder(a) == WithoutOrder(b) && i < |a|
    ensures WithoutOrder(Removed(a, i)) == WithoutOrder(Removed(b, i))
  {
    assert |a| == |WithoutOrder(a)| == |b|;
    assert forall k :: 0 <= k < |a| ==> a[k].(order := 0) == WithoutOrder(a)[k] == b[k].(order := 0);
    var ra, rb := Removed(a, i), Removed(b, i);
    forall k | 0 <= k < |ra|
      ensures ra[k].(order := 0) == rb[k].(order := 0)
    {
      RemovedAt(a, i, k);
      RemovedAt(b, i, k);
    }
  }

  /** Inserting cards that agree apart from `order` keeps two such lists in agreement. */
  lemma WithoutOrderInserted(a: seq<Card>, b: seq<Card>, j: int, x: Card, y: Card)
    requires WithoutOrder(a) == WithoutOrder(b)
    requires x.(order := 0) == y.(order := 0)
    ensures WithoutOrder(Inserted(a, j, x)) == WithoutOrder(Inserted(b, j, y))
  {
    assert |a| == |WithoutOrder(a)| == |b|;
    assert forall k :: 0 <= k < |a| ==> a[k].(order := 0) == WithoutOrder(a)[k] == b[k].(order := 0);
    var ia, ib := Inserted(a, j, x), Inserted(b, j, y);
    InsertedAt(a, j, x);
    InsertedAt(b, j, y);
    var k := StartIndex(j, |a|);
    forall m | 0 <= m < |ia|
      ensures ia[m].(order := 0) == ib[m].(order := 0)
    {
      if m < k {
        assert ia[m] == ia[..k][m] == a[m] && ib[m] == ib[..k][m] == b[m];
      } else if m > k {
        assert ia[m] == ia[k + 1..][m - k - 1] == a[m - 1] && ib[m] == ib[k + 1..][m - k - 1] == b[m - 1];
      }
    }
  }

  /** Column lists with the same ids have the same column lookups. */
  lemma ColumnIndexByIds(a: seq<Column>, b: seq<Column>, id: string)
    requires ColumnIds(a) == ColumnIds(b)
    ensures ColumnIndex(a, id) == ColumnIndex(b, id)
  {
  }

  /** Within one column, a second identical move finds the card where the first put it and puts it there again. */
  lemma SameColumnMovedAgain(rest: seq<Card>, card: Card, newIndex: int, targetColumnId: string, now: Timestamp)
    requires card.columnId == targetColumnId && card.updatedAt == now
    requires card.id !in CardIds(rest)
    ensures var big := Renumbered(Inserted(rest, newIndex, card));
      var k := StartIndex(newIndex, |rest|);
      && CardIndex(big, card.id) == Some(k)
      && Renumbered(Inserted(Removed(big, k), newIndex, big[k].(columnId := targetColumnId, updatedAt := now))) == big
  {
    var x := Inserted(rest, newIndex, card);
    var big := Renumbered(x);
    var k := StartIndex(newIndex, |rest|);
    InsertedAt(rest, newIndex, card);
    assert big[k] == card.(order := k);
    assert forall j :: 0 <= j < k ==> big[j].id == rest[j].id && rest[j].id == CardIds(rest)[j];
    var card2 := big[k].(columnId := targetColumnId, updatedAt := now);
    assert card2 == card.(order := k);
    RemoveInserted(rest, newIndex, card);
    WithoutOrderRemoved(big, x, k);
    var rest2 := Removed(big, k);
    WithoutOrderInserted(rest2, rest, newIndex, card2, card);
    RenumberedByShape(Inserted(rest2, newIndex, card2), x);
  }

  /**
   * When no column holds the card's id twice, repeating a move at the same
   * time changes nothing: between columns the card is no longer in the
   * source, and within one column it is found where it was put and put
   * there again.
   */
  lemma MoveIdempotent(cols: seq<Column>, cardId: string, sourceColumnId: string, targetColumnId: string,
                       newIndex: int, now: Timestamp)
    requires forall k :: 0 <= k < |cols| ==> multiset(CardIds(cols[k].cards))[cardId] <= 1
    ensures var r := Moved(cols, cardId, sourceColumnId, targetColumnId, newIndex, now);
      Moved(r, cardId, sourceColumnId, targetColumnId, newIndex, now) == r
  {
    var plan := Plan(cols, cardId, sourceColumnId, targetColumnId);
    if plan.Some? {
      var p := plan.value;
      var r := Moved(cols, cardId, sourceColumnId, targetColumnId, newIndex, now);
      MoveFrame(cols, cardId, sourceColumnId, targetColumnId, newIndex, now);
      ColumnIndexByIds(r, cols, sourceColumnId);
      ColumnIndexByIds(r, cols, targetColumnId);
      var source := cols[p.source].cards;
      assert source[p.card].id == cardId;
      assert cardId in multiset(CardIds(source));
      if p.source != p.target {
        MoveRemovesFromSource(cols, cardId, sourceColumnId, targetColumnId, newIndex, now);
        assert CardIndex(r[p.source].cards, cardId).None?;
      } else {
        var card := source[p.card].(columnId := targetColumnId, updatedAt := now);
        var rest := Removed(source, p.card);
        CardIdsRemoved(source, p.card);
        assert cardId !in CardIds(rest);
        SameColumnMovedAgain(rest, card, newIndex, targetColumnId, now);
        assert r[p.source].cards == Renumbered(Inserted(rest, newIndex, card));
      }
    }
  }

  // ---------------------------------------------------------------------
  // addCard
  // ---------------------------------------------------------------------

  /** What the caller supplies to `addCard`: a card without id, order and timestamps. */
  datatype CardData = CardData(
    title: string,
    description: Option<string>,
    columnId: string,
    priority: Priority,
    labels: seq<Label>,
    assignees: seq<User>,
    dueDate: Option<Timestamp>)

  /** `{ ...cardData, id, columnId, order, createdAt: now, updatedAt: now }`. */
  function NewCard(data: CardData, id: string, columnId: string, order: int, now: Timestamp): Card
  {
    Card(id, data.title, data.description, columnId, data.priority, data.labels, data.assignees,
         data.dueDate, now, now, order)
  }

  /** The board's columns after `addCard(columnId, data)` with fresh id `id` at time `now`. */
  function CardAdded(cols: seq<Column>, columnId: string, data: CardData, id: string, now: Timestamp): seq<Column>
  {
    match ColumnIndex(cols, columnId)
    case None => cols
    case Some(k) =>
      cols[k := cols[k].(cards := cols[k].cards + [NewCard(data, id, columnId, |cols[k].cards|, now)])]
  }

  /**
   * On an unknown column nothing happens; otherwise the first column with
   * that id gains exactly one card at its end, carrying the fresh id, the
   * column's id, `order` equal to the old length and both timestamps `now`,
   * and every other card and column is as before.
   */
  lemma CardAddedSpec(cols: seq<Column>, columnId: string, data: CardData, id: string, now: Timestamp)
    ensures var r := CardAdded(cols, columnId, data, id, now);
      && |r| == |cols|
      && (ColumnIndex(cols, columnId).None? ==> r == cols)
      && (ColumnIndex(cols, columnId).Some? ==>
            var k := ColumnIndex(cols, columnId).value;
            var n := |cols[k].cards|;
            && (forall j :: 0 <= j < |r| && j != k ==> r[j] == cols[j])
            && r[k].(cards := cols[k].cards) == cols[k]
            && |r[k].cards| == n + 1
            && r[k].cards[..n] == cols[k].cards
            && var c := r[k].cards[n];
               && c.id == id && c.columnId == columnId && c.order == n
               && c.createdAt == now && c.updatedAt == now
               && c.title == data.title && c.description == data.description && c.priority == data.priority
               && c.labels == data.labels && c.assignees == data.assignees && c.dueDate == data.dueDate)
  {
  }

  /** Adding a card adds exactly its id to the board's cards. */
  lemma CardAddedConserves(cols: seq<Column>, columnId: string, data: CardData, id: string, now: Timestamp)
    ensures AllCardIds(CardAdded(cols, columnId, data, id, now))
         == if ColumnIndex(cols, columnId).Some? then AllCardIds(cols) + multiset{id} else AllCardIds(cols)
  {
    match ColumnIndex(cols, columnId)
    case None =>
    case Some(k) =>
      var cards := cols[k].cards + [NewCard(data, id, columnId, |cols[k].cards|, now)];
      var r := cols[k := cols[k].(cards := cards)];
      assert CardAdded(cols, columnId, data, id, now) == r;
      assert CardIds(cards) == CardIds(cols[k].cards) + [id];
      var was := multiset(CardIds(cols[k].cards));
      assert multiset(CardIds(cards)) == was + multiset{id};
      ReplaceCards(cols, k, cards);
      assert AllCardIds(r) + was == AllCardIds(cols) + multiset{id} + was;
      Cancel(AllCardIds(r), AllCardIds(cols) + multiset{id}, was);
  }

  lemma CardAddedPreservesWellFormed(cols: seq<Column>, columnId: string, data: CardData, id: string, now: Timestamp)
    requires WellFormed(cols)
    ensures WellFormed(CardAdded(cols, columnId, data, id, now))
  {
    var r := CardAdded(cols, columnId, data, id, now);
    match ColumnIndex(cols, columnId)
    case None =>
    case Some(k) =>
      assert ColumnWellFormed(cols[k]);
      assert ColumnWellFormed(r[k]);
      assert forall j :: 0 <= j < |r| && j != k ==> r[j] == cols[j];
  }

  // ---------------------------------------------------------------------
  // updateCard
  // ---------------------------------------------------------------------

  /** A `Partial<KanbanCard>`: a field is `None` when the update does not mention it. */
  datatype CardUpdate = CardUpdate(
    id: Option<string>,
    title: Option<string>,
    description: Option<Option<string>>,
    columnId: Option<string>,
    priority: Option<Priority>,
    labels: Option<seq<Label>>,
    assignees: Option<seq<User>>,
    dueDate: Option<Option<Timestamp>>,
    createdAt: Option<Timestamp>,
    updatedAt: Option<Timestamp>,
    order: Option<int>)

  function Pick<T>(u: Option<T>, old_: T): T
  {
    if u.Some? then u.value else old_
  }

  /** `Object.assign(card, updates)`: every mentioned field is overwritten, the others are kept. */
  function Merge(c: Card, u: CardUpdate): Card
  {
    Card(Pick(u.id, c.id), Pick(u.title, c.title), Pick(u.description, c.description),
         Pick(u.columnId, c.columnId), Pick(u.priority, c.priority), Pick(u.labels, c.labels),
         Pick(u.assignees, c.assignees), Pick(u.dueDate, c.dueDate), Pick(u.createdAt, c.createdAt),
         Pick(u.updatedAt, c.updatedAt), Pick(u.order, c.order))
  }

  /** The first column that holds a card with id `cardId`: the `for ... of` loop with `break`. */
  function ColumnWithCard(cols: seq<Column>, cardId: string): (r: Option<nat>)
    ensures r.Some? ==> r.value < |cols| && CardIndex(cols[r.value].cards, cardId).Some?
    ensures r.Some? ==> forall j :: 0 <= j < r.value ==> CardIndex(cols[j].cards, cardId).None?
    ensures r.None? ==> forall j :: 0 <= j < |cols| ==> CardIndex(cols[j].cards, cardId).None?
    decreases |cols|
  {
    if cols == [] then None
    else if CardIndex(cols[0].cards, cardId).Some? then Some(0)
    else
      match ColumnWithCard(cols[1..], cardId)
      case None => None
      case Some(k) => Some(k + 1)
  }

  /** The board's columns after `updateCard(cardId, updates)` at time `now`. */
  function CardUpdated(cols: seq<Column>, cardId: string, updates: CardUpdate, now: Timestamp): seq<Column>
  {
    match ColumnWithCard(cols, cardId)
    case None => cols
    case Some(k) =>
      var j := CardIndex(cols[k].cards, cardId).value;
      cols[k := cols[k].(cards := cols[k].cards[j := Merge(cols[k].cards[j], updates).(updatedAt := now)])]
  }

  /**
   * Only the first card with that id, in the first column holding one,
   * changes: it takes the mentioned fields from the update and `updatedAt`
   * becomes `now` whatever the update says; an update naming no field
   * changes only `updatedAt`. An unknown id changes nothing.
   */
  lemma CardUpdatedSpec(cols: seq<Column>, cardId: string, updates: CardUpdate, now: Timestamp)
    ensures var r := CardUpdated(cols, cardId, updates, now);
      && |r| == |cols|
      && (ColumnWithCard(cols, cardId).None? ==> r == cols)
      && (ColumnWithCard(cols, cardId).Some? ==>
            var k := ColumnWithCard(cols, cardId).value;
            var j := CardIndex(cols[k].cards, cardId).value;
            var c := cols[k].cards[j];
            && (forall x :: 0 <= x < |r| && x != k ==> r[x] == cols[x])
            && r[k].(cards := cols[k].cards) == cols[k]
            && |r[k].cards| == |cols[k].cards|
            && (forall y :: 0 <= y < |r[k].cards| && y != j ==> r[k].cards[y] == cols[k].cards[y])
            && r[k].cards[j].updatedAt == now
            && r[k].cards[j].(updatedAt := c.updatedAt) == Merge(c, updates).(updatedAt := c.updatedAt)
            && (updates == CardUpdate(None, None, None, None, None, None, None, None, None, None, None) ==>
                  r[k].cards[j] == c.(updatedAt := now)))
  {
  }

  // ---------------------------------------------------------------------
  // deleteCard
  // ---------------------------------------------------------------------

  /** The board's columns after `deleteCard(cardId)`. */
  function CardDeleted(cols: seq<Column>, cardId: string): seq<Column>
  {
    match ColumnWithCard(cols, cardId)
    case None => cols
    case Some(k) =>
      var j := CardIndex(cols[k].cards, cardId).value;
      cols[k := cols[k].(cards := Renumbered(Removed(cols[k].cards, j)))]
  }

  /**
   * The first card with that id leaves the first column holding one, the rest
   * of that column keep their order and are renumbered 0..n-2, and nothing
   * else changes. An unknown id changes nothing.
   */
  lemma CardDeletedSpec(cols: seq<Column>, cardId: string)
    ensures var r := CardDeleted(cols, cardId);
      && |r| == |cols|
      && (ColumnWithCard(cols, cardId).None? ==> r == cols)
      && (ColumnWithCard(cols, cardId).Some? ==>
            var k := ColumnWithCard(cols, cardId).value;
            var j := CardIndex(cols[k].cards, cardId).value;
            && (forall x :: 0 <= x < |r| && x != k ==> r[x] == cols[x])
            && r[k].(cards := cols[k].cards) == cols[k]
            && WithoutOrder(r[k].cards) == WithoutOrder(Removed(cols[k].cards, j))
            && CardIds(r[k].cards) == Removed(CardIds(cols[k].cards), j)
            && Dense(r[k].cards))
  {
    match ColumnWithCard(cols, cardId)
    case None =>
    case Some(k) =>
      var j := CardIndex(cols[k].cards, cardId).value;
      assert CardIds(Removed(cols[k].cards, j)) == Removed(CardIds(cols[k].cards), j);
  }

  /** Deleting a found card removes exactly one occurrence of its id from the board. */
  lemma CardDeletedConserves(cols: seq<Column>, cardId: string)
    ensures ColumnWithCard(cols, cardId).Some? ==>
      AllCardIds(CardDeleted(cols, cardId)) + multiset{cardId} == AllCardIds(cols)
  {
    match ColumnWithCard(cols, cardId)
    case None =>
    case Some(k) =>
      var j := CardIndex(cols[k].cards, cardId).value;
      var cards := Renumbered(Removed(cols[k].cards, j));
      var r := cols[k := cols[k].(cards := cards)];
      assert CardDeleted(cols, cardId) == r;
      CardIdsRemoved(cols[k].cards, j);
      var gone := multiset(CardIds(cols[k].cards));
      var kept := multiset(CardIds(cards));
      assert kept + multiset{cardId} == gone;
      ReplaceCards(cols, k, cards);
      assert AllCardIds(r) + gone == AllCardIds(cols) + kept;
      Cancel(AllCardIds(r) + multiset{cardId}, AllCardIds(cols), kept);
  }

  lemma CardDeletedPreservesWellFormed(cols: seq<Column>, cardId: string)
    requires WellFormed(cols)
    ensures WellFormed(CardDeleted(cols, cardId))
  {
    var r := CardDeleted(cols, cardId);
    match ColumnWithCard(cols, cardId)
    case None =>
    case Some(k) =>
      var j := CardIndex(cols[k].cards, cardId).value;
      assert ColumnWellFormed(cols[k]);
      var rest := Removed(cols[k].cards, j);
      assert forall i :: 0 <= i < |rest| ==> rest[i].columnId == cols[k].id;
      assert ColumnWellFormed(r[k]);
      assert forall x :: 0 <= x < |r| && x != k ==> r[x] == cols[x];
  }

  // ---------------------------------------------------------------------
  // addColumn, updateColumn, deleteColumn
  // ---------------------------------------------------------------------

  /** What the caller supplies to `addColumn`: a column without id, order and cards. */
  datatype ColumnData = ColumnData(title: string, status: ColumnStatus, limit: Option<int>)

  /** The board's columns after `addColumn(data)` with fresh id `id`. */
  function ColumnAdded(cols: seq<Column>, data: ColumnData, id: string): seq<Column>
  {
    cols + [Column(id, data.title, data.status, [], |cols|, data.limit)]
  }

  /** One column is appended, empty, with `order` equal to the old column count; a well-formed board stays well formed. */
  lemma ColumnAddedSpec(cols: seq<Column>, data: ColumnData, id: string)
    ensures var r := ColumnAdded(cols, data, id);
      && |r| == |cols| + 1 && r[..|cols|] == cols
      && r[|cols|].id == id && r[|cols|].cards == [] && r[|cols|].order == |cols|
      && r[|cols|].title == data.title && r[|cols|].status == data.status && r[|cols|].limit == data.limit
      && (WellFormed(cols) ==> WellFormed(r))
  {
    var r := ColumnAdded(cols, data, id);
    if WellFormed(cols) {
      assert forall k :: 0 <= k < |cols| ==> r[k] == cols[k];
    }
  }

  /** A `Partial<KanbanColumn>`: a field is `None` when the update does not mention it. */
  datatype ColumnUpdate = ColumnUpdate(
    id: Option<string>,
    title: Option<string>,
    status: Option<ColumnStatus>,
    cards: Option<seq<Card>>,
    order: Option<int>,
    limit: Option<Option<int>>)

  /** `Object.assign(column, updates)`. */
  function MergeColumn(c: Column, u: ColumnUpdate): Column
  {
    Column(Pick(u.id, c.id), Pick(u.title, c.title), Pick(u.status, c.status), Pick(u.cards, c.cards),
           Pick(u.order, c.order), Pick(u.limit, c.limit))
  }

  /**
   * Every field the update names takes the update's value, an explicit
   * `limit: undefined` included; every field it leaves out keeps the
   * column's value, so an empty update changes nothing.
   */
  lemma MergeColumnSpec(c: Column, u: ColumnUpdate)
    ensures var r := MergeColumn(c, u);
      && (u.id.None? ==> r.id == c.id) && (u.id.Some? ==> r.id == u.id.value)
      && (u.title.None? ==> r.title == c.title) && (u.title.Some? ==> r.title == u.title.value)
      && (u.status.None? ==> r.status == c.status) && (u.status.Some? ==> r.status == u.status.value)
      && (u.cards.None? ==> r.cards == c.cards) && (u.cards.Some? ==> r.cards == u.cards.value)
      && (u.order.None? ==> r.order == c.order) && (u.order.Some? ==> r.order == u.order.value)
      && (u.limit.None? ==> r.limit == c.limit) && (u.limit.Some? ==> r.limit == u.limit.value)
      && (u == ColumnUpdate(None, None, None, None, None, None) ==> r == c)
  {
  }

  /** The board's columns after `updateColumn(columnId, updates)`. */
  function ColumnUpdated(cols: seq<Column>, columnId: string, updates: ColumnUpdate): seq<Column>
  {
    match ColumnIndex(cols, columnId)
    case None => cols
    case Some(k) => cols[k := MergeColumn(cols[k], updates)]
  }

  /** Only the first column with that id takes the update; an unknown id changes nothing. */
  lemma ColumnUpdatedSpec(cols: seq<Column>, columnId: string, updates: ColumnUpdate)
    ensures var r := ColumnUpdated(cols, columnId, updates);
      && |r| == |cols|
      && (ColumnIndex(cols, columnId).None? ==> r == cols)
      && (ColumnIndex(cols, columnId).Some? ==>
            var k := ColumnIndex(cols, columnId).value;
            && (forall j :: 0 <= j < |r| && j != k ==> r[j] == cols[j])
            && r[k] == MergeColumn(cols[k], updates)
            && (forall j :: 0 <= j < k ==> cols[j].id != columnId))
  {
  }

  /** The board's columns after `deleteColumn(columnId)`. */
  function ColumnDeleted(cols: seq<Column>, columnId: string): seq<Column>
  {
    match ColumnIndex(cols, columnId)
    case None => cols
    case Some(k) => RenumberedColumns(Removed(cols, k))
  }

  /**
   * The first column with that id goes, the others keep their order, cards
   * and fields and are renumbered densely; an unknown id changes nothing; a
   * well-formed board stays well formed.
   */
  lemma ColumnDeletedSpec(cols: seq<Column>, columnId: string)
    ensures var r := ColumnDeleted(cols, columnId);
      && (ColumnIndex(cols, columnId).None? ==> r == cols)
      && (ColumnIndex(cols, columnId).Some? ==>
            var k := ColumnIndex(cols, columnId).value;
            && |r| == |cols| - 1
            && ColumnIds(r) == Removed(ColumnIds(cols), k)
            && DenseColumns(r)
            && (forall j :: 0 <= j < |r| ==> r[j].(order := 0) == Removed(cols, k)[j].(order := 0)))
      && (WellFormed(cols) ==> WellFormed(r))
  {
    match ColumnIndex(cols, columnId)
    case None =>
    case Some(k) =>
      var rest := Removed(cols, k);
      assert ColumnIds(rest) == Removed(ColumnIds(cols), k);
      if WellFormed(cols) {
        var r := RenumberedColumns(rest);
        forall j | 0 <= j < |r|
          ensures ColumnWellFormed(r[j])
        {
          RemovedAt(cols, k, j);
          assert ColumnWellFormed(rest[j]);
          assert r[j].cards == rest[j].cards && r[j].id == rest[j].id;
        }
      }
  }

  // ---------------------------------------------------------------------
  // setDragState, resetDragState
  // ---------------------------------------------------------------------

  /** A `Partial<DragState>`: `None` for a field not supplied, `Some(None)` for an explicit `null`. */
  datatype DragPatch = DragPatch(
    isDragging: Option<bool>,
    draggedCardId: Option<Option<string>>,
    sourceColumnId: Option<Option<string>>,
    targetColumnId: Option<Option<string>>,
    targetIndex: Option<Option<int>>)

  /** `Object.assign(dragState, patch)`. */
  function Patched(s: DragState, p: DragPatch): DragState
  {
    DragState(Pick(p.isDragging, s.isDragging), Pick(p.draggedCardId, s.draggedCardId),
              Pick(p.sourceColumnId, s.sourceColumnId), Pick(p.targetColumnId, s.targetColumnId),
              Pick(p.targetIndex, s.targetIndex))
  }

  /** A patch overwrites exactly the supplied fields; supplying nothing changes nothing. */
  lemma PatchedSpec(s: DragState, p: DragPatch)
    ensures var r := Patched(s, p);
      && (p.isDragging.None? ==> r.isDragging == s.isDragging)
      && (p.isDragging.Some? ==> r.isDragging == p.isDragging.value)
      && (p.draggedCardId.None? ==> r.draggedCardId == s.draggedCardId)
      && (p.draggedCardId.Some? ==> r.draggedCardId == p.draggedCardId.value)
      && (p.sourceColumnId.None? ==> r.sourceColumnId == s.sourceColumnId)
      && (p.sourceColumnId.Some? ==> r.sourceColumnId == p.sourceColumnId.value)
      && (p.targetColumnId.None? ==> r.targetColumnId == s.targetColumnId)
      && (p.targetColumnId.Some? ==> r.targetColumnId == p.targetColumnId.value)
      && (p.targetIndex.None? ==> r.targetIndex == s.targetIndex)
      && (p.targetIndex.Some? ==> r.targetIndex == p.targetIndex.value)
      && (p == DragPatch(None, None, None, None, None) ==> r == s)
  {
  }

  // ---------------------------------------------------------------------
  // The store itself.
  // ---------------------------------------------------------------------

  /** The board's columns replaced, or no board at all. */
  function WithColumns(b: Option<Board>, cols: seq<Column>): Option<Board>
  {
    if b.None? then None else Some(b.value.(columns := cols))
  }

  function ColumnsOf(b: Option<Board>): seq<Column>
  {
    if b.None? then [] else b.value.columns
  }

  class KanbanStore {
    var board: Option<Board>
    var dragState: DragState

    constructor ()
      ensures board == None && dragState == InitialDragState
    {
      board := None;
      dragState := InitialDragState;
    }

    method SetBoard(b: Board)
      modifies this
      ensures board == Some(b) && dragState == old(dragState)
    {
      board := Some(b);
    }

    /** `moveCard`: splice the card out of the source, into the target, then renumber both. */
    method MoveCard(cardId: string, sourceColumnId: string, targetColumnId: string, newIndex: int, now: Timestamp)
      modifies this
      ensures dragState == old(dragState)
      ensures board == WithColumns(old(board),
                         Moved(ColumnsOf(old(board)), cardId, sourceColumnId, targetColumnId, newIndex, now))
    {
      if board.None? {
        return;
      }
      var columns := board.value.columns;
      var si := ColumnIndex(columns, sourceColumnId);
      var ti := ColumnIndex(columns, targetColumnId);
      if si.None? || ti.None? {
        return;
      }
      var ci := CardIndex(columns[si.value].cards, cardId);
      if ci.None? {
        return;
      }
      ghost var before := columns;
      var s, t, c := si.value, ti.value, ci.value;
      var card := columns[s].cards[c];
      columns := columns[s := columns[s].(cards := Removed(columns[s].cards, c))];
      card := card.(columnId := targetColumnId, updatedAt := now);
      columns := columns[t := columns[t].(cards := Inserted(columns[t].cards, newIndex, card))];
      var renumbered := RenumberCards(columns[s].cards);
      columns := columns[s := columns[s].(cards := renumbered)];
      renumbered := RenumberCards(columns[t].cards);
      columns := columns[t := columns[t].(cards := renumbered)];
      if s == t {
        RenumberedTwice(Inserted(Removed(before[s].cards, c), newIndex, card));
      }
      assert columns == Moved(before, cardId, sourceColumnId, targetColumnId, newIndex, now);
      board := Some(board.value.(columns := columns));
    }

    /** `addCard`: push a new card onto the first column with that id. */
    method AddCard(columnId: string, data: CardData, id: string, now: Timestamp)
      modifies this
      ensures dragState == old(dragState)
      ensures board == WithColumns(old(board), CardAdded(ColumnsOf(old(board)), columnId, data, id, now))
    {
      if board.None? {
        return;
      }
      var columns := board.value.columns;
      var k := ColumnIndex(columns, columnId);
      if k.None? {
        return;
      }
      var newCard := NewCard(data, id, columnId, |columns[k.value].cards|, now);
      columns := columns[k.value := columns[k.value].(cards := columns[k.value].cards + [newCard])];
      board := Some(board.value.(columns := columns));
    }

    /** `updateCard`: scan the columns, merge into the first match and stop. */
    method UpdateCard(cardId: string, updates: CardUpdate, now: Timestamp)
      modifies this
      ensures dragState == old(dragState)
      ensures board == WithColumns(old(board), CardUpdated(ColumnsOf(old(board)), cardId, updates, now))
    {
      if board.None? {
        return;
      }
      var columns := board.value.columns;
      var k := 0;
      while k < |columns|
        invariant 0 <= k <= |columns|
        invariant columns == board.value.columns
        invariant forall x :: 0 <= x < k ==> CardIndex(columns[x].cards, cardId).None?
      {
        var j := CardIndex(columns[k].cards, cardId);
        if j.Some? {
          var cards := columns[k].cards;
          cards := cards[j.value := Merge(cards[j.value], updates).(updatedAt := now)];
          columns := columns[k := columns[k].(cards := cards)];
          board := Some(board.value.(columns := columns));
          return;
        }
        k := k + 1;
      }
    }

    /** `deleteCard`: scan the columns, splice the first match out, renumber that column and stop. */
    method DeleteCard(cardId: string)
      modifies this
      ensures dragState == old(dragState)
      ensures board == WithColumns(old(board), CardDeleted(ColumnsOf(old(board)), cardId))
    {
      if board.None? {
        return;
      }
      var columns := board.value.columns;
      var k := 0;
      while k < |columns|
        invariant 0 <= k <= |columns|
        invariant columns == board.value.columns
        invariant forall x :: 0 <= x < k ==> CardIndex(columns[x].cards, cardId).None?
      {
        var j := CardIndex(columns[k].cards, cardId);
        if j.Some? {
          var renumbered := RenumberCards(Removed(columns[k].cards, j.value));
          columns := columns[k := columns[k].(cards := renumbered)];
          board := Some(board.value.(columns := columns));
          return;
        }
        k := k + 1;
      }
    }

    /** `addColumn`: push an empty column numbered after the existing ones. */
    method AddColumn(data: ColumnData, id: string)
      modifies this
      ensures dragState == old(dragState)
      ensures board == WithColumns(old(board), ColumnAdded(ColumnsOf(old(board)), data, id))
    {
      if board.None? {
        return;
      }
      var columns := board.value.columns;
      var newColumn := Column(id, data.title, data.status, [], |columns|, data.limit);
      board := Some(board.value.(columns := columns + [newColumn]));
    }

    /** `updateColumn`: merge into the first column with that id. */
    method UpdateColumn(columnId: string, updates: ColumnUpdate)
      modifies this
      ensures dragState == old(dragState)
      ensures board == WithColumns(old(board), ColumnUpdated(ColumnsOf(old(board)), columnId, updates))
    {
      if board.None? {
        return;
      }
      var columns := board.value.columns;
      var k := ColumnIndex(columns, columnId);
      if k.Some? {
        columns := columns[k.value := MergeColumn(columns[k.value], updates)];
        board := Some(board.value.(columns := columns));
      }
    }

    /** `deleteColumn`: splice the first column with that id out and renumber the rest. */
    method DeleteColumn(columnId: string)
      modifies this
      ensures dragState == old(dragState)
      ensures board == WithColumns(old(board), ColumnDeleted(ColumnsOf(old(board)), columnId))
    {
      if board.None? {
        return;
      }
      var columns := board.value.columns;
      var k := ColumnIndex(columns, columnId);
      if k.Some? {
        columns := Removed(columns, k.value);
        columns := RenumberColumns(columns);
        board := Some(board.value.(columns := columns));
      }
    }

    /** `setDragState`: merge the supplied fields into the drag state. */
    method SetDragState(patch: DragPatch)
      modifies this
      ensures board == old(board)
      ensures dragState == Patched(old(dragState), patch)
    {
      dragState := Patched(dragState, patch);
    }

    /** `resetDragState`: back to no drag at all. */
    method ResetDragState()
      modifies this
      ensures board == old(board)
      ensures dragState == InitialDragState
      ensures !dragState.isDragging && dragState.draggedCardId.None? && dragState.sourceColumnId.None?
      ensures dragState.targetColumnId.None? && dragState.targetIndex.None?
    {
      dragState := InitialDragState;
    }
  }
}
