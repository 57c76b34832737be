/**
 * The Kanban board (`KanbanView`): five status columns over the loaded ideas, and the
 * drag-and-drop move that changes an idea's status optimistically and puts it back when
 * the status update throws.
 */
module Kanban {
  import opened Options
  import opened Cards

  /** The column ids, left to right; a column shows the ideas whose status equals its id. */
  const Columns: seq<string> := ["EM_ELABORACAO", "EM_TRIAGEM", "EM_AVALIACAO", "APROVADA", "REJEITADA"]

  /** The alert shown when the status update throws. */
  const MoveFailedAlert := "Erro ao mover ideia. Tente novamente."

  /** `ideas.filter(i => i.status === col)`: the cards of one column. */
  function Column(s: seq<Card>, col: string): (r: seq<Card>)
    ensures forall x :: x in r <==> x in s && x.status == col
  {
    Filter(s, (x: Card) => x.status == col)
  }

  /** The cards whose status is none of `cols`: they are drawn in no column. */
  function Outside(s: seq<Card>, cols: seq<string>): (r: seq<Card>)
    ensures forall x :: x in r <==> x in s && x.status !in cols
  {
    Filter(s, (x: Card) => x.status !in cols)
  }

  /** The sum of the column badges over `cols`. */
  function ColumnTotal(s: seq<Card>, cols: seq<string>): nat {
    if cols == [] then 0 else |Column(s, cols[0])| + ColumnTotal(s, cols[1..])
  }

  predicate Distinct(cols: seq<string>) {
    forall i, j :: 0 <= i < j < |cols| ==> cols[i] != cols[j]
  }

  lemma ColumnsAreDistinct()
    ensures Distinct(Columns)
  {
  }

  /** A column keeps the board's order. */
  lemma ColumnKeepsOrder(s: seq<Card>, col: string)
    ensures IsSubsequence(Column(s, col), s)
  {
    FilterIsSubsequence(s, (x: Card) => x.status == col);
  }

  /**
   * Taking column `c` away from the cards outside `rest` leaves the cards outside `[c] + rest`:
   * when `c` is not in `rest`, every card lands in exactly one of the two.
   */
  lemma {:induction false} ColumnSplit(s: seq<Card>, c: string, rest: seq<string>)
    requires c !in rest
    ensures |Outside(s, rest)| == |Column(s, c)| + |Outside(s, [c] + rest)|
  {
    if s != [] {
      ColumnSplit(s[1..], c, rest);
    }
  }

  /** Over distinct column ids, the badges and the undrawn cards add up to the whole list. */
  lemma {:induction false} Partition(s: seq<Card>, cols: seq<string>)
    requires Distinct(cols)
    ensures ColumnTotal(s, cols) + |Outside(s, cols)| == |s|
  {
    if cols == [] {
      FilterAll(s, (x: Card) => x.status !in cols);
    } else {
      var rest := cols[1..];
      assert cols == [cols[0]] + rest;
      assert cols[0] !in rest by {
        forall j | 0 <= j < |rest| ensures rest[j] != cols[0] {
          assert rest[j] == cols[j + 1];
        }
      }
      Partition(s, rest);
      ColumnSplit(s, cols[0], rest);
    }
  }

  /** Every loaded idea is counted once: in the badge of its column, or nowhere when its status is unknown. */
  lemma ColumnsPartition(s: seq<Card>)
    ensures ColumnTotal(s, Columns) + |Outside(s, Columns)| == |s|
  {
    ColumnsAreDistinct();
    Partition(s, Columns);
  }

  /** After a move, the moved card shows in the target column and no longer in its old one. */
  lemma MoveChangesColumn(s: seq<Card>, id: int, oldStatus: string, newStatus: string, x: Card)
    requires x in s && x.id == id && oldStatus != newStatus
    ensures x.(status := newStatus) in Column(WithStatus(s, id, newStatus), newStatus)
    ensures forall y :: y in Column(WithStatus(s, id, newStatus), oldStatus) ==> y.id != id
  {
    var k :| 0 <= k < |s| && s[k] == x;
    var moved := WithStatus(s, id, newStatus);
    assert moved[k] == x.(status := newStatus);
  }

  /** Reverting with the old status gives back the list as it was before the optimistic move. */
  lemma RevertRestores(s: seq<Card>, id: int, oldStatus: string, newStatus: string)
    requires forall k :: 0 <= k < |s| && s[k].id == id ==> s[k].status == oldStatus
    ensures WithStatus(WithStatus(s, id, newStatus), id, oldStatus) == s
  {
    var r := WithStatus(WithStatus(s, id, newStatus), id, oldStatus);
    assert forall k :: 0 <= k < |s| ==> r[k] == s[k];
  }

  /** The board's state: `ideas` and `draggedIdea`. */
  class Board {
    var ideas: seq<Card>
    var dragged: Option<Card>

    /** `useState([])` and `useState(null)`. */
    constructor ()
      ensures ideas == [] && dragged == None
    {
      ideas := [];
      dragged := None;
    }

    /** `load`: the list is replaced only by a successful answer. */
    method Load(r: IdeasResponse)
      modifies this`ideas
      ensures r.IdeasOk? ==> ideas == r.ideas
      ensures r.IdeasFailed? ==> ideas == old(ideas)
    {
      if r.IdeasOk? {
        ideas := r.ideas;
      }
    }

    /** `handleDragStart`: remembers the card being dragged. */
    method HandleDragStart(idea: Card)
      modifies this`dragged
      ensures dragged == Some(idea)
    {
      dragged := Some(idea);
    }

    /**
     * `handleDrop`. `updateThrows` is whether `api.updateStatus` rejected; `alert` is the
     * message passed to `alert`, if one is shown.
     */
    method HandleDrop(newStatus: string, updateThrows: bool) returns (alert: Option<string>)
      modifies this`ideas, this`dragged
      ensures old(dragged).None? || old(dragged).value.status == newStatus ==>
        ideas == old(ideas) && dragged == old(dragged) && alert == None
      ensures old(dragged).Some? && old(dragged).value.status != newStatus ==>
        dragged == None && alert == (if updateThrows then Some(MoveFailedAlert) else None)
      ensures old(dragged).Some? && old(dragged).value.status != newStatus && !updateThrows ==>
        ideas == WithStatus(old(ideas), old(dragged).value.id, newStatus)
      ensures old(dragged).Some? && old(dragged).value.status != newStatus && updateThrows ==>
        ideas == WithStatus(WithStatus(old(ideas), old(dragged).value.id, newStatus),
                            old(dragged).value.id, old(dragged).value.status)
    {
      alert := None;
      if dragged.None? || dragged.value.status == newStatus {
        return;
      }
      var card := dragged.value;
      var oldStatus := card.status;
      ideas := WithStatus(ideas, card.id, newStatus);
      if updateThrows {
        ideas := WithStatus(ideas, card.id, oldStatus);
        alert := Some(MoveFailedAlert);
      }
      dragged := None;
    }
  }

  /**
   * A failed drop of a card whose list entries all still carry its dragged status leaves
   * the board's list exactly as it was, and clears the drag.
   */
  method FailedDropIsUndone(b: Board, newStatus: string) returns (alert: Option<string>)
    requires b.dragged.Some? && b.dragged.value.status != newStatus
    requires forall k :: 0 <= k < |b.ideas| && b.ideas[k].id == b.dragged.value.id ==>
      b.ideas[k].status == b.dragged.value.status
    modifies b
    ensures alert == Some(MoveFailedAlert) && b.ideas == old(b.ideas) && b.dragged == None
  {
    var card := b.dragged.value;
    RevertRestores(b.ideas, card.id, card.status, newStatus);
    alert := b.HandleDrop(newStatus, true);
  }
}
