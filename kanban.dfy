/** The lifecycle board: four status columns, a drag that moves a card to
    another column by editing its status, and column-by-column scrolling
    on narrow screens. */
module Kanban {
  import opened Seqs
  import opened Types
  import opened TableView

  const Backlog: string := "backlog"
  const InProgress: string := "in-progress"
  const Completed: string := "completed"
  const Archived: string := "archived"

  /** The number of columns, and so of scroll positions. */
  const ColumnsCount: int := 4

  predicate OnBoard(status: string)
  {
    status == Backlog || status == InProgress || status == Completed || status == Archived
  }

  /** The cards of one column. */
  function Column(ucs: seq<UseCase>, status: string): seq<UseCase>
  {
    Filter(ucs, (uc: UseCase) => uc.status == status)
  }

  function OnBoardCases(ucs: seq<UseCase>): seq<UseCase>
  {
    Filter(ucs, (uc: UseCase) => OnBoard(uc.status))
  }

  /** The four columns share out exactly the use cases whose status is
      one of the four, each use case as often as it occurs. */
  lemma ColumnsPartition(ucs: seq<UseCase>)
    ensures multiset(Column(ucs, Backlog)) + multiset(Column(ucs, InProgress))
            + multiset(Column(ucs, Completed)) + multiset(Column(ucs, Archived))
            == multiset(OnBoardCases(ucs))
  {
    ColumnsShare(ucs, Backlog, InProgress, Completed, Archived);
  }

  /** The same for any four distinct statuses that make up the board. */
  lemma {:induction false} ColumnsShare(ucs: seq<UseCase>, a: string, b: string, c: string, d: string)
    requires a != b && a != c && a != d && b != c && b != d && c != d
    requires forall s :: OnBoard(s) <==> s == a || s == b || s == c || s == d
    ensures multiset(Column(ucs, a)) + multiset(Column(ucs, b)) + multiset(Column(ucs, c)) + multiset(Column(ucs, d))
            == multiset(OnBoardCases(ucs))
    decreases |ucs|
  {
    if ucs != [] {
      ColumnsShare(ucs[1..], a, b, c, d);
      ColumnsStep(ucs, a, b, c, d);
    }
  }

  /** One use case more: it lands in the column of its status, if any. */
  lemma ColumnsStep(ucs: seq<UseCase>, a: string, b: string, c: string, d: string)
    requires ucs != []
    requires a != b && a != c && a != d && b != c && b != d && c != d
    requires forall s :: OnBoard(s) <==> s == a || s == b || s == c || s == d
    requires multiset(Column(ucs[1..], a)) + multiset(Column(ucs[1..], b)) + multiset(Column(ucs[1..], c))
             + multiset(Column(ucs[1..], d)) == multiset(OnBoardCases(ucs[1..]))
    ensures multiset(Column(ucs, a)) + multiset(Column(ucs, b)) + multiset(Column(ucs, c)) + multiset(Column(ucs, d))
            == multiset(OnBoardCases(ucs))
  {
    var u := ucs[0];
    ColumnCons(ucs, a);
    ColumnCons(ucs, b);
    ColumnCons(ucs, c);
    ColumnCons(ucs, d);
    OnBoardCons(ucs);
    StatusShare(u, a, b, c, d);
    var one := multiset{u};
    var none: multiset<UseCase> := multiset{};
    var x := if OnBoard(u.status) then one else none;
    var xa, xb, xc, xd := (if u.status == a then one else none), (if u.status == b then one else none),
                          (if u.status == c then one else none), (if u.status == d then one else none);
    SumOfFour(x, xa, xb, xc, xd, multiset(Column(ucs[1..], a)), multiset(Column(ucs[1..], b)),
              multiset(Column(ucs[1..], c)), multiset(Column(ucs[1..], d)), multiset(OnBoardCases(ucs[1..])));
  }

  /** A use case's status picks at most one of the columns, and one
      exactly when it is on the board. */
  lemma StatusShare(u: UseCase, a: string, b: string, c: string, d: string)
    requires a != b && a != c && a != d && b != c && b != d && c != d
    requires forall s :: OnBoard(s) <==> s == a || s == b || s == c || s == d
    ensures var one, none := multiset{u}, multiset{};
            (if u.status == a then one else none) + (if u.status == b then one else none)
            + (if u.status == c then one else none) + (if u.status == d then one else none)
            == (if OnBoard(u.status) then one else none)
  {
    var one := multiset{u};
    var none: multiset<UseCase> := multiset{};
    var x := if OnBoard(u.status) then one else none;
    var xa, xb, xc, xd := (if u.status == a then one else none), (if u.status == b then one else none),
                          (if u.status == c then one else none), (if u.status == d then one else none);
    if u.status == a {
      assert xa == x == one && xb == xc == xd == none;
    } else if u.status == b {
      assert xb == x == one && xa == xc == xd == none;
    } else if u.status == c {
      assert xc == x == one && xa == xb == xd == none;
    } else if u.status == d {
      assert xd == x == one && xa == xb == xc == none;
    } else {
      assert x == xa == xb == xc == xd == none;
    }
  }

  lemma SumOfFour<T>(x: multiset<T>, xa: multiset<T>, xb: multiset<T>, xc: multiset<T>, xd: multiset<T>,
                     ma: multiset<T>, mb: multiset<T>, mc: multiset<T>, md: multiset<T>, m: multiset<T>)
    requires xa + xb + xc + xd == x
    requires ma + mb + mc + md == m
    ensures (xa + ma) + (xb + mb) + (xc + mc) + (xd + md) == x + m
  {
  }

  lemma OnBoardCons(ucs: seq<UseCase>)
    requires ucs != []
    ensures multiset(OnBoardCases(ucs))
            == (if OnBoard(ucs[0].status) then multiset{ucs[0]} else multiset{}) + multiset(OnBoardCases(ucs[1..]))
  {
    assert OnBoardCases(ucs) == (if OnBoard(ucs[0].status) then [ucs[0]] else []) + OnBoardCases(ucs[1..]);
  }

  lemma ColumnCons(ucs: seq<UseCase>, status: string)
    requires ucs != []
    ensures multiset(Column(ucs, status))
            == (if ucs[0].status == status then multiset{ucs[0]} else multiset{}) + multiset(Column(ucs[1..], status))
  {
    assert Column(ucs, status) == (if ucs[0].status == status then [ucs[0]] else []) + Column(ucs[1..], status);
  }

  /** Each column keeps the input order. */
  lemma ColumnsKeepOrder(ucs: seq<UseCase>, status: string)
    ensures IsSubsequence(Column(ucs, status), ucs)
    ensures forall uc :: uc in Column(ucs, status) <==> uc in ucs && uc.status == status
  {
    FilterIsSubsequence(ucs, (uc: UseCase) => uc.status == status);
  }

  /** Where a card sits: a column id and an index in it. */
  datatype Location = Location(droppableId: string, index: int)

  /** What the drag library reports at the end of a drag; no destination
      when the card was dropped outside every column. */
  datatype DragResult = DragResult(draggableId: string, source: Location, destination: Option<Location>)

  /** `handleDragEnd` on data: the edit it asks the owner for, if any. */
  function DropEdit(r: DragResult): Option<Edit>
  {
    if r.destination.None? then None
    else if r.destination.value.droppableId == r.source.droppableId && r.destination.value.index == r.source.index then None
    else Some(Edit(r.draggableId, StatusEdit(r.destination.value.droppableId)))
  }

  /** No edit exactly when the card was dropped outside or where it was;
      otherwise the edit targets the dragged card and sets its status to
      the destination column and nothing else. */
  lemma DropEditSpec(r: DragResult, uc: UseCase)
    ensures DropEdit(r).None? <==> r.destination.None? || r.destination.value == r.source
    ensures DropEdit(r).Some? ==>
              && DropEdit(r).value.id == r.draggableId
              && ApplyPatch(uc, DropEdit(r).value.patch) == uc.(status := r.destination.value.droppableId)
  {
    if DropEdit(r).Some? {
      StatusEditSpec(uc, r.destination.value.droppableId);
    }
  }

  /** A move within one column still emits an edit, and that edit leaves
      a card of that column as it was: the new position is not kept. */
  lemma ReorderWithinColumnChangesNothing(r: DragResult, uc: UseCase)
    requires r.destination.Some? && r.destination.value.droppableId == r.source.droppableId
    requires r.destination.value.index != r.source.index
    requires uc.status == r.source.droppableId
    ensures DropEdit(r).Some? && ApplyPatch(uc, DropEdit(r).value.patch) == uc
  {
    DropEditSpec(r, uc);
  }

  datatype ScrollDirection = Left | Right

  /** The column scrolled to: one step, kept within the columns. */
  function NextScroll(position: int, d: ScrollDirection): int
  {
    if d == Left then (if position - 1 > 0 then position - 1 else 0)
    else (if position + 1 < ColumnsCount - 1 then position + 1 else ColumnsCount - 1)
  }

  /** From any column the next one is a column too, one step away unless
      already at that edge. */
  lemma NextScrollSpec(position: int, d: ScrollDirection)
    requires 0 <= position < ColumnsCount
    ensures 0 <= NextScroll(position, d) < ColumnsCount
    ensures d == Left ==> NextScroll(position, d) == (if position == 0 then 0 else position - 1)
    ensures d == Right ==> NextScroll(position, d) == (if position == ColumnsCount - 1 then position else position + 1)
  {
  }

  class Board {
    var scrollPosition: int
    var edits: seq<Edit>

    ghost predicate Valid()
      reads this
    {
      0 <= scrollPosition < ColumnsCount
    }

    constructor()
      ensures Valid() && scrollPosition == 0 && edits == []
    {
      scrollPosition := 0;
      edits := [];
    }

    /** `handleScroll`: without the container on the page nothing happens. */
    method HandleScroll(d: ScrollDirection, containerPresent: bool)
      requires Valid()
      modifies this
      ensures Valid()
      ensures scrollPosition == (if containerPresent then NextScroll(old(scrollPosition), d) else old(scrollPosition))
      ensures edits == old(edits)
    {
      if !containerPresent {
        return;
      }
      var newPosition;
      if d == Left {
        newPosition := if scrollPosition - 1 > 0 then scrollPosition - 1 else 0;
      } else {
        newPosition := if scrollPosition + 1 < ColumnsCount - 1 then scrollPosition + 1 else ColumnsCount - 1;
      }
      scrollPosition := newPosition;
    }

    method HandleDragEnd(r: DragResult)
      modifies this
      ensures DropEdit(r).None? ==> edits == old(edits)
      ensures DropEdit(r).Some? ==> edits == old(edits) + [DropEdit(r).value]
      ensures scrollPosition == old(scrollPosition)
    {
      if r.destination.None? {
        return;
      }
      var destination := r.destination.value;
      if destination.droppableId == r.source.droppableId && destination.index == r.source.index {
        return;
      }
      edits := edits + [Edit(r.draggableId, NoChange.(status := Some(destination.droppableId)))];
    }
  }
}
