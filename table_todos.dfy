/**
 * The table's column definitions and initial view state
 * (src/components/TableTodos.tsx): which actions a row's menu offers and
 * what each emits, the status badge, the date cells, the direction the
 * Name header asks for, the column list, and the four state slots the
 * table starts from. Filtering, sorting and paging the rows is done by
 * the table library and is not modelled here.
 */
module TableTodos {
  import opened Wrappers
  import opened Query
  import opened Utils

  // ---------------------------------------------------------------------
  // Row action menu
  // ---------------------------------------------------------------------

  /** A menu entry: its caption, its test id, and the `{id, type}` its click hands to `handleUpdate`. */
  datatype MenuItem = MenuItem(caption: string, testId: string, emits: DataUpdate)

  function UpdateItem(todo: Todo): (item: MenuItem)
    ensures item.caption == "Update Todo Status" && item.emits == DataUpdate(todo.id, Update)
    ensures |item.testId| == 14 + |todo.id| && item.testId[..14] == "action-update-" && item.testId[14..] == todo.id
  {
    MenuItem("Update Todo Status", "action-update-" + todo.id, DataUpdate(todo.id, Update))
  }

  function DeleteItem(todo: Todo): (item: MenuItem)
    ensures item.caption == "Delete Todo" && item.emits == DataUpdate(todo.id, Delete)
    ensures |item.testId| == 14 + |todo.id| && item.testId[..14] == "action-delete-" && item.testId[14..] == todo.id
  {
    MenuItem("Delete Todo", "action-delete-" + todo.id, DataUpdate(todo.id, Delete))
  }

  /** The actions offered for one row: the update entry only while the item is not complete. */
  function RowMenu(todo: Todo): (items: seq<MenuItem>)
    ensures |items| == if todo.isComplete then 1 else 2
    ensures forall i :: 0 <= i < |items| ==> items[i].emits.id == todo.id
    ensures !todo.isComplete ==> items[0] == UpdateItem(todo) && items[0].emits.kind == Update
    ensures todo.isComplete ==> forall i :: 0 <= i < |items| ==> items[i].emits.kind != Update
    ensures forall i :: 0 <= i < |items| ==>
      (items[i].caption == "Update Todo Status" <==> items[i].emits.kind == Update)
    ensures items[|items| - 1] == DeleteItem(todo) && items[|items| - 1].emits.kind == Delete
  {
    if !todo.isComplete then [UpdateItem(todo), DeleteItem(todo)] else [DeleteItem(todo)]
  }

  /** Menu entries of different rows emit different targets when the ids differ. */
  lemma MenuTargetsOwnRow(a: Todo, b: Todo, i: nat, j: nat)
    requires i < |RowMenu(a)| && j < |RowMenu(b)|
    requires a.id != b.id
    ensures RowMenu(a)[i].emits != RowMenu(b)[j].emits
    ensures RowMenu(a)[i].testId != RowMenu(b)[j].testId
  {
    var pa := if RowMenu(a)[i].emits.kind == Update then "action-update-" else "action-delete-";
    var pb := if RowMenu(b)[j].emits.kind == Update then "action-update-" else "action-delete-";
    assert RowMenu(a)[i].testId == pa + a.id;
    assert RowMenu(b)[j].testId == pb + b.id;
    assert (pa + a.id)[14..] == a.id && (pb + b.id)[14..] == b.id;
  }

  // ---------------------------------------------------------------------
  // Cells
  // ---------------------------------------------------------------------

  /** The status badge of a row: its text and its colour class. */
  datatype StatusBadge = StatusBadge(caption: string, className: string)

  function Status(isComplete: bool): (badge: StatusBadge)
    ensures badge.caption == "Finish" <==> isComplete
    ensures badge.caption == "Unfinish" <==> !isComplete
    ensures badge.className == (if isComplete then "bg-green-400" else "bg-blue-400")
  {
    if isComplete then StatusBadge("Finish", "bg-green-400") else StatusBadge("Unfinish", "bg-blue-400")
  }

  const CreatedDateFormat: string := "dd MMMM yyyy"
  const UpdatedDateFormat: string := "dddd, dd MMMM YYYY"

  /**
   * A date cell: empty when the value is absent or the empty string,
   * otherwise the value formatted by the date library, which is given as
   * `toFormat(isoValue, pattern)`.
   */
  function DateCell(value: Option<string>, pattern: string, toFormat: (string, string) -> string): (cell: string)
    ensures (value == None || value == Some("")) ==> cell == ""
    ensures value.Some? && value.value != "" ==> cell == toFormat(value.value, pattern)
  {
    match value
    case None => ""
    case Some(v) => if v == "" then "" else toFormat(v, pattern)
  }

  function CreatedDateCell(todo: Todo, toFormat: (string, string) -> string): (cell: string)
    ensures (todo.createdAt == None || todo.createdAt == Some("")) ==> cell == ""
    ensures todo.createdAt.Some? && todo.createdAt.value != "" ==> cell == toFormat(todo.createdAt.value, "dd MMMM yyyy")
  {
    DateCell(todo.createdAt, CreatedDateFormat, toFormat)
  }

  function UpdatedDateCell(todo: Todo, toFormat: (string, string) -> string): (cell: string)
    ensures (todo.updateAt == None || todo.updateAt == Some("")) ==> cell == ""
    ensures todo.updateAt.Some? && todo.updateAt.value != "" ==> cell == toFormat(todo.updateAt.value, "dddd, dd MMMM YYYY")
  {
    DateCell(todo.updateAt, UpdatedDateFormat, toFormat)
  }

  // ---------------------------------------------------------------------
  // Name header and sorting
  // ---------------------------------------------------------------------

  /** What `column.getIsSorted()` reports: not sorted, "asc" or "desc". */
  datatype SortState = NotSorted | Asc | Desc

  /** The argument the Name header passes to `toggleSorting`: descending exactly when now ascending. */
  function ToggleSortingArg(current: SortState): (desc: bool)
    ensures desc <==> current == Asc
    ensures current == NotSorted ==> !desc
  {
    current == Asc
  }

  /**
   * The sort state an explicit direction asks for: `toggleSorting(desc)`
   * with a boolean requests descending for true and ascending for false;
   * it never asks for the sort to be removed.
   */
  function Requested(desc: bool): SortState
  {
    if desc then Desc else Asc
  }

  /** One click on the Name header. */
  function HeaderClick(current: SortState): (next: SortState)
    ensures next != NotSorted
    ensures next == Desc <==> current == Asc
  {
    Requested(ToggleSortingArg(current))
  }

  function AfterHeaderClicks(current: SortState, n: nat): SortState
    decreases n
  {
    if n == 0 then current else AfterHeaderClicks(HeaderClick(current), n - 1)
  }

  /**
   * Repeated clicks alternate between ascending and descending and never
   * return to the unsorted fetch order.
   */
  lemma {:induction false} HeaderNeverUnsorts(current: SortState, n: nat)
    requires n >= 1
    ensures AfterHeaderClicks(current, n) != NotSorted
    ensures current != Asc ==> AfterHeaderClicks(current, n) == (if n % 2 == 1 then Asc else Desc)
    ensures current == Asc ==> AfterHeaderClicks(current, n) == (if n % 2 == 1 then Desc else Asc)
    decreases n
  {
    if n > 1 {
      HeaderNeverUnsorts(HeaderClick(current), n - 1);
    }
  }

  // ---------------------------------------------------------------------
  // Columns
  // ---------------------------------------------------------------------

  /** A column: its id, its header text, and whether the columns menu may hide it. */
  datatype Column = Column(id: string, header: string, enableHiding: bool)

  /** `columnsTodo`: the five columns in display order; only "actions" cannot be hidden. */
  function ColumnsTodo(): (cols: seq<Column>)
    ensures |cols| == 5
    ensures cols[0].id == "todoName" && cols[1].id == "isComplete" && cols[2].id == "createdAt"
    ensures cols[3].id == "updateAt" && cols[4].id == "actions"
    ensures forall i :: 0 <= i < |cols| ==> (!cols[i].enableHiding <==> cols[i].id == "actions")
  {
    [ Column("todoName", "Name", true),
      Column("isComplete", "Status", true),
      Column("createdAt", "Created Date", true),
      Column("updateAt", "Updated Date", true),
      Column("actions", "", false) ]
  }

  /** The columns for which `getCanHide()` holds, in order. */
  function Hideable(cols: seq<Column>): (hs: seq<Column>)
    ensures |hs| <= |cols|
    ensures forall c :: c in hs <==> c in cols && c.enableHiding
    ensures |cols| == 1 ==> hs == (if cols[0].enableHiding then cols else [])
  {
    if cols == [] then []
    else (if cols[0].enableHiding then [cols[0]] else []) + Hideable(cols[1..])
  }

  /** The filter keeps order and multiplicity: filtering a concatenation concatenates the filtered parts. */
  lemma {:induction false} HideableAppend(xs: seq<Column>, ys: seq<Column>)
    ensures Hideable(xs + ys) == Hideable(xs) + Hideable(ys)
    decreases |xs|
  {
    if xs == [] {
      assert xs + ys == ys;
    } else {
      assert (xs + ys)[0] == xs[0];
      assert (xs + ys)[1..] == xs[1..] + ys;
      HideableAppend(xs[1..], ys);
    }
  }

  lemma HideableColumns()
    ensures Hideable(ColumnsTodo()) == ColumnsTodo()[..4]
  {
    var cols := ColumnsTodo();
    assert cols[4..][1..] == [];
    assert Hideable(cols[4..]) == [];
    assert Hideable(cols[3..]) == [cols[3]];
    assert Hideable(cols[2..]) == [cols[2], cols[3]];
    assert Hideable(cols[1..]) == [cols[1], cols[2], cols[3]];
  }

  // ---------------------------------------------------------------------
  // View state
  // ---------------------------------------------------------------------

  datatype SortEntry = SortEntry(id: string, desc: bool)
  datatype ColumnFilter = ColumnFilter(id: string, value: string)
  datatype Pagination = Pagination(pageIndex: nat, pageSize: nat)

  /**
   * The four `useState` slots of `DataTableTodos`. The table library
   * receives the setters and decides when to call them.
   */
  class TableState {
    var sorting: seq<SortEntry>
    var columnFilters: seq<ColumnFilter>
    var pagination: Pagination
    var columnVisibility: map<string, bool>

    /** The state the table starts from: unsorted, unfiltered, first page of five, no visibility overrides. */
    constructor ()
      ensures sorting == [] && columnFilters == []
      ensures pagination == Pagination(0, 5)
      ensures columnVisibility == map[]
    {
      sorting := [];
      columnFilters := [];
      pagination := Pagination(0, 5);
      columnVisibility := map[];
    }

    method SetSorting(s: seq<SortEntry>)
      modifies this
      ensures sorting == s
      ensures columnFilters == old(columnFilters) && pagination == old(pagination)
      ensures columnVisibility == old(columnVisibility)
    {
      sorting := s;
    }

    method SetColumnFilters(f: seq<ColumnFilter>)
      modifies this
      ensures columnFilters == f
      ensures sorting == old(sorting) && pagination == old(pagination)
      ensures columnVisibility == old(columnVisibility)
    {
      columnFilters := f;
    }

    method SetPagination(p: Pagination)
      modifies this
      ensures pagination == p
      ensures sorting == old(sorting) && columnFilters == old(columnFilters)
      ensures columnVisibility == old(columnVisibility)
    {
      pagination := p;
    }

    method SetColumnVisibility(v: map<string, bool>)
      modifies this
      ensures columnVisibility == v
      ensures sorting == old(sorting) && columnFilters == old(columnFilters)
      ensures pagination == old(pagination)
    {
      columnVisibility := v;
    }
  }
}
