/**
 * The six records the page's tests feed to the list query
 * (src/__tests__/App.test.tsx), used as a concrete list for the chart,
 * the row menus and the date cells. The records carry `updatedAt`, so
 * the table's `updateAt` field is absent in each of them.
 */
module AppTestFixtures {
  import opened Wrappers
  import opened Query
  import TableTodos
  import ChartCompletedTodo

  function MockTodos(): (todos: seq<Todo>)
    ensures |todos| == 6
  {
    [ Todo("66055a43aadfae71c5a51b2e", "asdfasdf as", false, Some("2024-03-28T11:52:34.874Z"), None),
      Todo("6605c2aca5a2d9078b9e736b", "Learn Redux", true, Some("2024-03-28T19:10:36.241Z"), None),
      Todo("6605c43aa5a2d9078b9e7377", "Learn Tailwind", true, Some("2024-03-28T19:10:36.241Z"), None),
      Todo("6605fd7c49f8dadc4df4e908", "Learn Flutter", false, Some("2024-03-28T23:26:49.223Z"), None),
      Todo("660658146195f92e3066ba3a", "test 1", false, Some("2024-03-29T05:43:52.200Z"), None),
      Todo("66065820439c0b12fdbf8611", "test 2", false, Some("2024-03-29T05:56:45.961Z"), None) ]
  }

  /** Two of the six are finished: the chart shows [2, 4]. */
  lemma MockChart()
    ensures ChartCompletedTodo.Data(MockTodos()).data == [2, 4]
  {
    var t := MockTodos();
    assert t[5..][1..] == [];
    assert ChartCompletedTodo.Completed(t[5..]) == [];
    assert ChartCompletedTodo.Completed(t[4..]) == [];
    assert ChartCompletedTodo.Completed(t[3..]) == [];
    assert ChartCompletedTodo.Completed(t[2..]) == [t[2]];
    assert ChartCompletedTodo.Completed(t[1..]) == [t[1], t[2]];
    assert |ChartCompletedTodo.Completed(t)| == 2;
    var d := ChartCompletedTodo.Data(t);
    assert d.data[0] == 2 && d.data[1] == 4;
  }

  /** The finished rows offer only "Delete Todo"; the others offer both actions. */
  lemma MockMenus()
    ensures forall i :: 0 <= i < 6 ==>
      |TableTodos.RowMenu(MockTodos()[i])| == (if i == 1 || i == 2 then 1 else 2)
  {
  }

  /** With the field missing, every updated-date cell is empty whatever the date formatter. */
  lemma MockUpdatedCellsEmpty(toFormat: (string, string) -> string)
    ensures forall i :: 0 <= i < 6 ==> TableTodos.UpdatedDateCell(MockTodos()[i], toFormat) == ""
  {
  }
}
