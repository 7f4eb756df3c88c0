/**
 * The completion chart's data (src/components/ChartCompletedTodo.tsx):
 * a fold counting finished items, the rest counted as unfinished, and
 * the two-slice dataset with its labels. Chart.js rendering and the
 * slice colours are presentation and are not modelled.
 */
module ChartCompletedTodo {
  import opened Query

  /** The `reduce` step: `prev + (current.isComplete ? 1 : 0)`, left to right. */
  function ReduceFinished(prev: nat, todos: seq<Todo>): (total: nat)
    ensures prev <= total <= prev + |todos|
    decreases |todos|
  {
    if todos == [] then prev
    else ReduceFinished(prev + (if todos[0].isComplete then 1 else 0), todos[1..])
  }

  /** `finishTodo`: the fold started at 0. */
  function FinishCount(todos: seq<Todo>): (finish: nat)
    ensures finish <= |todos|
    ensures todos == [] ==> finish == 0
  {
    ReduceFinished(0, todos)
  }

  /** The completed items, in list order: the reference the count is measured against. */
  function Completed(todos: seq<Todo>): (done: seq<Todo>)
    ensures |done| <= |todos|
    ensures forall t :: t in done ==> t in todos && t.isComplete
    ensures forall t :: t in todos && t.isComplete ==> t in done
  {
    if todos == [] then []
    else (if todos[0].isComplete then [todos[0]] else []) + Completed(todos[1..])
  }

  /** The items not completed, in list order. */
  function Incomplete(todos: seq<Todo>): (open: seq<Todo>)
    ensures |open| <= |todos|
    ensures forall t :: t in open ==> t in todos && !t.isComplete
    ensures forall t :: t in todos && !t.isComplete ==> t in open
  {
    if todos == [] then []
    else (if todos[0].isComplete then [] else [todos[0]]) + Incomplete(todos[1..])
  }

  /** The dataset handed to the doughnut chart. */
  datatype ChartData = ChartData(labels: seq<string>, datasetLabel: string, data: seq<int>)

  /** `data(dataTodo)`: `[finish, length - finish]` under `["Finish", "Unfinish"]`. */
  function Data(todos: seq<Todo>): (d: ChartData)
    ensures d.labels == ["Finish", "Unfinish"]
    ensures |d.data| == |d.labels| == 2
    ensures d.data[0] == |Completed(todos)| && d.data[1] == |Incomplete(todos)|
    ensures d.data[0] + d.data[1] == |todos|
    ensures 0 <= d.data[0] <= |todos| && 0 <= d.data[1] <= |todos|
  {
    var finish := FinishCount(todos);
    FinishIsCompleted(todos);
    PartitionSizes(todos);
    ChartData(["Finish", "Unfinish"], "Status todo item", [finish, |todos| - finish])
  }

  /** Folding from `prev` is folding from 0 and adding `prev`. */
  lemma {:induction false} ReduceShift(prev: nat, todos: seq<Todo>)
    ensures ReduceFinished(prev, todos) == prev + ReduceFinished(0, todos)
    decreases |todos|
  {
    if todos != [] {
      var step := if todos[0].isComplete then 1 else 0;
      ReduceShift(prev + step, todos[1..]);
      ReduceShift(step, todos[1..]);
    }
  }

  /** The fold counts exactly the completed items. */
  lemma {:induction false} FinishIsCompleted(todos: seq<Todo>)
    ensures FinishCount(todos) == |Completed(todos)|
    decreases |todos|
  {
    if todos != [] {
      var step := if todos[0].isComplete then 1 else 0;
      ReduceShift(step, todos[1..]);
      FinishIsCompleted(todos[1..]);
    }
  }

  /** Every item is either completed or not: the two parts add up to the list. */
  lemma {:induction false} PartitionSizes(todos: seq<Todo>)
    ensures |Completed(todos)| + |Incomplete(todos)| == |todos|
    ensures multiset(Completed(todos)) + multiset(Incomplete(todos)) == multiset(todos)
    decreases |todos|
  {
    if todos != [] {
      PartitionSizes(todos[1..]);
      assert todos == [todos[0]] + todos[1..];
    }
  }

  /** The count over a concatenation is the sum of the counts. */
  lemma {:induction false} FinishAppend(xs: seq<Todo>, ys: seq<Todo>)
    ensures FinishCount(xs + ys) == FinishCount(xs) + FinishCount(ys)
    decreases |xs|
  {
    if xs == [] {
      assert xs + ys == ys;
    } else {
      var step := if xs[0].isComplete then 1 else 0;
      assert (xs + ys)[0] == xs[0];
      assert (xs + ys)[1..] == xs[1..] + ys;
      ReduceShift(step, xs[1..] + ys);
      ReduceShift(step, xs[1..]);
      FinishAppend(xs[1..], ys);
    }
  }

  /** A one-item list counts 1 exactly when that item is completed. */
  lemma FinishSingle(t: Todo)
    ensures FinishCount([t]) == if t.isComplete then 1 else 0
  {
    var step := if t.isComplete then 1 else 0;
    assert [t][1..] == [];
    assert ReduceFinished(step, []) == step;
    assert ReduceFinished(0, [t]) == ReduceFinished(step, [t][1..]);
  }

  /** Taking one item out of the list takes its share out of the count. */
  lemma FinishRemoveAt(ys: seq<Todo>, j: nat)
    requires j < |ys|
    ensures FinishCount(ys) == FinishCount(ys[..j] + ys[j + 1..]) + (if ys[j].isComplete then 1 else 0)
  {
    var front, tail := ys[..j], ys[j + 1..];
    assert ys == front + ([ys[j]] + tail);
    FinishAppend(front, [ys[j]] + tail);
    FinishAppend([ys[j]], tail);
    FinishAppend(front, tail);
    FinishSingle(ys[j]);
  }

  /** Where an item of the multiset sits in the list. */
  lemma IndexOf(ys: seq<Todo>, x: Todo) returns (j: nat)
    requires x in multiset(ys)
    ensures j < |ys| && ys[j] == x
  {
    assert x in ys;
    j :| 0 <= j < |ys| && ys[j] == x;
  }

  /** Taking the matching item out of two permutations leaves permutations. */
  lemma RemoveMatching(xs: seq<Todo>, ys: seq<Todo>, j: nat)
    requires multiset(xs) == multiset(ys) && xs != []
    requires j < |ys| && ys[j] == xs[0]
    ensures multiset(xs[1..]) == multiset(ys[..j] + ys[j + 1..])
  {
    assert xs == [xs[0]] + xs[1..];
    assert ys == ys[..j] + [ys[j]] + ys[j + 1..];
    assert multiset(ys[..j] + ys[j + 1..]) == multiset(ys) - multiset{ys[j]};
  }

  /** The counts do not depend on the order of the list. */
  lemma {:induction false} FinishPermutation(xs: seq<Todo>, ys: seq<Todo>)
    requires multiset(xs) == multiset(ys)
    ensures FinishCount(xs) == FinishCount(ys)
    decreases |xs|
  {
    if xs == [] {
      assert |ys| == |multiset(ys)| == 0;
    } else {
      var j := IndexOf(ys, xs[0]);
      RemoveMatching(xs, ys, j);
      FinishPermutation(xs[1..], ys[..j] + ys[j + 1..]);
      FinishRemoveAt(xs, 0);
      assert xs[..0] + xs[1..] == xs[1..];
      FinishRemoveAt(ys, j);
    }
  }

  /** Reordering the list leaves the chart data unchanged. */
  lemma DataPermutation(xs: seq<Todo>, ys: seq<Todo>)
    requires multiset(xs) == multiset(ys)
    ensures Data(xs) == Data(ys)
  {
    FinishPermutation(xs, ys);
    assert |xs| == |multiset(xs)| == |multiset(ys)| == |ys|;
  }

  /** An empty list gives two empty slices. */
  lemma EmptyData()
    ensures Data([]).data == [0, 0]
  {
  }
}
