/**
 * The page controller (src/components/MainContainer.tsx): the create-form
 * validator, the requests each mutation sends, what follows a success or
 * a failure, the loading flag, the column-menu labels, and the single
 * pending-action slot that the row menus fill and the dialog's confirm
 * button empties. Sending the requests, caching and refetching are done
 * by the HTTP and query libraries and are not modelled; a request is
 * modelled as the value that would be sent.
 */
module MainContainer {
  import opened Wrappers
  import opened Query
  import opened Utils
  import TableTodos
  import TodoActionModal
  import ChartCompletedTodo

  // ---------------------------------------------------------------------
  // Create form validation
  // ---------------------------------------------------------------------

  /** The UTF-16 code units one character takes: two above the Basic Multilingual Plane. */
  function CodeUnits(c: char): nat
  {
    if c as int > 0xFFFF then 2 else 1
  }

  /** A JavaScript string's `length`: its UTF-16 code units. */
  function Utf16Length(s: string): (n: nat)
    ensures |s| <= n <= 2 * |s|
    ensures s != [] ==> n >= 1
  {
    if s == [] then 0 else CodeUnits(s[0]) + Utf16Length(s[1..])
  }

  /** Every character needs only one code unit. */
  predicate InBmp(s: string)
  {
    forall i :: 0 <= i < |s| ==> s[i] as int <= 0xFFFF
  }

  lemma {:induction false} BmpLength(s: string)
    requires InBmp(s)
    ensures Utf16Length(s) == |s|
  {
    if s != [] {
      assert InBmp(s[1..]) by {
        forall i | 0 <= i < |s[1..]| ensures s[1..][i] as int <= 0xFFFF {
          assert s[1..][i] == s[i + 1];
        }
      }
      BmpLength(s[1..]);
    }
  }

  const TooShortMessage: string := "Todo Name must be at least 2 characters."
  const TooLongMessage: string := "Todo Name max 50 characters."

  /** `formSchema`: a name of 2 to 50 code units is accepted, otherwise the matching message. */
  function ValidateName(name: string): (r: Result<string, string>)
    ensures r.Success? <==> 2 <= Utf16Length(name) <= 50
    ensures r.Success? ==> r.value == name
    ensures Utf16Length(name) < 2 ==> r == Failure(TooShortMessage)
    ensures Utf16Length(name) > 50 ==> r == Failure(TooLongMessage)
  {
    var n := Utf16Length(name);
    if n < 2 then Failure(TooShortMessage)
    else if n > 50 then Failure(TooLongMessage)
    else Success(name)
  }

  /**
   * In characters: an accepted name has 1 to 50 of them, and for names
   * without characters outside the Basic Multilingual Plane the bound is
   * exactly 2 to 50.
   */
  lemma NameBounds(name: string)
    ensures ValidateName(name).Success? ==> 1 <= |name| <= 50
    ensures InBmp(name) ==> (ValidateName(name).Success? <==> 2 <= |name| <= 50)
  {
    if InBmp(name) {
      BmpLength(name);
    }
  }

  /** One character outside the Basic Multilingual Plane counts as two and is accepted on its own. */
  lemma AstralCharacterCountsTwice()
    ensures ValidateName("\U{1F600}") == Success("\U{1F600}")
    ensures ValidateName("a") == Failure(TooShortMessage)
  {
    assert "\U{1F600}"[1..] == [];
    assert "a"[1..] == [];
  }

  // ---------------------------------------------------------------------
  // Requests
  // ---------------------------------------------------------------------

  datatype HttpMethod = POST | PUT | DELETE

  /** A request body: a new item, or the completion flag. */
  datatype Body = NewTodo(todoName: string, isComplete: bool) | Completion(isComplete: bool)

  datatype HttpRequest = HttpRequest(verb: HttpMethod, url: string, body: Option<Body>)

  /** `${API_URL}/${id}`: the path of one item, from which its id can be read back. */
  function ItemPath(id: string): (url: string)
    ensures |url| == |ApiUrl| + 1 + |id|
    ensures url[..|ApiUrl| + 1] == ApiUrl + "/"
    ensures url[|ApiUrl| + 1..] == id
  {
    ApiUrl + "/" + id
  }

  /** Different items have different paths. */
  lemma ItemPathInjective(a: string, b: string)
    ensures ItemPath(a) == ItemPath(b) ==> a == b
  {
  }

  /** The create mutation: the form fields plus `isComplete: false`, posted to the collection. */
  function CreateRequest(todoName: string): (req: HttpRequest)
    ensures req.verb == POST && req.url == ApiUrl
    ensures req.body == Some(NewTodo(todoName, false))
  {
    HttpRequest(POST, ApiUrl, Some(NewTodo(todoName, false)))
  }

  /** What confirming the dialog dispatches: an update or a delete of one item. */
  datatype Request = UpdateReq(id: string) | DeleteReq(id: string)

  /** The HTTP request a dispatched mutation sends. */
  function ToHttp(r: Request): (req: HttpRequest)
    ensures req.url == ItemPath(r.id)
    ensures r.UpdateReq? ==> req.verb == PUT && req.body == Some(Completion(true))
    ensures r.DeleteReq? ==> req.verb == DELETE && req.body == None
    ensures req.verb != POST
  {
    match r
    case UpdateReq(id) => HttpRequest(PUT, ItemPath(id), Some(Completion(true)))
    case DeleteReq(id) => HttpRequest(DELETE, ItemPath(id), None)
  }

  /**
   * How the REST resource reads an item request: PUT on an item path is
   * an update, DELETE on an item path a delete.
   */
  function FromHttp(req: HttpRequest): (r: Option<Request>)
    ensures r.Some? ==> |req.url| > |ApiUrl| && req.url[..|ApiUrl| + 1] == ApiUrl + "/"
    ensures req.verb == POST ==> r == None
    ensures r.Some? ==> r.value.id == req.url[|ApiUrl| + 1..] && (r.value.UpdateReq? <==> req.verb == PUT)
  {
    var prefix := ApiUrl + "/";
    if |req.url| < |prefix| || req.url[..|prefix|] != prefix then None
    else if req.verb == PUT then Some(UpdateReq(req.url[|prefix|..]))
    else if req.verb == DELETE then Some(DeleteReq(req.url[|prefix|..]))
    else None
  }

  /** Every dispatched mutation reaches the resource as exactly that mutation. */
  lemma HttpRoundTrip(r: Request)
    ensures FromHttp(ToHttp(r)) == Some(r)
  {
    assert ToHttp(r).url[..|ApiUrl + "/"|] == ApiUrl + "/";
  }

  /** There is no request that marks an item incomplete. */
  lemma NoUncompleteRequest(r: Request)
    ensures ToHttp(r).body != Some(Completion(false))
    ensures ToHttp(r).body.Some? ==> ToHttp(r).body.value.isComplete
  {
  }

  /** The result of submitting the create form. */
  datatype Submission = Rejected(message: string) | Posted(request: HttpRequest)

  /** `form.handleSubmit(submitForm)`: the mutation runs only for a valid name. */
  function SubmitForm(name: string): (s: Submission)
    ensures s.Posted? <==> 2 <= Utf16Length(name) <= 50
    ensures s.Posted? ==> s.request == CreateRequest(name)
    ensures s.Rejected? ==> Failure(s.message) == ValidateName(name)
  {
    match ValidateName(name)
    case Success(v) => Posted(CreateRequest(v))
    case Failure(m) => Rejected(m)
  }

  // ---------------------------------------------------------------------
  // Outcomes
  // ---------------------------------------------------------------------

  datatype Operation = CreateTodo | UpdateTodo | DeleteTodo

  datatype ToastVariant = Default | Destructive

  datatype Toast = Toast(variant: ToastVariant, title: string, description: string)

  /** What a mutation's callback does, in order. */
  datatype Effect = ShowToast(toast: Toast) | RefetchList | ResetForm

  const ErrorToast: Toast :=
    Toast(Destructive, "Uh oh! Something went wrong.", "There was a problem with your request.")

  function SuccessToast(op: Operation): (t: Toast)
    ensures t.variant == Default && t != ErrorToast
  {
    match op
    case CreateTodo => Toast(Default, "Success Create Todo", "Successfull create todo item.")
    case UpdateTodo => Toast(Default, "Success Update Todo", "Successfull update todo, completed todo item.")
    case DeleteTodo => Toast(Default, "Success Delete Todo", "Successfull delete todo item.")
  }

  /** The `onSuccess` / `onError` sequence of a mutation. */
  function Outcome(op: Operation, succeeded: bool): (effects: seq<Effect>)
    ensures |effects| >= 1 && effects[0].ShowToast?
    ensures effects[0].toast.variant == Destructive <==> !succeeded
    ensures RefetchList in effects <==> succeeded
    ensures ResetForm in effects <==> succeeded && op == CreateTodo
    ensures !succeeded ==> effects == [ShowToast(ErrorToast)]
    ensures succeeded ==> effects[0] == ShowToast(SuccessToast(op))
    ensures |effects| == (if !succeeded then 1 else if op == CreateTodo then 3 else 2)
    ensures succeeded ==> effects[1] == RefetchList
    ensures succeeded && op == CreateTodo ==> effects[2] == ResetForm
  {
    if !succeeded then [ShowToast(ErrorToast)]
    else if op == CreateTodo then [ShowToast(SuccessToast(op)), RefetchList, ResetForm]
    else [ShowToast(SuccessToast(op)), RefetchList]
  }

  function OperationOf(r: Request): (op: Operation)
    ensures op == UpdateTodo <==> r.UpdateReq?
    ensures op != CreateTodo
  {
    if r.UpdateReq? then UpdateTodo else DeleteTodo
  }

  /** All failures look the same to the user, whatever the operation. */
  lemma FailuresIndistinguishable(a: Operation, b: Operation)
    ensures Outcome(a, false) == Outcome(b, false)
    ensures a != b ==> Outcome(a, true) != Outcome(b, true)
  {
    if a != b {
      assert Outcome(a, true)[0].toast.title[8] != Outcome(b, true)[0].toast.title[8];
    }
  }

  // ---------------------------------------------------------------------
  // Loading flag
  // ---------------------------------------------------------------------

  /** A mutation's `status`. */
  datatype MutationStatus = Idle | Pending | Succeeded | Errored

  /** `isLoading`: the list is loading or a create or an update is pending; a pending delete is not counted. */
  function IsLoading(listLoading: bool, create: MutationStatus, update: MutationStatus, delete: MutationStatus): (r: bool)
    ensures r <==> listLoading || create == Pending || update == Pending
  {
    listLoading || create == Pending || update == Pending
  }

  /** Whatever the delete mutation is doing, the flag is the same. */
  lemma DeleteNeverLoads(listLoading: bool, create: MutationStatus, update: MutationStatus, delete: MutationStatus)
    ensures IsLoading(listLoading, create, update, delete) == IsLoading(listLoading, create, update, Idle)
    ensures !IsLoading(false, Idle, Idle, Pending)
  {
  }

  // ---------------------------------------------------------------------
  // Column menu labels
  // ---------------------------------------------------------------------

  /** `handleName` as written. */
  function HandleName(id: string): (name: string)
    ensures id == "isComplete" ==> name == "Status"
    ensures id == "createdAt" || id == "updatedAt" ==> name == "Created Date"
    ensures id !in {"isComplete", "createdAt", "updatedAt"} ==> name == "Title"
  {
    match id
    case "isComplete" => "Status"
    case "createdAt" => "Created Date"
    case "updatedAt" => "Created Date"
    case _ => "Title"
  }

  /** `handleName` as evidently intended: the "updateAt" column is the updated date. */
  function HandleNameCorrected(id: string): (name: string)
    ensures id == "isComplete" ==> name == "Status"
    ensures id == "createdAt" ==> name == "Created Date"
    ensures id == "updateAt" ==> name == "Updated Date"
    ensures id !in {"isComplete", "createdAt", "updateAt"} ==> name == "Title"
  {
    match id
    case "isComplete" => "Status"
    case "createdAt" => "Created Date"
    case "updateAt" => "Updated Date"
    case _ => "Title"
  }

  /** The entries of the columns menu: one label per hideable column, in column order. */
  function ColumnMenu(cols: seq<TableTodos.Column>, name: string -> string): (labels: seq<string>)
    ensures |labels| == |TableTodos.Hideable(cols)|
    ensures forall i :: 0 <= i < |labels| ==> labels[i] == name(TableTodos.Hideable(cols)[i].id)
  {
    var hs := TableTodos.Hideable(cols);
    seq(|hs|, i requires 0 <= i < |hs| => name(hs[i].id))
  }

  /** The columns menu lists the first four columns, whatever the labelling. */
  lemma ColumnMenuOfColumnsTodo(name: string -> string)
    ensures ColumnMenu(TableTodos.ColumnsTodo(), name) ==
      [name("todoName"), name("isComplete"), name("createdAt"), name("updateAt")]
  {
    TableTodos.HideableColumns();
  }

  /** As written, the menu lists "Title" twice and no entry for the updated date. */
  lemma ColumnMenuAsWritten()
    ensures ColumnMenu(TableTodos.ColumnsTodo(), HandleName) == ["Title", "Status", "Created Date", "Title"]
    ensures HandleName("updateAt") != TableTodos.ColumnsTodo()[3].header
  {
    ColumnMenuOfColumnsTodo(HandleName);
    assert HandleName("updateAt") == "Title";
  }

  /**
   * With the corrected mapping the four entries are distinct, and the
   * updated-date column's entry matches its header.
   */
  lemma ColumnMenuCorrected()
    ensures ColumnMenu(TableTodos.ColumnsTodo(), HandleNameCorrected) == ["Title", "Status", "Created Date", "Updated Date"]
    ensures HandleNameCorrected("updateAt") == TableTodos.ColumnsTodo()[3].header
  {
    ColumnMenuOfColumnsTodo(HandleNameCorrected);
    assert HandleNameCorrected("todoName") == "Title";
  }

  // ---------------------------------------------------------------------
  // Pending action slot
  // ---------------------------------------------------------------------

  /** `openDialog={!!dataUpdate.id}`: the dialog is open exactly when an id is pending. */
  predicate OpenDialog(id: string): (open: bool)
    ensures open <==> |id| > 0
  {
    id != ""
  }

  /** The slot's initial value: no id, UPDATE. */
  const InitialSlot: DataUpdate := DataUpdate("", Update)

  /** The mutation `handleModalAction` dispatches for a slot value. */
  function RequestFor(slot: DataUpdate): (r: Request)
    ensures r.id == slot.id
    ensures r.UpdateReq? <==> slot.kind == Update
  {
    if slot.kind == Update then UpdateReq(slot.id) else DeleteReq(slot.id)
  }

  /** A user event that reaches the slot: picking a row action, or pressing a dialog button. */
  datatype Event = Pick(choice: DataUpdate) | Press(button: TodoActionModal.ModalButton)

  datatype StepResult = StepResult(slot: DataUpdate, sent: Option<Request>)

  /** One event: a pick overwrites the slot; the button wired to `handleAction` dispatches and clears the id. */
  function Step(slot: DataUpdate, e: Event): (r: StepResult)
    ensures r.sent.Some? <==> e.Press? && e.button.invokesAction
    ensures r.sent.Some? ==> r.sent.value == RequestFor(slot) && r.slot == DataUpdate("", slot.kind)
    ensures e.Pick? ==> r.slot == e.choice
    ensures e.Press? && !e.button.invokesAction ==> r.slot == slot
  {
    match e
    case Pick(choice) => StepResult(choice, None)
    case Press(b) =>
      if b.invokesAction then StepResult(DataUpdate("", slot.kind), Some(RequestFor(slot)))
      else StepResult(slot, None)
  }

  function SentList(sent: Option<Request>): seq<Request>
  {
    match sent
    case None => []
    case Some(r) => [r]
  }

  datatype Trace = Trace(slot: DataUpdate, sent: seq<Request>)

  /** The slot and the dispatched requests after a sequence of events. */
  function Replay(slot: DataUpdate, events: seq<Event>): (t: Trace)
    ensures |t.sent| <= |events|
    ensures events == [] ==> t == Trace(slot, [])
    decreases |events|
  {
    if events == [] then Trace(slot, [])
    else
      var st := Step(slot, events[0]);
      var rest := Replay(st.slot, events[1..]);
      Trace(rest.slot, SentList(st.sent) + rest.sent)
  }

  /** The number of presses of a button that calls `handleAction`. */
  function ConfirmCount(events: seq<Event>): nat
    decreases |events|
  {
    if events == [] then 0
    else (if events[0].Press? && events[0].button.invokesAction then 1 else 0) + ConfirmCount(events[1..])
  }

  /** Replaying two runs of events one after the other. */
  lemma {:induction false} ReplayAppend(slot: DataUpdate, xs: seq<Event>, ys: seq<Event>)
    ensures Replay(slot, xs + ys) ==
      Trace(Replay(Replay(slot, xs).slot, ys).slot, Replay(slot, xs).sent + Replay(Replay(slot, xs).slot, ys).sent)
    decreases |xs|
  {
    if xs == [] {
      assert xs + ys == ys;
    } else {
      assert (xs + ys)[0] == xs[0];
      assert (xs + ys)[1..] == xs[1..] + ys;
      ReplayAppend(Step(slot, xs[0]).slot, xs[1..], ys);
    }
  }

  /** Each confirm dispatches exactly one request; nothing else dispatches any. */
  lemma {:induction false} OneRequestPerConfirm(slot: DataUpdate, events: seq<Event>)
    ensures |Replay(slot, events).sent| == ConfirmCount(events)
    decreases |events|
  {
    if events != [] {
      OneRequestPerConfirm(Step(slot, events[0]).slot, events[1..]);
    }
  }

  /** A single slot: whatever came before, the last pick is what is pending. */
  lemma LastPickWins(slot: DataUpdate, events: seq<Event>, choice: DataUpdate)
    ensures Replay(slot, events + [Pick(choice)]).slot == choice
    ensures Replay(slot, events + [Pick(choice)]).sent == Replay(slot, events).sent
  {
    ReplayAppend(slot, events, [Pick(choice)]);
  }

  /**
   * Confirming dispatches the request for the pending value, closes the
   * dialog and keeps the type.
   */
  lemma ConfirmDispatchesPending(slot: DataUpdate, events: seq<Event>, b: TodoActionModal.ModalButton)
    requires b.invokesAction
    ensures var before := Replay(slot, events);
      var after := Replay(slot, events + [Press(b)]);
      && after.sent == before.sent + [RequestFor(before.slot)]
      && !OpenDialog(after.slot.id)
      && after.slot.kind == before.slot.kind
  {
    ReplayAppend(slot, events, [Press(b)]);
  }

  /** Pressing a button with no handler (Cancel) dispatches nothing and leaves the slot as it was. */
  lemma CancelKeepsSlot(slot: DataUpdate, events: seq<Event>, b: TodoActionModal.ModalButton)
    requires !b.invokesAction
    ensures Replay(slot, events + [Press(b)]) == Replay(slot, events)
    ensures OpenDialog(Replay(slot, events + [Press(b)]).slot.id) == OpenDialog(Replay(slot, events).slot.id)
  {
    ReplayAppend(slot, events, [Press(b)]);
  }

  /**
   * From a row's menu to the server: picking an entry and pressing the
   * dialog's confirm button sends exactly one request, for that row; an
   * update is sent only for a row that was not complete.
   */
  lemma MenuThenConfirm(slot: DataUpdate, todo: Todo, i: nat)
    requires i < |TableTodos.RowMenu(todo)|
    ensures var item := TableTodos.RowMenu(todo)[i];
      var modal := TodoActionModal.Modal(true, item.emits.kind);
      var trace := Replay(slot, [Pick(item.emits), Press(modal.buttons[1])]);
      && |trace.sent| == 1
      && ToHttp(trace.sent[0]).url == ItemPath(todo.id)
      && (ToHttp(trace.sent[0]).verb == PUT ==> !todo.isComplete)
      && modal.title == item.caption
      && !OpenDialog(trace.slot.id)
  {
    var item := TableTodos.RowMenu(todo)[i];
    var modal := TodoActionModal.Modal(true, item.emits.kind);
    ReplayAppend(slot, [Pick(item.emits)], [Press(modal.buttons[1])]);
    assert [Pick(item.emits)] + [Press(modal.buttons[1])] == [Pick(item.emits), Press(modal.buttons[1])];
  }

  /** The `dataUpdate` state of the page. */
  class ActionController {
    var pendingId: string
    var pendingType: ActionType

    function Current(): DataUpdate
      reads this
    {
      DataUpdate(pendingId, pendingType)
    }

    predicate DialogOpen()
      reads this
    {
      OpenDialog(pendingId)
    }

    /** Starts as `{id: "", type: UPDATE}`, with the dialog closed. */
    constructor ()
      ensures pendingId == "" && pendingType == Update
      ensures Current() == InitialSlot && !DialogOpen()
    {
      pendingId := "";
      pendingType := Update;
    }

    /** `handleUpdate`: a row action overwrites both fields. */
    method HandleUpdate(choice: DataUpdate)
      modifies this
      ensures pendingId == choice.id && pendingType == choice.kind
      ensures Current() == Step(old(Current()), Pick(choice)).slot
      ensures DialogOpen() <==> choice.id != ""
    {
      pendingId := choice.id;
      pendingType := choice.kind;
    }

    /** `handleModalAction`: dispatch for the pending value, then clear the id. */
    method HandleModalAction() returns (req: Request)
      modifies this
      ensures req == RequestFor(old(Current()))
      ensures pendingId == "" && pendingType == old(pendingType)
      ensures !DialogOpen()
      ensures Step(old(Current()), Press(TodoActionModal.ConfirmButton(old(pendingType)))) == StepResult(Current(), Some(req))
    {
      if pendingType == Update {
        req := UpdateReq(pendingId);
      } else {
        req := DeleteReq(pendingId);
      }
      pendingId := "";
    }

    /** A click on a dialog button: only the one wired to `handleAction` does anything. */
    method Click(b: TodoActionModal.ModalButton) returns (sent: Option<Request>)
      modifies this
      ensures StepResult(Current(), sent) == Step(old(Current()), Press(b))
      ensures b.invokesAction ==> sent == Some(RequestFor(old(Current()))) && pendingId == "" && pendingType == old(pendingType)
      ensures !b.invokesAction ==> sent == None && pendingId == old(pendingId) && pendingType == old(pendingType)
    {
      if b.invokesAction {
        var req := HandleModalAction();
        sent := Some(req);
      } else {
        sent := None;
      }
    }
  }

  // ---------------------------------------------------------------------
  // What the page hands to its parts
  // ---------------------------------------------------------------------

  datatype PageView = PageView(
    spinner: bool,
    tableData: seq<Todo>,
    chart: ChartCompletedTodo.ChartData,
    modal: TodoActionModal.ModalView)

  /**
   * The page for a slot value and the query results: the table and the
   * chart both receive the whole fetched list (`todosList ?? []`), and the
   * dialog is open exactly when an id is pending.
   */
  function Page(slot: DataUpdate, todosList: Option<seq<Todo>>, listLoading: bool,
                create: MutationStatus, update: MutationStatus, delete: MutationStatus): (v: PageView)
    ensures v.tableData == (if todosList.Some? then todosList.value else [])
    ensures v.chart == ChartCompletedTodo.Data(v.tableData)
    ensures v.modal.open <==> slot.id != ""
    ensures v.modal.title == TodoActionModal.Title(slot.kind)
    ensures v.spinner <==> listLoading || create == Pending || update == Pending
  {
    var data := match todosList case Some(l) => l case None => [];
    PageView(IsLoading(listLoading, create, update, delete), data,
             ChartCompletedTodo.Data(data), TodoActionModal.Modal(OpenDialog(slot.id), slot.kind))
  }

  /** Before any event the dialog is closed; with no list yet the chart shows [0, 0]. */
  lemma InitialPage(listLoading: bool)
    ensures !Page(InitialSlot, None, listLoading, Idle, Idle, Idle).modal.open
    ensures Page(InitialSlot, None, listLoading, Idle, Idle, Idle).chart.data == [0, 0]
  {
  }
}
