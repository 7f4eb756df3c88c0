/**
 * The confirmation dialog (src/components/TodoActionModal.tsx): its text
 * and colour as a total function of the action type, and its two buttons,
 * of which only the confirm button calls the action handler. How the
 * dialog library opens and closes is not modelled.
 */
module TodoActionModal {
  import opened Utils

  /** A dialog button: its caption, variant, extra class, and whether its click calls `handleAction`. */
  datatype ModalButton = ModalButton(caption: string, variant: string, className: string, invokesAction: bool)

  /** What the dialog shows. */
  datatype ModalView = ModalView(open: bool, title: string, description: string, buttons: seq<ModalButton>)

  function Title(kind: ActionType): (title: string)
    ensures kind == Update ==> title == "Update Todo Status"
    ensures kind == Delete ==> title == "Delete Todo"
  {
    if kind == Update then "Update Todo Status" else "Delete Todo"
  }

  function Description(kind: ActionType): (text: string)
    ensures kind == Update ==> text == "Are you completed todo item?"
    ensures kind == Delete ==> text == "Are you sure to delete todo item?"
  {
    if kind == Update then "Are you completed todo item?" else "Are you sure to delete todo item?"
  }

  /** The cancel button: a plain close, with no click handler. */
  function CancelButton(): (b: ModalButton)
    ensures b.caption == "Cancel" && b.variant == "secondary"
    ensures !b.invokesAction
  {
    ModalButton("Cancel", "secondary", "", false)
  }

  /** The confirm button: labelled and coloured by the action, and wired to `handleAction`. */
  function ConfirmButton(kind: ActionType): (b: ModalButton)
    ensures b.invokesAction && b.variant == "default"
    ensures kind == Update ==> b.caption == "Update" && b.className == "bg-blue-400"
    ensures kind == Delete ==> b.caption == "Delete" && b.className == "bg-red-400"
  {
    if kind == Update then ModalButton("Update", "default", "bg-blue-400", true)
    else ModalButton("Delete", "default", "bg-red-400", true)
  }

  /** The whole dialog for `openDialog` and `type`. */
  function Modal(openDialog: bool, kind: ActionType): (v: ModalView)
    ensures v.open == openDialog
    ensures v.title == Title(kind) && v.description == Description(kind)
    ensures |v.buttons| == 2 && v.buttons[0] == CancelButton() && v.buttons[1] == ConfirmButton(kind)
    ensures forall i :: 0 <= i < |v.buttons| ==> (v.buttons[i].invokesAction <==> i == 1)
  {
    ModalView(openDialog, Title(kind), Description(kind), [CancelButton(), ConfirmButton(kind)])
  }

  /** Title, description and confirm button each tell the two actions apart. */
  lemma TextDeterminesKind(k1: ActionType, k2: ActionType)
    ensures Title(k1) == Title(k2) ==> k1 == k2
    ensures Description(k1) == Description(k2) ==> k1 == k2
    ensures ConfirmButton(k1) == ConfirmButton(k2) ==> k1 == k2
  {
    if k1 != k2 {
      assert Title(k1)[0] != Title(k2)[0];
      assert Description(k1)[8] != Description(k2)[8];
    }
  }
}
