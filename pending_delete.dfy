/**
 * The row-to-delete state of the expenses and income pages: the id picked
 * for deletion, which also keeps the confirmation dialog open, what the
 * dialog's handlers do with it, and the dialog's Delete button, which runs
 * the confirm handler and then closes the dialog.
 */
module PendingDelete {
  import opened Wrappers

  class PendingDelete {
    /** `expenseToDelete` / `incomeToDelete`; `None` is `null`. */
    var pending: Option<int>

    constructor()
      ensures pending == None
    {
      pending := None;
    }

    /** The confirmation dialog is open while an id is pending. */
    function DialogOpen(): bool
      reads this
    {
      pending.Some?
    }

    /** `handleDelete(id)`: the row's delete button. */
    method Choose(id: int)
      modifies this
      ensures pending == Some(id)
    {
      pending := Some(id);
    }

    /**
     * `confirmDelete`: the id sent in a DELETE request, if any. The guard is
     * JavaScript truthiness, so neither `null` nor the id 0 sends anything.
     * The handler itself leaves the pending id as it is.
     */
    method Confirm() returns (request: Option<int>)
      ensures request.Some? <==> pending.Some? && pending.value != 0
      ensures request.Some? ==> request == pending
    {
      if pending.Some? && pending.value != 0 {
        request := pending;
      } else {
        request := None;
      }
    }

    /** The delete mutation's `onSuccess`. */
    method Succeeded()
      modifies this
      ensures pending == None
    {
      pending := None;
    }

    /** The delete mutation's `onError` shows a toast and leaves the pending id as it is. */
    method Failed()
      ensures pending == old(pending)
    {
    }

    /** `onOpenChange(open)`: closing the dialog clears the pending id; opening changes nothing. */
    method OpenChange(open: bool)
      modifies this
      ensures !open ==> pending == None
      ensures open ==> pending == old(pending)
    {
      if !open {
        pending := None;
      }
    }

    /**
     * A click on the dialog's Delete button: an alert-dialog action runs its
     * `onClick`, the confirm handler, and then closes the dialog, which runs
     * `onOpenChange(false)`. The request goes out with the id picked, and the
     * pending id is gone before the request can succeed or fail.
     */
    method PressDelete() returns (request: Option<int>)
      modifies this
      ensures request.Some? <==> old(pending).Some? && old(pending).value != 0
      ensures request.Some? ==> request == old(pending)
      ensures pending == None
    {
      request := Confirm();
      OpenChange(false);
    }
  }

  /** Choosing the row with id 0 opens the dialog, but confirming it never sends a request. */
  method ZeroIdIsNeverDeleted() returns (open: bool, request: Option<int>)
    ensures open && request == None
  {
    var state := new PendingDelete();
    state.Choose(0);
    open := state.DialogOpen();
    request := state.Confirm();
  }

  /** A chosen non-zero id is what confirming sends, and a success clears it and closes the dialog. */
  method ConfirmThenSucceed(id: int) returns (request: Option<int>, openAfter: bool)
    requires id != 0
    ensures request == Some(id) && !openAfter
  {
    var state := new PendingDelete();
    state.Choose(id);
    request := state.Confirm();
    state.Succeeded();
    openAfter := state.DialogOpen();
  }

  /**
   * Pressing Delete sends the chosen nonzero id and closes the dialog at once,
   * so a failed request finds the dialog already closed and nothing pending.
   */
  method PressDeleteThenFail(id: int) returns (request: Option<int>, openAfter: bool)
    requires id != 0
    ensures request == Some(id) && !openAfter
  {
    var state := new PendingDelete();
    state.Choose(id);
    request := state.PressDelete();
    state.Failed();
    openAfter := state.DialogOpen();
  }
}
