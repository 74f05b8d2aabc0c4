/**
  * The leave-with-unsaved-changes dialog (`src/stores/cancelChangesConfirmation.ts`):
  * the same polling dialog as the delete confirmation, answering stay or
  * leave, plus a flag recording that the form has pending changes.
  */
module CancelChangesConfirmation {
  import opened Wrappers

  datatype LeaveAnswer = Stay | Leave

  class CancelChangesConfirmationStore {
    var visible: bool
    var pendingChanges: bool
    var title: string
    var description: string
    var result: Option<LeaveAnswer>

    constructor()
      ensures !visible && !pendingChanges && title == "" && description == "" && result == None
    {
      visible := false;
      pendingChanges := false;
      title := "";
      description := "";
      result := None;
    }

    method Trigger(titleText: string, descriptionText: string)
      modifies this
      ensures visible && title == titleText && description == descriptionText && result == None
      ensures pendingChanges == old(pendingChanges)
    {
      title := titleText;
      description := descriptionText;
      result := None;
      visible := true;
    }

    method Resolve(answer: LeaveAnswer)
      modifies this
      ensures result == Some(answer)
      ensures visible == old(visible) && pendingChanges == old(pendingChanges)
      ensures title == old(title) && description == old(description)
    {
      result := Some(answer);
    }

    method StayOnPage()
      modifies this
      ensures result == Some(Stay)
      ensures visible == old(visible) && pendingChanges == old(pendingChanges)
      ensures title == old(title) && description == old(description)
    {
      Resolve(Stay);
    }

    method LeavePage()
      modifies this
      ensures result == Some(Leave)
      ensures visible == old(visible) && pendingChanges == old(pendingChanges)
      ensures title == old(title) && description == old(description)
    {
      Resolve(Leave);
    }

    method AddChange()
      modifies this
      ensures pendingChanges
      ensures visible == old(visible) && result == old(result)
      ensures title == old(title) && description == old(description)
    {
      pendingChanges := true;
    }

    method ResetChanges()
      modifies this
      ensures !pendingChanges
      ensures visible == old(visible) && result == old(result)
      ensures title == old(title) && description == old(description)
    {
      pendingChanges := false;
    }

    method Poll() returns (settled: Option<LeaveAnswer>)
      modifies this
      ensures settled == old(result) && result == old(result)
      ensures title == old(title) && description == old(description) && pendingChanges == old(pendingChanges)
      ensures visible == (old(visible) && old(result).None?)
    {
      if result.Some? {
        visible := false;
      }
      settled := result;
    }
  }
}
