/**
  * The delete-confirmation dialog (`src/stores/deleteConfirmation.ts`). The
  * promise returned by `trigger` polls `result` every 100 ms; here each poll is
  * one call of `Poll`, which answers once a result has been chosen.
  */
module DeleteConfirmation {
  import opened Wrappers

  datatype DeleteAnswer = Cancel | Delete

  class DeleteConfirmationStore {
    var visible: bool
    var title: string
    var description: string
    var result: Option<DeleteAnswer>

    constructor()
      ensures !visible && title == "" && description == "" && result == None
    {
      visible := false;
      title := "";
      description := "";
      result := None;
    }

    /** Opens the dialog with its texts and forgets any earlier answer. */
    method Trigger(titleText: string, descriptionText: string)
      modifies this
      ensures visible && title == titleText && description == descriptionText && result == None
    {
      title := titleText;
      description := descriptionText;
      result := None;
      visible := true;
    }

    /** The last answer chosen wins. */
    method Resolve(answer: DeleteAnswer)
      modifies this
      ensures result == Some(answer)
      ensures visible == old(visible) && title == old(title) && description == old(description)
    {
      result := Some(answer);
    }

    method CancelDelete()
      modifies this
      ensures result == Some(Cancel)
      ensures visible == old(visible) && title == old(title) && description == old(description)
    {
      Resolve(Cancel);
    }

    method ConfirmDelete()
      modifies this
      ensures result == Some(Delete)
      ensures visible == old(visible) && title == old(title) && description == old(description)
    {
      Resolve(Delete);
    }

    /** One check of the pending promise: without an answer the dialog stays
      * as it is; with one it hides and the promise resolves with it. */
    method Poll() returns (settled: Option<DeleteAnswer>)
      modifies this
      ensures settled == old(result) && result == old(result)
      ensures title == old(title) && description == old(description)
      ensures visible == (old(visible) && old(result).None?)
    {
      if result.Some? {
        visible := false;
      }
      settled := result;
    }
  }
}
