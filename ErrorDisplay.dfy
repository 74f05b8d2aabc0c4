/**
  * The message queue of the global error display (`src/stores/errorDisplay.ts`).
  * The message id (a fresh UUID) and the timestamp (`Date.now()`) are inputs;
  * the five-second auto-dismiss timer is returned as the delay after which the
  * caller removes the message.
  */
module ErrorDisplay {
  import opened Wrappers
  import opened Lists

  datatype MessageType = Error | Warning | Info

  datatype ErrorMessage = ErrorMessage(id: string, kind: MessageType, text: string, timestamp: int)

  /** Info and warning messages dismiss themselves after this many milliseconds. */
  const AutoDismissMs := 5000

  predicate HasId(id: string, m: ErrorMessage)
  {
    m.id == id
  }

  /** `messages.splice(findIndex(msg => msg.id === id), 1)` when found. */
  function RemoveFirstWithId(s: seq<ErrorMessage>, id: string): (r: seq<ErrorMessage>)
    ensures (forall j :: 0 <= j < |s| ==> s[j].id != id) ==> r == s
    ensures (exists j :: 0 <= j < |s| && s[j].id == id) ==> |r| == |s| - 1
  {
    var k := FirstIndex(s, m => HasId(id, m));
    if k == -1 then s else s[..k] + s[k + 1..]
  }

  /** Only the first message with the id goes: the ones before it and after
    * it stay, in order. */
  lemma {:induction false} RemoveFirstWithIdKeepsOthers(s: seq<ErrorMessage>, id: string, k: nat)
    requires k < |s| && s[k].id == id && forall j :: 0 <= j < k ==> s[j].id != id
    ensures RemoveFirstWithId(s, id) == s[..k] + s[k + 1..]
  {
    var i := FirstIndex(s, m => HasId(id, m));
    assert i == k;
  }

  /** A message added with a fresh id is removed by its id, leaving the queue
    * as it was. */
  lemma {:induction false} AddThenRemove(s: seq<ErrorMessage>, m: ErrorMessage)
    requires forall j :: 0 <= j < |s| ==> s[j].id != m.id
    ensures RemoveFirstWithId(s + [m], m.id) == s
  {
    RemoveFirstWithIdKeepsOthers(s + [m], m.id, |s|);
    assert (s + [m])[..|s|] == s;
  }

  class ErrorDisplayStore {
    var messages: seq<ErrorMessage>

    constructor()
      ensures messages == []
    {
      messages := [];
    }

    /** Appends one message and returns its id, with the auto-dismiss delay for
      * info and warning messages; errors stay until removed. */
    method AddMessage(kind: MessageType, text: string, id: string, now: int) returns (r: string, dismissAfter: Option<int>)
      modifies this
      ensures messages == old(messages) + [ErrorMessage(id, kind, text, now)]
      ensures r == id
      ensures dismissAfter.Some? <==> kind != Error
      ensures dismissAfter.Some? ==> dismissAfter.value == AutoDismissMs
    {
      messages := messages + [ErrorMessage(id, kind, text, now)];
      if kind == Info || kind == Warning {
        dismissAfter := Some(AutoDismissMs);
      } else {
        dismissAfter := None;
      }
      r := id;
    }

    method RemoveMessage(id: string)
      modifies this
      ensures messages == RemoveFirstWithId(old(messages), id)
    {
      var index := FirstIndex(messages, m => HasId(id, m));
      if index > -1 {
        messages := messages[..index] + messages[index + 1..];
      }
    }

    method ClearAll()
      modifies this
      ensures messages == []
    {
      messages := [];
    }
  }
}
