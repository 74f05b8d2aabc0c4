/**
  * The context store (`src/stores/context.ts`): the cached list of contexts,
  * the current one, and the list updates each action applies after its API call.
  */
module Contexts {
  import opened Wrappers
  import opened Api
  import opened Lists
  import opened Reference

  type Context = ReferenceRecord

  const FetchAllFailed := "Failed to fetch contexts"
  const FetchFailed := "Failed to fetch context"
  const CreateFailed := "Failed to create context"
  const UpdateFailed := "Failed to update context"
  const DeleteFailed := "Failed to delete context"
  const SetDefaultFailed := "Failed to set default context"
  const GetDefaultFailed := "Failed to get default context"

  class ContextStore {
    var contexts: seq<Context>
    var currentContext: Option<Context>
    var loading: bool
    var error: Option<string>

    constructor()
      ensures contexts == [] && currentContext == None && !loading && error == None
    {
      contexts := [];
      currentContext := None;
      loading := false;
      error := None;
    }

    /** `defaultContext`: the first context flagged as default, if any. */
    function DefaultContext(): (r: Option<Context>)
      reads this
      ensures r == None <==> forall j :: 0 <= j < |contexts| ==> !IsDefault(contexts[j])
      ensures r.Some? ==> exists k :: 0 <= k < |contexts| && contexts[k] == r.value && IsDefault(r.value)
                            && forall j :: 0 <= j < k ==> !IsDefault(contexts[j])
    {
      var k := FirstIndex(contexts, IsDefault);
      if k == -1 then None else Some(contexts[k])
    }

    /** `fetchContexts`: the index replaces the list; a failure leaves it and rethrows. */
    method FetchContexts(reply: Call<Option<seq<Context>>>) returns (r: Call<()>)
      modifies this
      ensures !loading && currentContext == old(currentContext)
      ensures reply.Returned? ==> contexts == DataOrEmpty(reply.value) && error == None && r == Returned(())
      ensures reply.Threw? ==> contexts == old(contexts) && error == Some(FetchAllFailed) && r == Threw(reply.message)
    {
      loading := true;
      error := None;
      if reply.Threw? {
        error := Some(FetchAllFailed);
        r := Threw(reply.message);
      } else {
        contexts := DataOrEmpty(reply.value);
        r := Returned(());
      }
      loading := false;
    }

    /** `fetchContext(id)`: the answer becomes the current context. */
    method FetchContext(id: string, reply: Call<Context>) returns (r: Call<Context>)
      modifies this
      ensures r == reply && !loading && contexts == old(contexts)
      ensures reply.Returned? ==> currentContext == Some(reply.value) && error == None
      ensures reply.Threw? ==> currentContext == old(currentContext) && error == Some(FetchFailed)
    {
      loading := true;
      error := None;
      if reply.Threw? {
        error := Some(FetchFailed);
      } else {
        currentContext := Some(reply.value);
      }
      loading := false;
      r := reply;
    }

    /** `createContext`: the new context is appended. */
    method CreateContext(reply: Call<Context>) returns (r: Call<Context>)
      modifies this
      ensures r == reply && !loading && currentContext == old(currentContext)
      ensures reply.Returned? ==> contexts == old(contexts) + [reply.value] && error == None
      ensures reply.Threw? ==> contexts == old(contexts) && error == Some(CreateFailed)
    {
      loading := true;
      error := None;
      if reply.Threw? {
        error := Some(CreateFailed);
      } else {
        contexts := contexts + [reply.value];
      }
      loading := false;
      r := reply;
    }

    /** `updateContext(id, …)`: the first entry with `id` and a matching current context are replaced. */
    method UpdateContext(id: string, reply: Call<Context>) returns (r: Call<Context>)
      modifies this
      ensures r == reply && !loading
      ensures reply.Returned? ==>
                contexts == ReplaceFirst(old(contexts), id, reply.value) && error == None
                && currentContext == (if old(currentContext).Some? && old(currentContext).value.id == id
                                      then Some(reply.value) else old(currentContext))
      ensures reply.Threw? ==>
                contexts == old(contexts) && currentContext == old(currentContext) && error == Some(UpdateFailed)
    {
      loading := true;
      error := None;
      if reply.Threw? {
        error := Some(UpdateFailed);
      } else {
        var index := IndexOf(contexts, id);
        if index != -1 {
          contexts := contexts[index := reply.value];
        }
        if currentContext.Some? && currentContext.value.id == id {
          currentContext := Some(reply.value);
        }
      }
      loading := false;
      r := reply;
    }

    /** `deleteContext(id)`: every entry with `id` goes, and a matching current context. */
    method DeleteContext(id: string, reply: Call<()>) returns (r: Call<()>)
      modifies this
      ensures r == reply && !loading
      ensures reply.Returned? ==>
                contexts == RemoveId(old(contexts), id) && error == None
                && currentContext == (if old(currentContext).Some? && old(currentContext).value.id == id
                                      then None else old(currentContext))
      ensures reply.Threw? ==>
                contexts == old(contexts) && currentContext == old(currentContext) && error == Some(DeleteFailed)
    {
      loading := true;
      error := None;
      if reply.Threw? {
        error := Some(DeleteFailed);
      } else {
        contexts := RemoveId(contexts, id);
        if currentContext.Some? && currentContext.value.id == id {
          currentContext := None;
        }
      }
      loading := false;
      r := reply;
    }

    /** `setDefaultContext(id, isDefault)`: the single-default rewrite of the list. */
    method SetDefaultContext(id: string, isDefault: bool, reply: Call<Context>) returns (r: Call<Context>)
      modifies this
      ensures r == reply && !loading
      ensures reply.Returned? ==>
                contexts == MarkDefault(old(contexts), id, isDefault) && error == None
                && currentContext == (if old(currentContext).Some? && old(currentContext).value.id == id
                                      then Some(reply.value) else old(currentContext))
      ensures reply.Threw? ==>
                contexts == old(contexts) && currentContext == old(currentContext) && error == Some(SetDefaultFailed)
    {
      loading := true;
      error := None;
      if reply.Threw? {
        error := Some(SetDefaultFailed);
      } else {
        contexts := MarkDefault(contexts, id, isDefault);
        if currentContext.Some? && currentContext.value.id == id {
          currentContext := Some(reply.value);
        }
      }
      loading := false;
      r := reply;
    }

    /** `getDefaultContext`: the server's default replaces its entry, or is appended. */
    method GetDefaultContext(reply: Call<Context>) returns (r: Call<Context>)
      modifies this
      ensures r == reply && !loading && currentContext == old(currentContext)
      ensures reply.Returned? ==> contexts == Upsert(old(contexts), reply.value) && error == None
      ensures reply.Threw? ==> contexts == old(contexts) && error == Some(GetDefaultFailed)
    {
      loading := true;
      error := None;
      if reply.Threw? {
        error := Some(GetDefaultFailed);
      } else {
        var index := IndexOf(contexts, reply.value.id);
        if index != -1 {
          contexts := contexts[index := reply.value];
        } else {
          contexts := contexts + [reply.value];
        }
      }
      loading := false;
      r := reply;
    }

    method ClearError()
      modifies this
      ensures error == None
      ensures contexts == old(contexts) && currentContext == old(currentContext) && loading == old(loading)
    {
      error := None;
    }

    method ClearCurrentContext()
      modifies this
      ensures currentContext == None
      ensures contexts == old(contexts) && loading == old(loading) && error == old(error)
    {
      currentContext := None;
    }
  }
}
