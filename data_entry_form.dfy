/**
 * The data-entry form: content and optional context sent to the store
 * endpoint; the returned id is shown and passed to the parent's callback.
 */
module DataEntryForm {
  import opened Wrappers
  import opened JsText

  const EmptyContentError := "Content cannot be empty"
  const StoreError := "Failed to store data. Please try again."

  /** The client call a submission makes. */
  datatype StoreCall = StoreData(content: string, context: string)

  class Form {
    /** Whether the parent passed `onDataStored`. */
    const hasCallback: bool
    var content: string
    var context: string
    var isLoading: bool
    var resultId: Option<string>
    var error: Option<string>
    /** The ids passed to `onDataStored`, in call order. */
    var notified: seq<string>

    constructor (hasCallback: bool)
      ensures this.hasCallback == hasCallback
      ensures content == "" && context == "" && !isLoading && resultId == None && error == None
      ensures notified == []
    {
      this.hasCallback := hasCallback;
      content, context, isLoading, resultId, error := "", "", false, None, None;
      notified := [];
    }

    /**
     * Submits the form. `reply` is how the awaited store call settles, and
     * `callbackThrows` whether `onDataStored` throws when it is called.
     * Returns the call made, or `None` when the content is blank; a blank
     * context does not stop the call.
     */
    method HandleSubmit(reply: Outcome<string>, callbackThrows: bool) returns (call: Option<StoreCall>)
      modifies this`content, this`context, this`isLoading, this`resultId, this`error, this`notified
      ensures call == if IsBlank(old(content)) then None else Some(StoreData(old(content), old(context)))
      ensures IsBlank(old(content)) ==>
        && error == Some(EmptyContentError) && isLoading == old(isLoading)
        && content == old(content) && context == old(context)
        && resultId == old(resultId) && notified == old(notified)
      ensures !IsBlank(old(content)) ==> !isLoading
      ensures !IsBlank(old(content)) && reply.Ok? ==>
        && resultId == Some(reply.value)
        && content == "" && context == ""
        && notified == old(notified) + (if hasCallback then [reply.value] else [])
        && error == (if hasCallback && callbackThrows then Some(StoreError) else None)
      ensures !IsBlank(old(content)) && reply.Fail? ==>
        && error == Some(StoreError)
        && content == old(content) && context == old(context)
        && resultId == old(resultId) && notified == old(notified)
    {
      if IsBlank(content) {
        error := Some(EmptyContentError);
        return None;
      }
      isLoading := true;
      error := None;
      call := Some(StoreData(content, context));
      match reply {
        case Ok(id) =>
          resultId := Some(id);
          content := "";
          context := "";
          if hasCallback {
            notified := notified + [id];
            if callbackThrows {
              // The `catch` reports the callback's throw as a failed store.
              error := Some(StoreError);
            }
          }
        case Fail =>
          error := Some(StoreError);
      }
      isLoading := false;
    }
  }
}
