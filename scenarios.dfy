/**
 * Both components working on one storage area, to show what their
 * contracts imply together.
 */
module Scenarios {
  import opened Wrappers
  import opened JsText
  import opened History
  import TextGenerationForm
  import HistoryForm

  /** Clearing and then reloading leaves an empty list. */
  method ClearThenReload(storage: LocalStorage) returns (shown: seq<HistoryItem>)
    modifies storage
    ensures shown == [] && storage.history == Missing
  {
    var form := new TextGenerationForm.Form.Mount(storage);
    form.ClearHistory();
    form.LoadHistory();
    shown := form.history;
  }

  /**
   * A deletion on the history page, then a generation in a form mounted
   * earlier: the form starts from the slot the page wrote, not from the
   * list it loaded on mount.
   */
  method DeleteThenGenerate(storage: LocalStorage, id: string, typed: string, newId: string, now: string, text: string)
    returns (shown: seq<HistoryItem>)
    requires !IsBlank(typed) && storage.history.Stored?
    modifies storage
    ensures shown == Recorded(Without(old(storage.history.items), id), HistoryItem(newId, Trim(typed), text, now))
  {
    var form := new TextGenerationForm.Form.Mount(storage);
    var page := new HistoryForm.View.Mount(storage);
    page.DeleteItem(id);
    form.SetPrompt(typed);
    var request := form.HandleSubmit(newId, now, Ok(text));
    shown := form.history;
  }
}
