/**
 * The text-generation form: a prompt box whose submission calls the
 * generate endpoint, records the result in the shared history slot, and a
 * sidebar listing that history for replay or deletion.
 */
module TextGenerationForm {
  import opened Wrappers
  import opened JsText
  import opened History

  const EmptyPromptError := "Prompt cannot be empty"
  const GenerateError := "Failed to generate text. Please try again."

  /** The sidebar shows at most this many characters of each stored prompt. */
  const SidebarWidth := 60

  /** The sidebar label of a stored prompt. */
  function SidebarPreview(prompt: string): (r: string)
    ensures |prompt| <= SidebarWidth ==> r == prompt
    ensures |prompt| > SidebarWidth ==>
      |r| == SidebarWidth + 3 && r[..SidebarWidth] == prompt[..SidebarWidth] && r[SidebarWidth..] == "..."
  {
    Preview(prompt, SidebarWidth)
  }

  class Form {
    var prompt: string
    var generatedText: Option<string>
    var isLoading: bool
    var error: Option<string>
    var history: seq<HistoryItem>
    var selected: Option<HistoryItem>
    const storage: LocalStorage

    /** The list shown and the list stored both stay within `Capacity`. */
    predicate Valid()
      reads this, storage
    {
      |history| <= Capacity && Bounded(storage.history)
    }

    /** The initial state, followed by the mount-time `loadHistory`. */
    constructor Mount(storage: LocalStorage)
      ensures this.storage == storage
      ensures prompt == "" && generatedText == None && !isLoading && error == None && selected == None
      ensures history == Loaded(storage.history, [])
      ensures Bounded(storage.history) ==> Valid()
    {
      this.storage := storage;
      prompt, generatedText, isLoading, error := "", None, false, None;
      history, selected := [], None;
      new;
      LoadHistory();
    }

    /**
     * Replaces the shown list by the stored one; an absent or unparsable
     * slot is logged and leaves the list as it was.
     */
    method LoadHistory()
      modifies this`history
      ensures storage.history.Stored? ==> history == storage.history.items
      ensures !storage.history.Stored? ==> history == old(history)
      ensures old(Valid()) ==> Valid()
    {
      history := Loaded(storage.history, history);
    }

    /**
     * Submits the prompt. `reply` is how the awaited generate call settles;
     * `newId` and `now` stand for the generated id and the ISO clock reading.
     * Returns the prompt sent to the backend, or `None` when no call is made.
     */
    method HandleSubmit(newId: string, now: string, reply: Outcome<string>) returns (request: Option<string>)
      modifies this`prompt, this`generatedText, this`isLoading, this`error, this`history, storage
      ensures request == if IsBlank(old(prompt)) then None else Some(old(prompt))
      ensures IsBlank(old(prompt)) ==>
        && error == Some(EmptyPromptError)
        && prompt == old(prompt) && generatedText == old(generatedText) && isLoading == old(isLoading)
        && history == old(history) && storage.history == old(storage.history)
      ensures !IsBlank(old(prompt)) ==> !isLoading
      ensures !IsBlank(old(prompt)) && reply.Fail? ==>
        && error == Some(GenerateError) && generatedText == None
        && prompt == old(prompt) && history == old(history) && storage.history == old(storage.history)
      ensures !IsBlank(old(prompt)) && reply.Ok? && old(storage.history).Corrupt? ==>
        && error == Some(GenerateError) && generatedText == Some(reply.value)
        && prompt == old(prompt) && history == old(history) && storage.history == old(storage.history)
      ensures !IsBlank(old(prompt)) && reply.Ok? && !old(storage.history).Corrupt? ==>
        var item := HistoryItem(newId, Trim(old(prompt)), reply.value, now);
        && storage.history == Stored(Recorded(Existing(old(storage.history)), item))
        && history == storage.history.items
        && prompt == "" && error == None && generatedText == Some(reply.value)
        && Valid()
      ensures old(Valid()) ==> Valid()
    {
      if IsBlank(prompt) {
        error := Some(EmptyPromptError);
        request := None;
        return;
      }
      request := Some(prompt);
      isLoading := true;
      error := None;
      generatedText := None;
      match reply {
        case Fail =>
          error := Some(GenerateError);
        case Ok(text) =>
          generatedText := Some(text);
          var item := HistoryItem(newId, Trim(prompt), text, now);
          var threw := SaveToHistory(item);
          if threw {
            error := Some(GenerateError);
          } else {
            prompt := "";
          }
      }
      isLoading := false;
    }

    /**
     * The "save to history" step of a successful submission: reads the slot
     * (not the shown list), puts `item` in front, cuts the array to
     * `Capacity`, writes it back and reloads. `threw` is set when the slot
     * does not parse, in which case nothing is written.
     */
    method SaveToHistory(item: HistoryItem) returns (threw: bool)
      modifies this`history, storage
      ensures threw == old(storage.history).Corrupt?
      ensures threw ==> history == old(history) && storage.history == old(storage.history)
      ensures !threw ==>
        && storage.history == Stored(Recorded(Existing(old(storage.history)), item))
        && history == storage.history.items
    {
      var existing := storage.history;
      if existing.Corrupt? {
        return true;
      }
      var historyArray := Existing(existing);
      historyArray := [item] + historyArray;
      if |historyArray| > Capacity {
        historyArray := historyArray[..Capacity];
      }
      storage.history := Stored(historyArray);
      LoadHistory();
      threw := false;
    }

    /**
     * Enter without Shift in the prompt box: submits only when nothing is
     * loading and the prompt is not blank, and otherwise does nothing at all.
     */
    method KeyDown(key: string, shiftKey: bool, newId: string, now: string, reply: Outcome<string>)
      returns (request: Option<string>)
      modifies this`prompt, this`generatedText, this`isLoading, this`error, this`history, storage
      ensures request.Some? <==> key == "Enter" && !shiftKey && !old(isLoading) && !IsBlank(old(prompt))
      ensures request.Some? ==> request == Some(old(prompt)) && !isLoading
      ensures request.None? ==> unchanged(this) && unchanged(storage)
      ensures old(Valid()) ==> Valid()
    {
      if key == "Enter" && !shiftKey && !isLoading && !IsBlank(prompt) {
        request := HandleSubmit(newId, now, reply);
      } else {
        request := None;
      }
    }

    /** Empties the shown list, drops the selection and removes the slot. */
    method ClearHistory()
      modifies this`history, this`selected, storage
      ensures history == [] && selected == None && storage.history == Missing
      ensures Valid()
    {
      history := [];
      selected := None;
      storage.history := Missing;
    }

    /**
     * Deletes every entry with `id` from the shown list, writes that list to
     * the slot, and drops the selection exactly when it had that id.
     */
    method DeleteHistoryItem(id: string)
      modifies this`history, this`selected, storage
      ensures history == Without(old(history), id)
      ensures storage.history == Stored(history)
      ensures selected == if old(selected).Some? && old(selected).value.id == id then None else old(selected)
      ensures old(Valid()) ==> Valid()
    {
      var newHistory := Without(history, id);
      history := newHistory;
      storage.history := Stored(newHistory);
      if selected.Some? && selected.value.id == id {
        selected := None;
      }
    }

    /** Typing in the prompt box. */
    method SetPrompt(value: string)
      modifies this`prompt
      ensures prompt == value
    {
      prompt := value;
    }

    /** Replays a stored entry: its prompt and response are shown, no call is made. */
    method LoadHistoryItem(item: HistoryItem)
      modifies this`prompt, this`generatedText, this`selected
      ensures prompt == item.prompt && generatedText == Some(item.response) && selected == Some(item)
    {
      prompt := item.prompt;
      generatedText := Some(item.response);
      selected := Some(item);
    }
  }
}
