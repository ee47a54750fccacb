/**
 * The history page: lists the stored generations, shows the selected one,
 * and deletes one entry or all of them.
 */
module HistoryForm {
  import opened Wrappers
  import opened History

  /** The list shows at most this many characters of each prompt. */
  const ListWidth := 80

  /** The list label of a stored prompt. */
  function ListPreview(prompt: string): (r: string)
    ensures |prompt| <= ListWidth ==> r == prompt
    ensures |prompt| > ListWidth ==>
      |r| == ListWidth + 3 && r[..ListWidth] == prompt[..ListWidth] && r[ListWidth..] == "..."
  {
    Preview(prompt, ListWidth)
  }

  class View {
    var history: seq<HistoryItem>
    var selectedItem: Option<HistoryItem>
    const storage: LocalStorage

    /**
     * The list shown and the list stored both stay within `Capacity`, and
     * the selected entry is one of the listed ones.
     */
    predicate Valid()
      reads this, storage
    {
      && |history| <= Capacity && Bounded(storage.history)
      && (selectedItem.Some? ==> selectedItem.value in history)
    }

    /**
     * Mounting: the list starts empty and the mount-time effect replaces it
     * by the stored list when the slot parses; otherwise it stays empty.
     */
    constructor Mount(storage: LocalStorage)
      ensures this.storage == storage && selectedItem == None
      ensures storage.history.Stored? ==> history == storage.history.items
      ensures !storage.history.Stored? ==> history == []
      ensures Bounded(storage.history) ==> Valid()
    {
      this.storage := storage;
      selectedItem := None;
      history := Loaded(storage.history, []);
    }

    /** Empties the list, drops the selection and removes the slot. */
    method ClearHistory()
      modifies this`history, this`selectedItem, storage
      ensures history == [] && selectedItem == None && storage.history == Missing
      ensures Valid()
    {
      history := [];
      selectedItem := None;
      storage.history := Missing;
    }

    /**
     * Deletes every entry with `id` from the shown list and writes that list
     * to the slot; the selection is dropped exactly when it had that id.
     */
    method DeleteItem(id: string)
      modifies this`history, this`selectedItem, storage
      ensures history == Without(old(history), id)
      ensures storage.history == Stored(history)
      ensures selectedItem == if old(selectedItem).Some? && old(selectedItem).value.id == id then None else old(selectedItem)
      ensures !HasId(old(history), id) ==> history == old(history)
      ensures old(Valid()) && !HasId(old(history), id) ==> selectedItem == old(selectedItem)
      ensures old(Valid()) ==> Valid()
    {
      var newHistory := Without(history, id);
      history := newHistory;
      storage.history := Stored(newHistory);
      if selectedItem.Some? && selectedItem.value.id == id {
        selectedItem := None;
      }
      if !HasId(old(history), id) {
        WithoutAbsent(old(history), id);
      }
    }

    /** Clicking a listed entry selects it for the detail pane. */
    method Select(item: HistoryItem)
      modifies this`selectedItem
      ensures selectedItem == Some(item)
      ensures old(Valid()) && item in history ==> Valid()
    {
      selectedItem := Some(item);
    }
  }

  /**
   * Deleting twice with the same id: the second call leaves the list as
   * the first call left it.
   */
  method DeleteTwice(storage: LocalStorage, id: string) returns (once: seq<HistoryItem>, twice: seq<HistoryItem>)
    modifies storage
    ensures once == twice
  {
    var view := new View.Mount(storage);
    view.DeleteItem(id);
    once := view.history;
    view.DeleteItem(id);
    twice := view.history;
    // `once` has no entry with `id` left, so the second delete finds nothing to remove.
    WithoutAbsent(once, id);
  }
}
