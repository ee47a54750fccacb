/**
 * The generation history shared by the text-generation form and the
 * history page: an ordered list, newest first, kept in one browser
 * storage slot under the key `HistoryKey` as a serialised array.
 */
module History {
  import opened Wrappers
  import opened JsText

  /** The storage key both components read and write. */
  const HistoryKey := "ai-agent-history"

  /** The most entries a successful generation leaves in the slot. */
  const Capacity := 50

  /**
   * One past generation. The timestamp is kept as the text it is stored as;
   * the model does not track its conversion to a `Date` on load and back to
   * text on save.
   */
  datatype HistoryItem = HistoryItem(id: string, prompt: string, response: string, timestamp: string)

  /**
   * The storage slot as the components see it after `getItem` and
   * `JSON.parse`: absent (or holding the empty string, which is falsy),
   * a parsed array of items, or text that does not parse to an array.
   */
  datatype Slot = Missing | Stored(items: seq<HistoryItem>) | Corrupt

  /** The browser storage area, reduced to the slot under `HistoryKey`, which `history` stands for. */
  class LocalStorage {
    var history: Slot

    constructor (initial: Slot)
      ensures history == initial
    {
      history := initial;
    }
  }

  /** Every slot this code writes holds at most `Capacity` entries. */
  predicate Bounded(slot: Slot)
  {
    slot.Stored? ==> |slot.items| <= Capacity
  }

  /**
   * The in-memory list after `loadHistory` / the mount-time load: the stored
   * list when the slot parses, otherwise whatever was there before.
   */
  function Loaded(slot: Slot, current: seq<HistoryItem>): (r: seq<HistoryItem>)
    ensures slot.Stored? ==> r == slot.items
    ensures Bounded(slot) && |current| <= Capacity ==> |r| <= Capacity
    ensures !slot.Stored? ==> r == current
  {
    if slot.Stored? then slot.items else current
  }

  /** The list `handleSubmit` starts from: the parsed slot, or `[]` when it is absent. */
  function Existing(slot: Slot): (r: seq<HistoryItem>)
    requires !slot.Corrupt?
    ensures Bounded(slot) ==> |r| <= Capacity
    ensures slot.Stored? ==> r == slot.items
    ensures slot == Missing ==> r == []
  {
    if slot.Stored? then slot.items else []
  }

  /** Keeps the first `Capacity` entries, as `splice(Capacity)` does. */
  function Cap(a: seq<HistoryItem>): (r: seq<HistoryItem>)
    ensures |r| == if |a| > Capacity then Capacity else |a|
    ensures r <= a
  {
    if |a| > Capacity then a[..Capacity] else a
  }

  /**
   * The list written back after one successful generation: the new item
   * first, then as many of the previously stored items, in their order,
   * as fit under the cap.
   */
  function Recorded(stored: seq<HistoryItem>, item: HistoryItem): (r: seq<HistoryItem>)
    ensures 1 <= |r| <= Capacity
    ensures |r| == if |stored| < Capacity then |stored| + 1 else Capacity
    ensures r[0] == item
    ensures r[1..] == stored[..|r| - 1]
  {
    Cap([item] + stored)
  }

  /** With fewer than `Capacity` stored entries nothing is evicted. */
  lemma RecordedKeepsAll(stored: seq<HistoryItem>, item: HistoryItem)
    requires |stored| < Capacity
    ensures Recorded(stored, item) == [item] + stored
  {
  }

  /**
   * At `Capacity` the oldest (last) entry is evicted and the remaining
   * entries each move down one place.
   */
  lemma RecordedEvictsOldest(stored: seq<HistoryItem>, item: HistoryItem)
    requires |stored| == Capacity
    ensures |Recorded(stored, item)| == Capacity
    ensures forall i :: 0 <= i < Capacity - 1 ==> Recorded(stored, item)[i + 1] == stored[i]
  {
  }

  /** The list after a run of successful generations, oldest first. */
  function RecordAll(stored: seq<HistoryItem>, items: seq<HistoryItem>): (r: seq<HistoryItem>)
    ensures items == [] ==> r == stored
    ensures items != [] ==> |r| == if |stored| + |items| < Capacity then |stored| + |items| else Capacity
    ensures items != [] ==> r[0] == items[|items| - 1]
    decreases |items|
  {
    if items == [] then stored
    else Recorded(RecordAll(stored, items[..|items| - 1]), items[|items| - 1])
  }

  /** `s` back to front: the last element first. */
  function Reversed(s: seq<HistoryItem>): (r: seq<HistoryItem>)
    ensures |r| == |s|
    ensures forall i :: 0 <= i < |s| ==> r[i] == s[|s| - 1 - i]
  {
    if s == [] then [] else [s[|s| - 1]] + Reversed(s[..|s| - 1])
  }

  /** Cutting the list before putting an entry in front and cutting again changes nothing. */
  lemma {:induction false} CapPrepend(x: HistoryItem, a: seq<HistoryItem>)
    ensures Cap([x] + Cap(a)) == Cap([x] + a)
  {
    if |a| > Capacity {
      assert ([x] + a)[..Capacity] == [x] + a[..Capacity - 1];
      assert ([x] + a[..Capacity])[..Capacity] == [x] + a[..Capacity - 1];
    }
  }

  /**
   * However many generations succeed in a row, the slot holds the newest
   * first, then the older ones, then what was stored before, cut at `Capacity`.
   */
  lemma {:induction false} RecordAllNewestFirst(stored: seq<HistoryItem>, items: seq<HistoryItem>)
    requires items != []
    ensures RecordAll(stored, items) == Cap(Reversed(items) + stored)
  {
    var init, last := items[..|items| - 1], items[|items| - 1];
    var before := Reversed(init) + stored;
    assert Reversed(items) + stored == [last] + before by {
      assert Reversed(items) == [last] + Reversed(init);
    }
    if init == [] {
      assert before == stored;
    } else {
      calc {
        RecordAll(stored, items);
        Recorded(RecordAll(stored, init), last);
        { RecordAllNewestFirst(stored, init); }
        Cap([last] + Cap(before));
        { CapPrepend(last, before); }
        Cap([last] + before);
      }
    }
  }

  /** `a` can be obtained from `b` by dropping elements. */
  predicate IsSubsequence(a: seq<HistoryItem>, b: seq<HistoryItem>)
    decreases |b|
  {
    if a == [] then true
    else if b == [] then false
    else if a[0] == b[0] then IsSubsequence(a[1..], b[1..])
    else IsSubsequence(a, b[1..])
  }

  /**
   * `history.filter((item) => item.id !== id)`: every item with that id
   * goes, every other item stays, as often as it occurred and in its order.
   */
  function Without(items: seq<HistoryItem>, id: string): (r: seq<HistoryItem>)
    ensures |r| <= |items|
    ensures forall i :: 0 <= i < |r| ==> r[i].id != id
    ensures forall x :: multiset(r)[x] == if x.id == id then 0 else multiset(items)[x]
    ensures IsSubsequence(r, items)
  {
    if items == [] then []
    else
      var rest := Without(items[1..], id);
      assert items == [items[0]] + items[1..];
      if items[0].id == id then
        assert rest == [] || rest[0] != items[0];
        rest
      else
        [items[0]] + rest
  }

  /** Some entry of the list has this id. */
  predicate HasId(items: seq<HistoryItem>, id: string)
  {
    exists i :: 0 <= i < |items| && items[i].id == id
  }

  /** Deleting an id no entry has leaves the list as it is. */
  lemma {:induction false} WithoutAbsent(items: seq<HistoryItem>, id: string)
    requires !HasId(items, id)
    ensures Without(items, id) == items
  {
    if items != [] {
      assert !HasId(items[1..], id) by {
        forall i | 0 <= i < |items[1..]| ensures items[1..][i].id != id {
          assert items[1..][i] == items[i + 1];
        }
      }
      WithoutAbsent(items[1..], id);
    }
  }

  /** Deleting the same id twice is deleting it once. */
  lemma WithoutIdempotent(items: seq<HistoryItem>, id: string)
    ensures Without(Without(items, id), id) == Without(items, id)
  {
    WithoutAbsent(Without(items, id), id);
  }

  /** All ids in the list differ. */
  predicate UniqueIds(items: seq<HistoryItem>)
  {
    forall i, j :: 0 <= i < j < |items| ==> items[i].id != items[j].id
  }

  /** With unique ids, deleting a present id removes exactly one entry. */
  lemma {:induction false} WithoutUniqueRemovesOne(items: seq<HistoryItem>, id: string)
    requires UniqueIds(items) && HasId(items, id)
    ensures |Without(items, id)| == |items| - 1
  {
    if items[0].id == id {
      assert !HasId(items[1..], id) by {
        forall i | 0 <= i < |items[1..]| ensures items[1..][i].id != id {
          assert items[1..][i] == items[i + 1];
        }
      }
      WithoutAbsent(items[1..], id);
    } else {
      var i :| 0 <= i < |items| && items[i].id == id;
      assert items[1..][i - 1].id == id;
      WithoutUniqueRemovesOne(items[1..], id);
    }
  }

  /**
   * `prompt.slice(0, width)` followed by "..." exactly when the prompt is
   * longer than `width`.
   */
  function Preview(prompt: string, width: nat): (r: string)
    ensures |prompt| <= width ==> r == prompt
    ensures |prompt| > width ==> |r| == width + 3 && r[..width] == prompt[..width] && r[width..] == "..."
  {
    Slice(prompt, width) + (if |prompt| > width then "..." else "")
  }
}
