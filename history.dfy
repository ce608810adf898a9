/**
 * The browsing history as the browser shows and stores it: the dropdown that
 * lists it most recent first under a `'History'` heading, and the history file
 * read at start-up.
 */
module History {
  import opened Wrappers

  /** The first dropdown item; selecting it does nothing. */
  const Sentinel := "History"

  /** `list(reversed(s))`. */
  function Reversed<T>(s: seq<T>): (r: seq<T>)
    ensures |r| == |s|
  {
    if s == [] then [] else Reversed(s[1..]) + [s[0]]
  }

  /** Position `k` of the reversed sequence holds the `k`-th element from the end. */
  lemma {:induction false} ReversedIndex<T>(s: seq<T>, k: int)
    requires 0 <= k < |s|
    ensures Reversed(s)[k] == s[|s| - 1 - k]
  {
    if k < |s| - 1 {
      ReversedIndex(s[1..], k);
    }
  }

  /** Appending at the end of the history puts the new entry at the front of the reversal. */
  lemma {:induction false} ReversedAppend<T>(s: seq<T>, x: T)
    ensures Reversed(s + [x]) == [x] + Reversed(s)
  {
    if s != [] {
      assert (s + [x])[1..] == s[1..] + [x];
      ReversedAppend(s[1..], x);
    }
  }

  /** Reversing twice gives the sequence back. */
  lemma {:induction false} ReversedInvolution<T>(s: seq<T>)
    ensures Reversed(Reversed(s)) == s
  {
    if s != [] {
      ReversedAppend(Reversed(s[1..]), s[0]);
      ReversedInvolution(s[1..]);
    }
  }

  /**
   * The items `update_history_dropdown` puts in the dropdown: the sentinel,
   * then every history entry, the most recent first.
   */
  function DropdownItems(history: seq<string>): (items: seq<string>)
    ensures |items| == |history| + 1 && items[0] == Sentinel
    ensures forall k | 1 <= k < |items| :: items[k] == history[|history| - k]
  {
    var items := [Sentinel] + Reversed(history);
    forall k | 1 <= k < |items| ensures items[k] == history[|history| - k] {
      ReversedIndex(history, k - 1);
    }
    items
  }

  /** A new visit shows up first under the sentinel, ahead of all earlier entries. */
  lemma DropdownAfterVisit(history: seq<string>, url: string)
    ensures DropdownItems(history + [url]) == [Sentinel, url] + DropdownItems(history)[1..]
  {
    ReversedAppend(history, url);
  }

  /** `load_history`: the stored list, or an empty history when there is no file. */
  function LoadHistory(file: Option<seq<string>>): (history: seq<string>)
    ensures file.None? ==> history == []
    ensures file.Some? ==> history == file.value
  {
    if file.Some? then file.value else []
  }
}
