/** The search bar (components/search-bar.tsx): a text input with a
    most-recently-used history of at most ten entries. The history is
    restored when the component mounts; saving is ignored until then. */
module SearchBar {
  import opened Wrappers
  import opened Text
  import opened Seqs
  import opened Recent

  /** `MAX_HISTORY` */
  const MaxHistory: nat := 10

  /** `saveToHistory(keyword)` on a history: nothing before mounting, then
      move-to-front with the cap. */
  function Saved(mounted: bool, history: seq<string>, keyword: string): seq<string>
  {
    if mounted then MoveToFront(history, keyword, MaxHistory) else history
  }

  /** Before mounting, saving changes nothing. After it, the keyword is
      first, at most ten entries remain, every entry was the keyword or an
      earlier one, and a history without duplicates stays without them. */
  lemma SavedSpec(mounted: bool, history: seq<string>, keyword: string)
    ensures !mounted ==> Saved(mounted, history, keyword) == history
    ensures mounted ==> var r := Saved(mounted, history, keyword);
      && 0 < |r| <= MaxHistory
      && r[0] == keyword
      && (forall x :: x in r ==> x == keyword || x in history)
      && (NoDup(history) ==> NoDup(r))
  {
    if mounted {
      MoveToFrontSpec(history, keyword, MaxHistory);
    }
  }

  /** Saving the entry that is already first changes nothing. */
  lemma SaveFirstAgain(history: seq<string>, keyword: string)
    requires NoDup(history) && |history| <= MaxHistory
    requires history != [] && history[0] == keyword
    ensures Saved(true, history, keyword) == history
  {
    var rest := Without(history, keyword);
    assert rest == history[1..] by {
      WithoutDistinctTail(history);
    }
    assert [keyword] + rest == history;
  }

  /** Removing the head of a duplicate-free list leaves its tail. */
  lemma {:induction false} WithoutDistinctTail(xs: seq<string>)
    requires NoDup(xs) && xs != []
    ensures Without(xs, xs[0]) == xs[1..]
  {
    var q := xs[0];
    assert q !in xs[1..] by {
      forall k | 0 <= k < |xs[1..]| ensures xs[1..][k] != q {
        assert xs[1..][k] == xs[k + 1];
      }
    }
    WithoutAbsent(xs[1..], q);
  }

  class Bar {
    /** The text field. */
    var input: string
    /** `searchHistory` */
    var history: seq<string>
    var mounted: bool

    constructor()
      ensures input == "" && history == [] && !mounted
    {
      input := "";
      history := [];
      mounted := false;
    }

    /** The mount effect. `stored` is the saved array, or None when the
        entry is missing, empty, not JSON or not an array. */
    method Mount(stored: Option<seq<string>>)
      modifies this`mounted, this`history
      ensures mounted
      ensures history == if stored.Some? then stored.value else old(history)
    {
      mounted := true;
      if stored.Some? {
        history := stored.value;
      }
    }

    /** The input's `onChange`. */
    method Type(text: string)
      modifies this`input
      ensures input == text
    {
      input := text;
    }

    /** `saveToHistory(keyword)` */
    method SaveToHistory(keyword: string)
      modifies this`history
      ensures history == Saved(mounted, old(history), keyword)
    {
      if !mounted {
        return;
      }
      var filtered := Without(history, keyword);
      history := Take([keyword] + filtered, MaxHistory);
    }

    /** `handleSubmit`: the keyword searched for, if any. Blank input does
        nothing; otherwise the trimmed input is searched, saved and the
        field cleared. */
    method HandleSubmit() returns (searched: Option<string>)
      modifies this`input, this`history
      ensures searched == NonBlank(old(input))
      ensures searched.None? ==> input == old(input) && history == old(history)
      ensures searched.Some? ==> input == "" && history == Saved(mounted, old(history), searched.value)
    {
      searched := NonBlank(input);
      if searched.None? {
        return;
      }
      SaveToHistory(searched.value);
      input := "";
    }

    /** `handleHistoryClick(keyword)`: search the entry and move it to the
        front. */
    method HandleHistoryClick(keyword: string) returns (searched: string)
      modifies this`history
      ensures searched == keyword
      ensures history == Saved(mounted, old(history), keyword)
    {
      searched := keyword;
      SaveToHistory(keyword);
    }

    /** `clearHistory` */
    method ClearHistory()
      modifies this`history
      ensures history == []
    {
      history := [];
    }
  }
}
