/**
 * The song search box: every keystroke cancels the pending search and,
 * unless the text is blank, arms a new one 500 ms later; a blank text
 * clears the results at once. Timers are explicit handles.
 */
module SongSearch {
  import opened Base
  import opened SpotifySearch

  const DebounceDelayMs: nat := 500

  class SearchBox {
    var query: string
    var isOpen: bool
    /** The handle held in the debounce ref, if any; it is never reset. */
    var debounceTimer: Option<nat>
    /** Armed searches not yet fired or cancelled: handle to the text it will search. */
    var pending: map<nat, string>
    var nextTimer: nat
    /** Every text handed to `onSearch`, oldest first. */
    var searches: seq<string>
    /** Every result handed to `onAddSong`, oldest first. */
    var added: seq<SearchResult>

    /** Only the timer in the ref can be pending, so at most one is. */
    ghost predicate Valid()
      reads this
    {
      && (forall h :: h in pending ==> debounceTimer == Some(h))
      && (forall h :: h in pending ==> h < nextTimer)
      && (debounceTimer.Some? ==> debounceTimer.value < nextTimer)
    }

    constructor ()
      ensures Valid()
      ensures query == "" && !isOpen && debounceTimer == None && pending == map[] && searches == [] && added == []
    {
      query := "";
      isOpen := false;
      debounceTimer := None;
      pending := map[];
      nextTimer := 0;
      searches := [];
      added := [];
    }

    /** `handleInputChange` with the input's new text `v`. */
    method HandleInputChange(v: string)
      requires Valid()
      modifies this
      ensures Valid()
      ensures query == v && (isOpen <==> |v| > 0) && added == old(added)
      ensures IsBlank(v) ==> pending == map[] && searches == old(searches) + [""] && debounceTimer == old(debounceTimer)
      ensures !IsBlank(v) ==>
        pending == map[old(nextTimer) := v] && debounceTimer == Some(old(nextTimer)) && searches == old(searches)
    {
      query := v;
      isOpen := |v| > 0;
      OnlyRefPending(pending, debounceTimer);
      if debounceTimer.Some? {
        pending := pending - {debounceTimer.value};
      }
      assert pending == map[];
      if IsBlank(v) {
        searches := searches + [""];
        return;
      }
      var h := nextTimer;
      nextTimer := nextTimer + 1;
      pending := pending[h := v];
      debounceTimer := Some(h);
    }

    /** Timer `h` fires, DebounceDelayMs after it was armed: it searches the text it captured. */
    method TimerFired(h: nat)
      requires Valid() && h in pending
      modifies this
      ensures Valid()
      ensures searches == old(searches) + [old(pending[h])] && pending == map[]
      ensures query == old(query) && isOpen == old(isOpen) && debounceTimer == old(debounceTimer) && added == old(added)
    {
      searches := searches + [pending[h]];
      pending := pending - {h};
    }

    /** `handleAddSong`: hand the song on, clear and close; a pending search is left armed. */
    method HandleAddSong(song: SearchResult)
      requires Valid()
      modifies this
      ensures Valid()
      ensures added == old(added) + [song] && query == "" && !isOpen
      ensures pending == old(pending) && searches == old(searches) && debounceTimer == old(debounceTimer)
    {
      added := added + [song];
      query := "";
      isOpen := false;
    }

    method Unmount()
      requires Valid()
      modifies this
      ensures Valid()
      ensures pending == map[] && searches == old(searches) && query == old(query)
      ensures isOpen == old(isOpen) && added == old(added)
      ensures debounceTimer == old(debounceTimer) && nextTimer == old(nextTimer)
    {
      if debounceTimer.Some? {
        pending := pending - {debounceTimer.value};
      }
    }
  }

  /** The blank texts of `values`, in order: each reaches `onSearch` as "" at once. */
  function BlankClears(values: seq<string>): (r: seq<string>)
    ensures forall i :: 0 <= i < |r| ==> r[i] == ""
    ensures |r| <= |values|
  {
    if values == [] then []
    else BlankClears(values[..|values| - 1]) + (if IsBlank(values[|values| - 1]) then [""] else [])
  }

  /** When only the ref's timer can be pending, cancelling it leaves nothing pending. */
  lemma OnlyRefPending(pending: map<nat, string>, timer: Option<nat>)
    requires forall h :: h in pending ==> timer == Some(h)
    ensures timer.None? ==> pending == map[]
    ensures timer.Some? ==> pending - {timer.value} == map[]
  {
    if timer.Some? {
      assert forall h :: h !in pending - {timer.value};
    } else {
      assert forall h :: h !in pending;
    }
  }

  /** The text left armed after typing `vs`: the last one, unless it is blank. */
  function LastArmed(vs: seq<string>): (r: Option<string>)
    ensures r.Some? <==> vs != [] && !IsBlank(vs[|vs| - 1])
    ensures r.Some? ==> r.value == vs[|vs| - 1]
  {
    if vs == [] || IsBlank(vs[|vs| - 1]) then None else Some(vs[|vs| - 1])
  }

  /** One more keystroke adds one clear exactly when its text is blank. */
  lemma BlankClearsStep(before: seq<string>, values: seq<string>, i: nat)
    requires i < |values|
    ensures IsBlank(values[i]) ==> before + BlankClears(values[..i + 1]) == before + BlankClears(values[..i]) + [""]
    ensures !IsBlank(values[i]) ==> BlankClears(values[..i + 1]) == BlankClears(values[..i])
  {
    assert values[..i + 1][..i] == values[..i];
  }

  /**
   * A burst of keystrokes: only blank texts reach `onSearch` during the
   * burst (as ""), and afterwards at most one search is pending, for the
   * last text, when that text is not blank.
   */
  method TypeBurst(b: SearchBox, values: seq<string>)
    requires b.Valid() && b.pending == map[]
    modifies b
    ensures b.Valid()
    ensures b.searches == old(b.searches) + BlankClears(values)
    ensures LastArmed(values).Some? ==>
      b.debounceTimer.Some? && b.pending == map[b.debounceTimer.value := LastArmed(values).value]
    ensures LastArmed(values).None? ==> b.pending == map[]
  {
    ghost var before := b.searches;
    ghost var armed: Option<string> := None;
    var i := 0;
    while i < |values|
      invariant 0 <= i <= |values|
      invariant b.Valid()
      invariant b.searches == before + BlankClears(values[..i])
      invariant armed == LastArmed(values[..i])
      invariant armed.Some? ==> b.debounceTimer.Some? && b.pending == map[b.debounceTimer.value := armed.value]
      invariant armed.None? ==> b.pending == map[]
    {
      BlankClearsStep(before, values, i);
      assert values[..i + 1][i] == values[i];
      b.HandleInputChange(values[i]);
      armed := if IsBlank(values[i]) then None else Some(values[i]);
      i := i + 1;
    }
    assert values[..i] == values;
    assert armed == LastArmed(values);
  }

  /** After a burst ending in a non-blank text, the one search that fires is for that text. */
  method BurstThenFire(b: SearchBox, values: seq<string>)
    requires b.Valid() && b.pending == map[]
    requires values != [] && !IsBlank(values[|values| - 1])
    modifies b
    ensures b.searches == old(b.searches) + BlankClears(values) + [values[|values| - 1]]
    ensures b.pending == map[]
  {
    TypeBurst(b, values);
    b.TimerFired(b.debounceTimer.value);
  }
}
