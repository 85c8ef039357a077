/**
 * The filter bar of the rooms page: one button per base filter type and
 * one per known tag. A button is highlighted when the active filter is
 * the one it emits.
 */
module RoomFilters {
  import opened Base
  import opened Rooms

  /**
   * `isFilterActive(activeFilter, type, value)`: a button of another type
   * is never active; a tag button is active exactly when its tag is the
   * active value; a button of any other type is active whatever the value.
   */
  function IsFilterActive(active: RoomFilter, kind: string, value: Option<string>): (r: bool)
    ensures active.kind != kind ==> !r
    ensures kind == "tag" ==> (r <==> active.kind == "tag" && active.value == value)
    ensures kind != "tag" ==> (r <==> active.kind == kind)
  {
    active.kind == kind && (kind == "tag" ==> active.value == value)
  }

  /** The filter a base button emits: its type, no value. */
  function BaseButtonFilter(kind: string): (f: RoomFilter)
    ensures f.kind == kind && f.value.None?
  {
    RoomFilter(kind, None)
  }

  /** The filter a tag button emits. */
  function TagButtonFilter(tag: string): (f: RoomFilter)
    ensures f.kind == "tag" && f.value == Some(tag)
  {
    RoomFilter("tag", Some(tag))
  }

  /** The button just clicked is the active one, and no other tag button is. */
  lemma ClickedButtonIsActive(kind: string, tag: string, other: string)
    ensures IsFilterActive(BaseButtonFilter(kind), kind, None)
    ensures IsFilterActive(TagButtonFilter(tag), "tag", Some(tag))
    ensures other != tag ==> !IsFilterActive(TagButtonFilter(tag), "tag", Some(other))
  {
  }

  /** Clicking a non-empty tag's button lists exactly the rooms carrying it, in page order. */
  lemma TagButtonNarrows(rooms: seq<Room>, tag: string)
    requires tag != ""
    ensures var r := FilterRooms(rooms, TagButtonFilter(tag));
      && Subseq(r, rooms)
      && (forall x :: x in r <==> x in rooms && tag in x.tags)
      && (forall x :: multiset(r)[x] == if tag in x.tags then multiset(rooms)[x] else 0)
  {
  }
}
