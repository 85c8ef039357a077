/**
 * The tag picker: a text input with a dropdown of matching known tags and
 * a "create" option, keyboard navigation over the options, and a list of
 * selected tags owned by the caller (`value`), to which the picker emits
 * every new list it wants.
 */
module TagsInput {
  import opened Base

  /**
   * The highlighted option. The index is a JavaScript number: a step
   * taken while there are no options divides by zero and leaves NaN,
   * which stays NaN until the highlight is reset.
   */
  datatype Highlight = At(index: nat) | NotANumber

  datatype Key = ArrowDown | ArrowUp | Enter | Escape | Backspace | OtherKey

  /** Whether known tag `t` is offered for `input`: not yet selected, and matching case-insensitively. */
  predicate Offered(input: string, value: seq<string>, t: string)
  {
    t !in value && Contains(Lower(t), Normalize(input))
  }

  /** The dropdown's known tags: the unselected ones whose lowercase form contains the normalised input. */
  function FilteredTags(input: string, available: seq<string>, value: seq<string>): (r: seq<string>)
    ensures Subseq(r, available)
    ensures forall t :: t in r <==> t in available && t !in value && Contains(Lower(t), Normalize(input))
  {
    var keep := (t: string) => Offered(input, value, t);
    FilterCounts(available, keep);
    Filter(available, keep)
  }

  /** Each offered tag appears as often as among the known tags; the others not at all. */
  lemma FilteredTagsCounts(input: string, available: seq<string>, value: seq<string>, t: string)
    ensures multiset(FilteredTags(input, available, value))[t] == if Offered(input, value, t) then multiset(available)[t] else 0
  {
    var keep := (u: string) => Offered(input, value, u);
    assert FilteredTags(input, available, value) == Filter(available, keep);
    FilterCounts(available, keep);
  }

  /** The known tags not yet selected. */
  function Unselected(available: seq<string>, value: seq<string>): (r: seq<string>)
    ensures Subseq(r, available)
    ensures forall t :: t in r <==> t in available && t !in value
  {
    var keep := (t: string) => t !in value;
    FilterCounts(available, keep);
    Filter(available, keep)
  }

  lemma {:induction false} FilterSame(s: seq<string>, k1: string -> bool, k2: string -> bool)
    requires forall i :: 0 <= i < |s| ==> k1(s[i]) == k2(s[i])
    ensures Filter(s, k1) == Filter(s, k2)
  {
    if s != [] {
      FilterSame(s[1..], k1, k2);
    }
  }

  /** With blank input every unselected known tag is offered. */
  lemma BlankInputOffersAllUnselected(input: string, available: seq<string>, value: seq<string>)
    requires IsBlank(input)
    ensures FilteredTags(input, available, value) == Unselected(available, value)
  {
    forall i | 0 <= i < |available|
      ensures Offered(input, value, available[i]) == (available[i] !in value)
    {
      assert OccursAt(Lower(available[i]), Normalize(input), 0);
    }
    FilterSame(available, t => Offered(input, value, t), t => t !in value);
  }

  /**
   * The "create" option: a non-blank input whose normal form is neither
   * known nor selected.
   */
  function ShowCreateOption(input: string, available: seq<string>, value: seq<string>): (r: bool)
    ensures r <==> !IsBlank(input) && Normalize(input) !in available && Normalize(input) !in value
  {
    BlankIffTrimEmpty(input);
    |Trim(input)| > 0 && Normalize(input) !in available && Normalize(input) !in value
  }

  /** The list `handleAddTag` emits, if any: the normalised tag appended when it is new and non-empty. */
  function AddTag(value: seq<string>, tag: string): (r: Option<seq<string>>)
    ensures r.Some? <==> Normalize(tag) != "" && Normalize(tag) !in value
    ensures r.Some? ==> r.value == value + [Normalize(tag)]
  {
    var normalized := Normalize(tag);
    if |normalized| > 0 && normalized !in value then Some(value + [normalized]) else None
  }

  /** The list `handleRemoveTag` emits: every occurrence of `tag` gone, the others in order. */
  function RemoveTag(value: seq<string>, tag: string): (r: seq<string>)
    ensures Subseq(r, value)
    ensures tag !in r
    ensures forall t :: t != tag ==> multiset(r)[t] == multiset(value)[t]
  {
    var keep := (t: string) => t != tag;
    FilterCounts(value, keep);
    Filter(value, keep)
  }

  /** Adding never creates a duplicate, and the added tag is selected afterwards. */
  lemma AddTagKeepsNoDup(value: seq<string>, tag: string)
    requires NoDup(value)
    ensures AddTag(value, tag).Some? ==> NoDup(AddTag(value, tag).value) && Normalize(tag) in AddTag(value, tag).value
    ensures AddTag(value, tag).None? ==> Normalize(tag) == "" || Normalize(tag) in value
  {
  }

  /** Removing a tag just added gives the list back. */
  lemma RemoveUndoesAdd(value: seq<string>, tag: string)
    requires AddTag(value, tag).Some?
    ensures RemoveTag(AddTag(value, tag).value, Normalize(tag)) == value
  {
    var n := Normalize(tag);
    FilterAppend(value, [n], t => t != n);
    FilterAllKept(value, t => t != n);
  }

  /** A shown "create" option really creates: adding the input appends its normal form. */
  lemma CreateOptionAppends(input: string, available: seq<string>, value: seq<string>)
    requires ShowCreateOption(input, available, value)
    ensures AddTag(value, input) == Some(value + [Normalize(input)])
    ensures Normalize(input) !in FilteredTags(input, available, value)
  {
  }

  /** `(prev + 1) % totalOptions`. */
  function NextHighlight(h: Highlight, total: nat): (r: Highlight)
    ensures total == 0 || h.NotANumber? ==> r == NotANumber
    ensures total > 0 && h.At? ==> r.At? && r.index < total
    ensures total > 0 && h.At? && h.index + 1 < total ==> r == At(h.index + 1)
    ensures total > 0 && h.At? && h.index + 1 == total ==> r == At(0)
  {
    if total == 0 || h.NotANumber? then NotANumber
    else
      if h.index + 1 < total then ModUnique(h.index + 1, total, 0, h.index + 1); At(JsRem(h.index + 1, total))
      else if h.index + 1 == total then ModUnique(total, total, 1, 0); At(JsRem(h.index + 1, total))
      else At(JsRem(h.index + 1, total))
  }

  /** `(prev - 1 + totalOptions) % totalOptions`. */
  function PrevHighlight(h: Highlight, total: nat): (r: Highlight)
    ensures total == 0 || h.NotANumber? ==> r == NotANumber
    ensures total > 0 && h.At? ==> r.At? && r.index < total
    ensures total > 0 && h.At? && 0 < h.index <= total ==> r == At(h.index - 1)
    ensures total > 0 && h == At(0) ==> r == At(total - 1)
  {
    if total == 0 || h.NotANumber? then NotANumber
    else
      var a := h.index - 1 + total;
      if 0 < h.index <= total then ModUnique(a, total, 1, h.index - 1); At(JsRem(a, total))
      else if h.index == 0 then ModUnique(a, total, 0, total - 1); At(JsRem(a, total))
      else At(JsRem(a, total))
  }

  /** The arrows move cyclically: down from the last option reaches the first, and up undoes down. */
  lemma {:induction false} HighlightCycles(i: nat, total: nat)
    requires i < total
    ensures PrevHighlight(NextHighlight(At(i), total), total) == At(i)
    ensures NextHighlight(PrevHighlight(At(i), total), total) == At(i)
    ensures i == total - 1 ==> NextHighlight(At(i), total) == At(0)
    ensures i == 0 ==> PrevHighlight(At(i), total) == At(total - 1)
  {
    if i + 1 < total {
      ModFacts(i + 1, total);
      ModFacts(i, total);
      assert NextHighlight(At(i), total) == At(i + 1);
    } else {
      ModFacts(0, total);
      ModFacts(i, total);
      assert NextHighlight(At(i), total) == At(0);
    }
    if i > 0 {
      ModFacts(i - 1, total);
      ModFacts(i, total);
      assert PrevHighlight(At(i), total) == At(i - 1);
    } else {
      ModFacts(total - 1, total);
      ModFacts(0, total);
      assert PrevHighlight(At(i), total) == At(total - 1);
    }
  }

  lemma ModFacts(a: nat, t: nat)
    requires a < t
    ensures a % t == a && (a + t) % t == a && t % t == 0
  {
  }

  /** `totalOptions`: the offered known tags, plus the create option when shown. */
  function OptionCount(input: string, available: seq<string>, value: seq<string>): (r: nat)
    ensures |FilteredTags(input, available, value)| <= r <= |FilteredTags(input, available, value)| + 1
    ensures r == 0 <==> |FilteredTags(input, available, value)| == 0 && !ShowCreateOption(input, available, value)
    ensures r > |FilteredTags(input, available, value)| <==> ShowCreateOption(input, available, value)
  {
    |FilteredTags(input, available, value)| + (if ShowCreateOption(input, available, value) then 1 else 0)
  }

  /**
   * The tag Enter adds, if any: the highlighted known tag when the
   * dropdown is open and the highlight is on one; otherwise the create
   * option when it is shown; otherwise the input when it is not blank.
   */
  function EnterTarget(input: string, isOpen: bool, h: Highlight, filtered: seq<string>, show: bool): (r: Option<string>)
    ensures isOpen && h.At? && h.index < |filtered| ==> r == Some(filtered[h.index])
    ensures r.Some? ==> r.value in filtered || r.value == input
    ensures r.None? <==> !(isOpen && h.At? && h.index < |filtered|) && !(isOpen && show) && Trim(input) == ""
  {
    var total := |filtered| + (if show then 1 else 0);
    if total > 0 && isOpen && h.At? && h.index < |filtered| then Some(filtered[h.index])
    else if total > 0 && isOpen && show then Some(input)
    else if |Trim(input)| > 0 then Some(input)
    else None
  }

  /**
   * The create branch of Enter adds nothing the last branch would not:
   * Enter adds the highlighted known tag, or else the non-blank input.
   */
  lemma EnterPreference(input: string, isOpen: bool, h: Highlight, available: seq<string>, value: seq<string>)
    ensures var filtered := FilteredTags(input, available, value);
      EnterTarget(input, isOpen, h, filtered, ShowCreateOption(input, available, value))
      == if isOpen && h.At? && h.index < |filtered| then Some(filtered[h.index])
         else if !IsBlank(input) then Some(input)
         else None
  {
  }

  class TagPicker {
    var tagInput: string
    var isDropdownOpen: bool
    var highlighted: Highlight
    /** Every list handed to `onChange`, oldest first. */
    var emitted: seq<seq<string>>

    constructor ()
      ensures tagInput == "" && !isDropdownOpen && highlighted == At(0) && emitted == []
    {
      tagInput := "";
      isDropdownOpen := false;
      highlighted := At(0);
      emitted := [];
    }

    method HandleInputChange(v: string)
      modifies this`tagInput, this`highlighted, this`isDropdownOpen
      ensures tagInput == v && highlighted == At(0) && isDropdownOpen
    {
      tagInput := v;
      highlighted := At(0);
      isDropdownOpen := true;
    }

    method HandleFocus()
      modifies this`isDropdownOpen
      ensures isDropdownOpen
    {
      isDropdownOpen := true;
    }

    /** The timer armed by a blur fires, 150 ms later. */
    method BlurElapsed()
      modifies this`isDropdownOpen
      ensures !isDropdownOpen
    {
      isDropdownOpen := false;
    }

    /** Emit the list with `tag` added, if it is new, and reset the input in every case. */
    method HandleAddTag(tag: string, value: seq<string>)
      modifies this
      ensures AddTag(value, tag).Some? ==> emitted == old(emitted) + [AddTag(value, tag).value]
      ensures AddTag(value, tag).None? ==> emitted == old(emitted)
      ensures tagInput == "" && !isDropdownOpen && highlighted == At(0)
    {
      var next := AddTag(value, tag);
      if next.Some? {
        emitted := emitted + [next.value];
      }
      tagInput := "";
      isDropdownOpen := false;
      highlighted := At(0);
    }

    /**
     * A click on an offered tag or on the create option. The click has
     * blurred the input, so the refocus at the end of `handleAddTag` fires
     * the focus handler, which opens the list again; the blur's timer
     * closes it later.
     */
    method ClickOption(tag: string, value: seq<string>)
      modifies this
      ensures AddTag(value, tag).Some? ==> emitted == old(emitted) + [AddTag(value, tag).value]
      ensures AddTag(value, tag).None? ==> emitted == old(emitted)
      ensures tagInput == "" && isDropdownOpen && highlighted == At(0)
    {
      HandleAddTag(tag, value);
      HandleFocus();
    }

    method HandleRemoveTag(tag: string, value: seq<string>)
      modifies this`emitted
      ensures emitted == old(emitted) + [RemoveTag(value, tag)]
    {
      emitted := emitted + [RemoveTag(value, tag)];
    }

    /**
     * The state Enter leaves, from the state `input`, `isOpen`, `h`, `before`
     * it found, with `filtered` and `show` the offered tags and the create
     * option shown then: nothing changes without a target; otherwise the
     * target is added when new, and the input is cleared, the list closed
     * and the highlight put on the first option.
     */
    ghost predicate EnterLeft(input: string, isOpen: bool, h: Highlight, before: seq<seq<string>>,
                              value: seq<string>, filtered: seq<string>, show: bool)
      reads this
    {
      var target := EnterTarget(input, isOpen, h, filtered, show);
      if target.None? then
        tagInput == input && isDropdownOpen == isOpen && highlighted == h && emitted == before
      else
        tagInput == "" && !isDropdownOpen && highlighted == At(0)
        && emitted == before + (if AddTag(value, target.value).Some? then [AddTag(value, target.value).value] else [])
    }

    /**
     * Enter: add the target `EnterTarget` picks, if any. `filtered` and
     * `show` are the render's `filteredTags` and `showCreateOption`.
     */
    method HandleEnter(value: seq<string>, filtered: seq<string>, show: bool)
      modifies this
      ensures EnterLeft(old(tagInput), old(isDropdownOpen), old(highlighted), old(emitted), value, filtered, show)
    {
      var target := EnterTarget(tagInput, isDropdownOpen, highlighted, filtered, show);
      if target.Some? {
        HandleAddTag(target.value, value);
      }
    }

    /**
     * `handleKeyDown`. The handler reads the render's derived values:
     * `filtered` is `FilteredTags` and `show` is `ShowCreateOption` of the
     * current input, so their option count is `OptionCount`.
     */
    method HandleKeyDown(key: Key, value: seq<string>, filtered: seq<string>, show: bool)
      modifies this
      ensures key == ArrowDown ==>
        highlighted == NextHighlight(old(highlighted), |filtered| + (if show then 1 else 0))
        && tagInput == old(tagInput) && isDropdownOpen == old(isDropdownOpen) && emitted == old(emitted)
      ensures key == ArrowUp ==>
        highlighted == PrevHighlight(old(highlighted), |filtered| + (if show then 1 else 0))
        && tagInput == old(tagInput) && isDropdownOpen == old(isDropdownOpen) && emitted == old(emitted)
      ensures key == Enter ==>
        EnterLeft(old(tagInput), old(isDropdownOpen), old(highlighted), old(emitted), value, filtered, show)
      ensures key == Escape ==>
        !isDropdownOpen && tagInput == old(tagInput) && highlighted == old(highlighted) && emitted == old(emitted)
      ensures key == Backspace ==>
        tagInput == old(tagInput) && isDropdownOpen == old(isDropdownOpen) && highlighted == old(highlighted)
        && emitted == old(emitted) + (if old(tagInput) == "" && |value| > 0 then [value[..|value| - 1]] else [])
      ensures key == OtherKey ==>
        tagInput == old(tagInput) && isDropdownOpen == old(isDropdownOpen) && highlighted == old(highlighted)
        && emitted == old(emitted)
    {
      var total := |filtered| + (if show then 1 else 0);
      match key
      case ArrowDown =>
        highlighted := NextHighlight(highlighted, total);
      case ArrowUp =>
        highlighted := PrevHighlight(highlighted, total);
      case Enter =>
        HandleEnter(value, filtered, show);
      case Escape =>
        isDropdownOpen := false;
      case Backspace =>
        if tagInput == "" && |value| > 0 {
          emitted := emitted + [value[..|value| - 1]];
        }
      case OtherKey =>
    }
  }

  /**
   * Typing a tag and pressing Enter selects the first offered known tag
   * when there is one, not the text typed; otherwise the typed text.
   */
  method TypeAndEnter(p: TagPicker, text: string, value: seq<string>, available: seq<string>)
    requires !IsBlank(text)
    modifies p
    ensures var filtered := FilteredTags(text, available, value);
      var added := if filtered != [] then filtered[0] else text;
      p.emitted == old(p.emitted) + (if AddTag(value, added).Some? then [AddTag(value, added).value] else [])
    ensures p.tagInput == "" && !p.isDropdownOpen
  {
    p.HandleInputChange(text);
    EnterPreference(text, true, At(0), available, value);
    p.HandleKeyDown(Enter, value, FilteredTags(text, available, value), ShowCreateOption(text, available, value));
  }
}
