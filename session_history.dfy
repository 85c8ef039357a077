/** The session history list: at most one session is expanded at a time. */
module SessionHistory {
  import opened Base

  /** `handleToggleSession(id)` on the expanded id: collapse it if it is `id`, else expand `id`. */
  function ToggleSession(expanded: Option<string>, id: string): (r: Option<string>)
    ensures expanded == Some(id) ==> r == None
    ensures expanded != Some(id) ==> r == Some(id)
  {
    if expanded == Some(id) then None else Some(id)
  }

  /** The session with `id` shows its songs. */
  predicate IsExpanded(expanded: Option<string>, id: string)
  {
    expanded == Some(id)
  }

  /** Toggling one id twice from a state where it is collapsed, or expanded, restores the state. */
  lemma {:induction false} ToggleTwice(expanded: Option<string>, id: string)
    requires expanded == None || expanded == Some(id)
    ensures ToggleSession(ToggleSession(expanded, id), id) == expanded
  {
  }

  /** Toggling another id while one is expanded switches to it; toggling again collapses everything. */
  lemma {:induction false} ToggleOther(current: string, id: string)
    requires current != id
    ensures ToggleSession(Some(current), id) == Some(id)
    ensures ToggleSession(ToggleSession(Some(current), id), id) == None
  {
  }

  /** After a toggle, the toggled session is expanded exactly when it was not, and no other is. */
  lemma {:induction false} ToggleExpandsOnlyTarget(expanded: Option<string>, id: string, other: string)
    requires other != id
    ensures IsExpanded(ToggleSession(expanded, id), id) <==> !IsExpanded(expanded, id)
    ensures !IsExpanded(ToggleSession(expanded, id), other)
  {
  }

  class SessionList {
    var expandedSessionId: Option<string>

    constructor ()
      ensures expandedSessionId == None
    {
      expandedSessionId := None;
    }

    method HandleToggleSession(id: string)
      modifies this
      ensures expandedSessionId == ToggleSession(old(expandedSessionId), id)
    {
      if expandedSessionId == Some(id) {
        expandedSessionId := None;
        return;
      }
      expandedSessionId := Some(id);
    }
  }

  /** Two expanded sessions are the same session. */
  lemma AtMostOneExpanded(s: SessionList, a: string, b: string)
    requires IsExpanded(s.expandedSessionId, a) && IsExpanded(s.expandedSessionId, b)
    ensures a == b
  {
  }
}
