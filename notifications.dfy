/**
 * The room's notification slot: showing a notification replaces the
 * current one and re-arms a single auto-clear timer; the timer, an
 * explicit clear, or nothing else empties the slot. Timers are handles
 * that are armed, cancelled and fired explicitly.
 */
module Notifications {
  import opened Base
  import opened Wire

  const AutoClearDelayMs: nat := 5000

  class NotificationSlot {
    var notification: Option<Notification>
    /** The handle held in the timeout ref, if any. */
    var timeoutRef: Option<nat>
    /** Armed timers not yet fired or cancelled, each with its delay. */
    var pending: map<nat, nat>
    var nextTimer: nat

    /** Only the timer in the ref can be pending, so at most one is. */
    ghost predicate Valid()
      reads this
    {
      && (forall h :: h in pending ==> timeoutRef == Some(h))
      && (forall h :: h in pending ==> h < nextTimer)
      && (timeoutRef.Some? ==> timeoutRef.value < nextTimer)
    }

    constructor ()
      ensures Valid()
      ensures notification == None && timeoutRef == None && pending == map[]
    {
      notification := None;
      timeoutRef := None;
      pending := map[];
      nextTimer := 0;
    }

    /** `showNotification(n)`: cancel the held timer, show `n`, arm one new timer. */
    method Show(n: Notification)
      requires Valid()
      modifies this
      ensures Valid()
      ensures notification == Some(n)
      ensures timeoutRef == Some(old(nextTimer)) && pending == map[old(nextTimer) := AutoClearDelayMs]
    {
      if timeoutRef.Some? {
        pending := pending - {timeoutRef.value};
      }
      notification := Some(n);
      var h := nextTimer;
      nextTimer := nextTimer + 1;
      pending := pending[h := AutoClearDelayMs];
      timeoutRef := Some(h);
    }

    /** `clearNotification()`: empty the slot, cancel and forget the held timer. */
    method Clear()
      requires Valid()
      modifies this
      ensures Valid()
      ensures notification == None && timeoutRef == None && pending == map[]
    {
      notification := None;
      if timeoutRef.Some? {
        pending := pending - {timeoutRef.value};
        timeoutRef := None;
      }
    }

    /** Timer `h` fires after its delay: the slot empties and the ref is forgotten. */
    method TimerFired(h: nat)
      requires Valid() && h in pending
      modifies this
      ensures Valid()
      ensures notification == None && timeoutRef == None && pending == map[]
    {
      pending := pending - {h};
      notification := None;
      timeoutRef := None;
    }

    /** Unmount: the held timer is cancelled; the ref itself is left as is. */
    method Unmount()
      requires Valid()
      modifies this
      ensures Valid()
      ensures pending == map[] && notification == old(notification) && timeoutRef == old(timeoutRef)
    {
      if timeoutRef.Some? {
        pending := pending - {timeoutRef.value};
      }
    }
  }

  /** At most one timer is ever pending. */
  lemma AtMostOnePending(s: NotificationSlot)
    requires s.Valid()
    ensures forall h1, h2 :: h1 in s.pending && h2 in s.pending ==> h1 == h2
  {
  }

  /**
   * The timer of an earlier notification cannot clear a later one: once
   * the second is shown, the first timer is no longer pending, and the
   * only timer that can fire is the second one's.
   */
  method StaleTimerCannotClear(s: NotificationSlot, first: Notification, second: Notification)
    requires s.Valid()
    modifies s
    ensures s.Valid() && s.notification == Some(second)
    ensures forall h :: h in s.pending ==> s.timeoutRef == Some(h) && s.pending[h] == AutoClearDelayMs
  {
    s.Show(first);
    var firstTimer := s.timeoutRef.value;
    s.Show(second);
    assert firstTimer !in s.pending;
  }
}
