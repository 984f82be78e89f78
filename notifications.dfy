/**
 * `src/lib/notifications/store.ts` and `src/types/notification.ts`: the list
 * of toast notifications, with appending, removal by id, clearing, and the
 * expiry timer each timed notification schedules.
 */
module Notifications {
  import Wrappers

  datatype NotificationType = Success | Error | Info

  /** A stored notification: its duration is always filled in. */
  datatype Notification = Notification(id: string, kind: NotificationType, message: string, duration: int)

  /** `NotificationInput`: a notification without its id, duration optional. */
  datatype NotificationInput = NotificationInput(kind: NotificationType, message: string, duration: Wrappers.Option<int>)

  /** An expiry scheduled by `setTimeout`: remove `id` after `delay` milliseconds. */
  datatype Timer = Timer(id: string, delay: int)

  const DefaultDuration := 3000

  /** `input.duration ?? 3000`: only an absent duration takes the default. */
  function ResolveDuration(input: NotificationInput): int
  {
    if input.duration.Some? then input.duration.value else DefaultDuration
  }

  function MakeNotification(id: string, input: NotificationInput): Notification
  {
    Notification(id, input.kind, input.message, ResolveDuration(input))
  }

  /** `notifications.filter((n) => n.id !== id)`: exactly the entries with another
      id remain. */
  function Without(ns: seq<Notification>, id: string): (r: seq<Notification>)
    ensures |r| <= |ns|
    ensures forall n :: n in r <==> n in ns && n.id != id
  {
    if ns == [] then []
    else
      assert ns == [ns[0]] + ns[1..];
      (if ns[0].id == id then [] else [ns[0]]) + Without(ns[1..], id)
  }

  predicate HasId(ns: seq<Notification>, id: string)
  {
    exists k :: 0 <= k < |ns| && ns[k].id == id
  }

  /** The scheduled expiries `add` creates: one exactly when the duration is positive. */
  function TimersFor(n: Notification): seq<Timer>
  {
    if n.duration > 0 then [Timer(n.id, n.duration)] else []
  }

  // ---------------------------------------------------------------------------
  // Properties of the list operations

  /** Only an absent duration becomes 3000; an explicit one, zero or negative included, is kept. */
  lemma DurationDefault(input: NotificationInput)
    ensures input.duration.None? ==> ResolveDuration(input) == DefaultDuration
    ensures input.duration.Some? ==> ResolveDuration(input) == input.duration.value
  {
  }

  /** Removal keeps the order: it distributes over concatenation. */
  lemma {:induction false} WithoutConcat(xs: seq<Notification>, ys: seq<Notification>, id: string)
    ensures Without(xs + ys, id) == Without(xs, id) + Without(ys, id)
  {
    if xs == [] {
      assert xs + ys == ys;
    } else {
      assert (xs + ys)[1..] == xs[1..] + ys;
      WithoutConcat(xs[1..], ys, id);
    }
  }

  /** Removing an id that no entry has changes nothing. */
  lemma {:induction false} WithoutAbsent(ns: seq<Notification>, id: string)
    requires !HasId(ns, id)
    ensures Without(ns, id) == ns
  {
    if ns != [] {
      assert ns[0].id != id;
      assert !HasId(ns[1..], id) by {
        forall k | 0 <= k < |ns[1..]| ensures ns[1..][k].id != id {
          assert ns[1..][k] == ns[k + 1];
        }
      }
      WithoutAbsent(ns[1..], id);
      assert ns == [ns[0]] + ns[1..];
    }
  }

  /** Removing twice is removing once. */
  lemma WithoutIdempotent(ns: seq<Notification>, id: string)
    ensures Without(Without(ns, id), id) == Without(ns, id)
  {
    WithoutAbsent(Without(ns, id), id);
  }

  /** Adding a notification under a fresh id and removing that id restores the list. */
  lemma AddThenRemove(ns: seq<Notification>, id: string, input: NotificationInput)
    requires !HasId(ns, id)
    ensures Without(ns + [MakeNotification(id, input)], id) == ns
  {
    WithoutConcat(ns, [MakeNotification(id, input)], id);
    WithoutAbsent(ns, id);
    assert [MakeNotification(id, input)][1..] == [];
  }

  // ---------------------------------------------------------------------------
  // The store

  class NotificationStore {
    var notifications: seq<Notification>
    /** Expiries scheduled and not yet fired, in scheduling order. */
    var timers: seq<Timer>

    constructor()
      ensures notifications == [] && timers == []
    {
      notifications := [];
      timers := [];
    }

    /** `add`: append the notification under the given id, schedule its expiry when
        the duration is positive, and return the id. */
    method Add(input: NotificationInput, id: string) returns (r: string)
      modifies this
      ensures r == id
      ensures notifications == old(notifications) + [MakeNotification(id, input)]
      ensures timers == old(timers) + TimersFor(MakeNotification(id, input))
    {
      var duration := if input.duration.Some? then input.duration.value else DefaultDuration;
      var notification := Notification(id, input.kind, input.message, duration);
      notifications := notifications + [notification];
      if duration > 0 {
        timers := timers + [Timer(id, duration)];
      }
      r := id;
    }

    /** `remove`: drop every entry with this id. */
    method Remove(id: string)
      modifies this
      ensures notifications == Without(old(notifications), id)
      ensures timers == old(timers)
    {
      notifications := Without(notifications, id);
    }

    /** `clear`. */
    method Clear()
      modifies this
      ensures notifications == []
      ensures timers == old(timers)
    {
      notifications := [];
    }

    /** The `setTimeout` callback of the `k`-th scheduled expiry fires: it removes its id. */
    method Expire(k: nat)
      requires k < |timers|
      modifies this
      ensures notifications == Without(old(notifications), old(timers)[k].id)
      ensures timers == old(timers)[..k] + old(timers)[k + 1..]
    {
      var id := timers[k].id;
      timers := timers[..k] + timers[k + 1..];
      notifications := Without(notifications, id);
    }
  }

  /** `notifySuccess`. */
  method NotifySuccess(store: NotificationStore, message: string, duration: Wrappers.Option<int>, id: string) returns (r: string)
    modifies store
    ensures r == id
    ensures store.notifications == old(store.notifications) + [Notification(id, Success, message, ResolveDuration(NotificationInput(Success, message, duration)))]
    ensures store.timers == old(store.timers) + TimersFor(MakeNotification(id, NotificationInput(Success, message, duration)))
  {
    r := store.Add(NotificationInput(Success, message, duration), id);
  }

  /** `notifyError`. */
  method NotifyError(store: NotificationStore, message: string, duration: Wrappers.Option<int>, id: string) returns (r: string)
    modifies store
    ensures r == id
    ensures store.notifications == old(store.notifications) + [Notification(id, Error, message, ResolveDuration(NotificationInput(Error, message, duration)))]
    ensures store.timers == old(store.timers) + TimersFor(MakeNotification(id, NotificationInput(Error, message, duration)))
  {
    r := store.Add(NotificationInput(Error, message, duration), id);
  }

  /** `notifyInfo`. */
  method NotifyInfo(store: NotificationStore, message: string, duration: Wrappers.Option<int>, id: string) returns (r: string)
    modifies store
    ensures r == id
    ensures store.notifications == old(store.notifications) + [Notification(id, Info, message, ResolveDuration(NotificationInput(Info, message, duration)))]
    ensures store.timers == old(store.timers) + TimersFor(MakeNotification(id, NotificationInput(Info, message, duration)))
  {
    r := store.Add(NotificationInput(Info, message, duration), id);
  }
}
