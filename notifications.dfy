/**
 * The toast notifications (src/components/NotificationSystem.jsx): a list of
 * notifications that `addNotification` appends to and `removeNotification`
 * filters by id, the removal timers a positive duration schedules, the two
 * global handlers the component installs on `window`, and the
 * `useNotification` helpers that forward to them.
 *
 * The id (`Date.now() + Math.random()`) is supplied by the caller; the timers
 * are pending removals that fire when the caller says so.
 */
module Notifications {
  import opened Json

  type Id = int

  /** The default type and duration of `addNotification` (line 13). */
  const DefaultKind: string := "info"
  const DefaultDuration: int := 5000

  datatype Notification = Notification(id: Id, message: string, kind: string, duration: int)

  /** A `setTimeout(() => removeNotification(id), delay)` not yet fired. */
  datatype Removal = RemoveAfter(id: Id, delay: int)

  /** Lines 9-11: `prev.filter(n => n.id !== id)`. */
  function Without(ns: seq<Notification>, id: Id): (r: seq<Notification>)
    ensures forall n :: n in r <==> n in ns && n.id != id
    ensures |r| <= |ns|
  {
    if |ns| == 0 then []
    else (if ns[0].id == id then [] else [ns[0]]) + Without(ns[1..], id)
  }

  /** Filtering works piece by piece, so the kept entries stay in order. */
  lemma {:induction false} WithoutConcat(a: seq<Notification>, b: seq<Notification>, id: Id)
    ensures Without(a + b, id) == Without(a, id) + Without(b, id)
  {
    if |a| > 0 {
      assert (a + b)[1..] == a[1..] + b;
      WithoutConcat(a[1..], b, id);
    } else {
      assert a + b == b;
    }
  }

  /** Removing an id that no entry carries changes nothing. */
  lemma {:induction false} WithoutAbsent(ns: seq<Notification>, id: Id)
    requires forall n :: n in ns ==> n.id != id
    ensures Without(ns, id) == ns
  {
    if |ns| > 0 {
      assert ns[0] in ns;
      assert forall n :: n in ns[1..] ==> n in ns;
      WithoutAbsent(ns[1..], id);
      assert ns == [ns[0]] + ns[1..];
    }
  }

  /** Removing twice is removing once. */
  lemma WithoutIdempotent(ns: seq<Notification>, id: Id)
    ensures Without(Without(ns, id), id) == Without(ns, id)
  {
    WithoutAbsent(Without(ns, id), id);
  }

  /** Removing a freshly added notification by its id gives back the list as
      it was before the add. */
  lemma RemoveUndoesAdd(ns: seq<Notification>, n: Notification)
    requires forall m :: m in ns ==> m.id != n.id
    ensures Without(ns + [n], n.id) == ns
  {
    WithoutConcat(ns, [n], n.id);
    WithoutAbsent(ns, n.id);
    assert Without([n], n.id) == [];
  }

  /** `window`, as far as the notifications use it: whether the two global
      handlers (`showNotification` and `hideNotification`) are installed, and
      which component they belong to. */
  class Window {
    var handler: Option<NotificationCenter>

    constructor ()
      ensures handler == None
    {
      handler := None;
    }

    /** The component the global handlers reach, if any. */
    function Handlers(): set<NotificationCenter>
      reads this
    {
      if handler.Some? then {handler.value} else {}
    }
  }

  class NotificationCenter {
    var notifications: seq<Notification>
    var timers: seq<Removal>
    /** Every notification ever added. */
    ghost var added: seq<Notification>

    /** Every pending removal has a positive delay and was scheduled by an add
        with that duration; every notification still shown with a positive
        duration has its removal pending. */
    ghost predicate Valid()
      reads this
    {
      (forall t :: t in timers ==>
        t.delay > 0 && exists n :: n in added && n.id == t.id && n.duration == t.delay)
      && (forall n :: n in notifications && n.duration > 0 ==> RemoveAfter(n.id, n.duration) in timers)
      && (forall n :: n in notifications ==> n in added)
    }

    /** Line 6: no notifications. */
    constructor ()
      ensures Valid()
      ensures notifications == [] && timers == []
    {
      notifications := [];
      timers := [];
      added := [];
    }

    /** Lines 13-26: appends one notification with the given id, type `info`
        and duration 5000 unless given, schedules its removal when the
        duration is positive, and returns the id. */
    method Add(message: string, kind: Option<string>, duration: Option<int>, id: Id)
      returns (r: Id)
      requires Valid()
      modifies this
      ensures Valid()
      ensures r == id
      ensures
        var n := Notification(id, message,
                              if kind.Some? then kind.value else DefaultKind,
                              if duration.Some? then duration.value else DefaultDuration);
        notifications == old(notifications) + [n]
        && timers == old(timers) + (if n.duration > 0 then [RemoveAfter(id, n.duration)] else [])
    {
      var k := if kind.Some? then kind.value else DefaultKind;
      var d := if duration.Some? then duration.value else DefaultDuration;
      var n := Notification(id, message, k, d);
      added := added + [n];
      notifications := notifications + [n];
      if d > 0 {
        timers := timers + [RemoveAfter(id, d)];
      }
      r := id;
    }

    /** Lines 9-11: drops every notification with the id; pending timers stay. */
    method Remove(id: Id)
      requires Valid()
      modifies this
      ensures Valid()
      ensures notifications == Without(old(notifications), id)
      ensures timers == old(timers)
    {
      notifications := Without(notifications, id);
    }

    /** Lines 20-22: the `i`-th pending timer fires and removes its id. Only
        notifications with that id go; an id that was never scheduled (a
        notification whose duration is not positive) is never removed by a
        timer. */
    method FireTimer(i: nat)
      requires Valid() && i < |timers|
      modifies this
      ensures Valid()
      ensures timers == old(timers[..i] + timers[i + 1..])
      ensures notifications == Without(old(notifications), old(timers[i].id))
      ensures forall n :: n in old(notifications) && n.id != old(timers[i].id) ==> n in notifications
      ensures exists n :: n in added && n.id == old(timers[i].id) && n.duration > 0
    {
      var t := timers[i];
      timers := timers[..i] + timers[i + 1..];
      notifications := Without(notifications, t.id);
      assert t in old(timers);
      forall n | n in notifications && n.duration > 0
        ensures RemoveAfter(n.id, n.duration) in timers
      {
        assert RemoveAfter(n.id, n.duration) in old(timers);
        var j :| 0 <= j < |old(timers)| && old(timers)[j] == RemoveAfter(n.id, n.duration);
        assert j != i;
        if j < i {
          assert timers[j] == old(timers)[j];
        } else {
          assert timers[j - 1] == old(timers)[j];
        }
      }
      forall u | u in timers
        ensures u.delay > 0 && exists n :: n in added && n.id == u.id && n.duration == u.delay
      {
        assert u in old(timers);
      }
    }

    /** Lines 28-32: the component installs its handlers on `window`. */
    method Mount(w: Window)
      modifies w
      ensures w.handler == Some(this)
    {
      w.handler := Some(this);
    }

    /** Lines 33-36: on unmount both globals are deleted. */
    method Unmount(w: Window)
      modifies w
      ensures w.handler == None
    {
      w.handler := None;
    }
  }

  /** The four `useNotification` helpers. */
  datatype Kind = Success | Failure | Warning | Info

  /** The type each helper passes. */
  function KindName(k: Kind): (r: string)
    ensures r in {"success", "error", "warning", "info"}
    ensures k == Info <==> r == DefaultKind
  {
    match k
    case Success => "success"
    case Failure => "error"
    case Warning => "warning"
    case Info => "info"
  }

  /** Lines 89-111: `showSuccess`/`showError`/`showWarning`/`showInfo` add the
      message with their fixed type (a missing duration falls to the default)
      and return the id; without a global handler they do nothing and return
      undefined. */
  method Show(w: Window, k: Kind, message: string, duration: Option<int>, id: Id)
    returns (r: Option<Id>)
    requires w.handler.Some? ==> w.handler.value.Valid()
    modifies w.Handlers()
    ensures w.handler == old(w.handler)
    ensures w.handler.None? ==> r == None
    ensures w.handler.Some? ==>
      var c := w.handler.value;
      var d := if duration.Some? then duration.value else DefaultDuration;
      r == Some(id) && c.Valid()
      && c.notifications == old(c.notifications) + [Notification(id, message, KindName(k), d)]
      && c.timers == old(c.timers) + (if d > 0 then [RemoveAfter(id, d)] else [])
  {
    r := None;
    if w.handler.Some? {
      var c := w.handler.value;
      var got := c.Add(message, Some(KindName(k)), duration, id);
      r := Some(got);
    }
  }

  /** Lines 113-117: `hide` removes the id through the global handler, if any. */
  method Hide(w: Window, id: Id)
    requires w.handler.Some? ==> w.handler.value.Valid()
    modifies w.Handlers()
    ensures w.handler == old(w.handler)
    ensures w.handler.Some? ==>
      var c := w.handler.value;
      c.Valid() && c.notifications == Without(old(c.notifications), id) && c.timers == old(c.timers)
  {
    if w.handler.Some? {
      w.handler.value.Remove(id);
    }
  }
}
