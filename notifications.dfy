/** The notification queue (src/store/notificationSlice.js): an ordered
    list of transient messages, appended to by `addNotification`, filtered
    by `removeNotification`, emptied by `clearNotifications`. */
module Notifications {
  import Store
  import opened Wrappers
  import opened Seqs

  datatype Kind = Success | Error | Info

  datatype Notification = Notification(id: string, kind: Kind, message: string, duration: int, timestamp: int)

  const DefaultDuration: int := 5000

  /** The slice's actions. `Add` carries `Date.now()` as `now`, since the
      reducer stamps the entry with the current time. */
  datatype Action =
    | Add(id: string, kind: Kind, message: string, duration: Option<int>, now: int)
    | Remove(id: string)
    | Clear

  /** The test `notification.id !== id` that removal keeps. */
  function Keeps(id: string): Notification -> bool {
    (n: Notification) => n.id != id
  }

  /** The reducer, as a function of the list before the action. */
  function Reduce(s: seq<Notification>, a: Action): (r: seq<Notification>)
    ensures a.Add? ==>
              |r| == |s| + 1 && r[..|s|] == s &&
              r[|s|] == Notification(a.id, a.kind, a.message, a.duration.GetOr(DefaultDuration), a.now)
    ensures a.Add? && a.duration.None? ==> r[|s|].duration == 5000
    ensures a.Remove? ==> forall k :: 0 <= k < |r| ==> r[k].id != a.id
    ensures a.Remove? ==> forall n: Notification :: n.id != a.id ==> multiset(r)[n] == multiset(s)[n]
    ensures a.Remove? ==> Subsequence(r, s)
    ensures a.Remove? && (forall k :: 0 <= k < |s| ==> s[k].id != a.id) ==> r == s
    ensures a.Clear? ==> r == []
  {
    match a
    case Add(id, kind, message, duration, now) =>
      s + [Notification(id, kind, message, duration.GetOr(DefaultDuration), now)]
    case Remove(id) =>
      FilterIsSubsequence(s, Keeps(id));
      RemovedIdAbsent(s, id);
      if forall k :: 0 <= k < |s| ==> s[k].id != id then
        FilterKeepsAll(s, Keeps(id));
        Filter(s, Keeps(id))
      else
        Filter(s, Keeps(id))
    case Clear => []
  }

  lemma RemovedIdAbsent(s: seq<Notification>, id: string)
    ensures forall k :: 0 <= k < |Filter(s, Keeps(id))| ==> Filter(s, Keeps(id))[k].id != id
  {
    var r := Filter(s, Keeps(id));
    forall k | 0 <= k < |r| ensures r[k].id != id {
      assert r[k] in r;
      assert Keeps(id)(r[k]);
    }
  }

  /** Entries that all carry `id`, appended to a list, vanish when `id` is
      removed. */
  lemma AppendedThenRemoved(s: seq<Notification>, tail: seq<Notification>, id: string)
    requires forall k :: 0 <= k < |tail| ==> tail[k].id == id
    ensures Filter(s + tail, Keeps(id)) == Filter(s, Keeps(id))
  {
    FilterAppend(s, tail, Keeps(id));
    assert Filter(s, Keeps(id)) + [] == Filter(s, Keeps(id));
  }

  /** The state after dispatching `actions` in order. */
  function ReduceAll(s: seq<Notification>, actions: seq<Action>): seq<Notification> {
    Store.Replay(Reduce, s, actions)
  }


  /** Removing by the same id twice is removing it once. */
  lemma RemoveIdempotent(s: seq<Notification>, id: string)
    ensures Reduce(Reduce(s, Remove(id)), Remove(id)) == Reduce(s, Remove(id))
  {
    FilterIdempotent(s, Keeps(id));
  }

  /** `showNotification`: what it dispatches at once, and the removal its
      timer dispatches `delay` milliseconds later. */
  datatype Shown = Shown(now: Action, delay: int, later: Action)

  /** `showNotification(kind, message, duration)`. The id is
      the current time in milliseconds as a string, taken here as the
      parameter `clockId`. */
  function Show(clockId: string, kind: Kind, message: string, now: int, duration: int := DefaultDuration): (shown: Shown)
    ensures shown.now.Add? && shown.now.id == clockId && shown.now.duration == Some(duration)
    ensures shown.later == Remove(shown.now.id) && shown.delay == duration
  {
    Shown(Add(clockId, kind, message, Some(duration), now), duration, Remove(clockId))
  }

  /** Adding an entry and then removing its id is the same as removing
      that id from the list as it was: nothing of the new entry remains. */
  lemma {:induction false} ShowThenExpire(s: seq<Notification>, clockId: string, kind: Kind, message: string, now: int, duration: int)
    ensures var shown := Show(clockId, kind, message, now, duration);
            ReduceAll(s, [shown.now, shown.later]) == Reduce(s, Remove(clockId))
  {
    var shown := Show(clockId, kind, message, now, duration);
    var entry := Notification(clockId, kind, message, duration, now);
    var added := s + [entry];
    assert Reduce(s, shown.now) == added;
    AppendedThenRemoved(s, [entry], clockId);
    assert Reduce(added, shown.later) == Filter(added, Keeps(clockId));
    assert Reduce(s, Remove(clockId)) == Filter(s, Keeps(clockId));
    Store.ReplayTwo(Reduce, s, shown.now, shown.later);
  }

  /** Ids are millisecond timestamps and collisions are not guarded: two
      notifications shown in the same millisecond share an id, and the
      first one's timer removes both. */
  lemma {:induction false} SameMillisecondCollision(s: seq<Notification>, clockId: string, m1: string, m2: string, now: int, d1: int, d2: int)
    ensures var first := Show(clockId, Info, m1, now, d1);
            var second := Show(clockId, Info, m2, now, d2);
            ReduceAll(s, [first.now, second.now, first.later]) == Reduce(s, Remove(clockId))
  {
    var first := Show(clockId, Info, m1, now, d1);
    var second := Show(clockId, Info, m2, now, d2);
    var e1 := Notification(clockId, Info, m1, d1, now);
    var e2 := Notification(clockId, Info, m2, d2, now);
    var a1 := s + [e1];
    assert Reduce(s, first.now) == a1;
    var a2 := a1 + [e2];
    assert Reduce(a1, second.now) == a2;
    assert a2 == s + [e1, e2];
    AppendedThenRemoved(s, [e1, e2], clockId);
    assert Reduce(a2, first.later) == Filter(a2, Keeps(clockId));
    assert Reduce(s, Remove(clockId)) == Filter(s, Keeps(clockId));
    var actions := [first.now, second.now, first.later];
    assert actions[1..] == [second.now, first.later];
    assert ReduceAll(s, actions) == ReduceAll(a1, [second.now, first.later]);
    Store.ReplayTwo(Reduce, a1, second.now, first.later);
  }

  /** The slice's state, updated in place as the reducer does. */
  class NotificationStore {
    var notifications: seq<Notification>

    constructor ()
      ensures notifications == []
    {
      notifications := [];
    }

    method Dispatch(a: Action)
      modifies this
      ensures notifications == Reduce(old(notifications), a)
    {
      match a {
        case Add(id, kind, message, duration, now) =>
          var d := if duration.Some? then duration.value else DefaultDuration;
          notifications := notifications + [Notification(id, kind, message, d, now)];
        case Remove(id) =>
          notifications := Filter(notifications, Keeps(id));
        case Clear =>
          notifications := [];
      }
    }
  }
}
