/** Tables of waiting channels, as the round manager and the batch pool keep them: a map from
    keys to inner maps of channels, where every waiter remembers the inner map it joined. */
module Waiters {
  /** What a waiter's channel, of capacity one, can carry. */
  datatype Event<+V> = Value(v: V) | Closed

  /** Inner maps and channels are objects, known by number. `heads` are the inner maps that are
      in the table; a waiter may still refer to one that is not. `gone` is history: the waiters
      that gave up. */
  datatype Table<K(==), +V> = Table(
    heads: map<K, nat>, inner: map<nat, set<nat>>,
    home: map<nat, (K, nat)>, events: map<nat, seq<Event<V>>>, next: nat, gone: set<nat>)

  function Empty<K(==), V>(): Table<K, V> {
    Table(map[], map[], map[], map[], 0, {})
  }

  /** Joins the waiters of `k`; the new channel is `t.next`. */
  function Join<K, V>(t: Table<K, V>, k: K): Table<K, V> {
    var head := if k in t.heads then t.heads[k] else t.next + 1;
    var waiters := if k in t.heads && head in t.inner then t.inner[head] else {};
    Table(t.heads[k := head], t.inner[head := waiters + {t.next}],
          t.home[t.next := (k, head)], t.events[t.next := []], t.next + 2, t.gone)
  }

  function Attached<K, V>(t: Table<K, V>, k: K): set<nat> {
    if k in t.heads && t.heads[k] in t.inner then t.inner[t.heads[k]] else {}
  }

  function EventsOf<K, V>(t: Table<K, V>, s: nat): seq<Event<V>> {
    if s in t.events then t.events[s] else []
  }

  function Post<V>(events: map<nat, seq<Event<V>>>, to: set<nat>, e: Event<V>): map<nat, seq<Event<V>>> {
    map s | s in events.Keys + to :: if s !in to then events[s] else (if s in events then events[s] else []) + [e]
  }

  /** Sends an event to all who wait for `k`, or closes their channels, and forgets them. */
  function Notify<K, V>(t: Table<K, V>, k: K, e: Event<V>): Table<K, V> {
    t.(heads := t.heads - {k}, events := Post(t.events, Attached(t, k), e))
  }

  /** A waiter leaves: it takes itself out of the inner map it joined and, when that is empty
      now, removes its key from the table, whichever inner map the table has there. */
  function Leave<K, V>(t: Table<K, V>, s: nat): Table<K, V>
    requires s in t.home
  {
    var (k, head) := t.home[s];
    var rest := (if head in t.inner then t.inner[head] else {}) - {s};
    t.(inner := t.inner[head := rest], heads := if rest == {} then t.heads - {k} else t.heads, gone := t.gone + {s})
  }

  // ----- Invariant -----

  ghost predicate WaiterOk<K(!new), V>(t: Table<K, V>, s: nat) {
    && s in t.home && s < t.next && |EventsOf(t, s)| <= 1
    && t.home[s].1 in t.inner && (s in t.inner[t.home[s].1] <==> s !in t.gone)
  }

  ghost predicate AllWaitersOk<K(!new), V>(t: Table<K, V>) {
    t.events.Keys == t.home.Keys && t.gone <= t.home.Keys && forall s :: s in t.home ==> WaiterOk(t, s)
  }

  ghost predicate InnerMapsOk<K(!new), V>(t: Table<K, V>) {
    && (forall i :: i in t.inner ==> i < t.next)
    && (forall i, s :: i in t.inner && s in t.inner[i] ==> s in t.home && t.home[s].1 == i)
  }

  ghost predicate HeadsOk<K(!new), V>(t: Table<K, V>) {
    && (forall k :: k in t.heads ==> t.heads[k] in t.inner && t.inner[t.heads[k]] != {})
    && (forall k, s :: k in t.heads && t.heads[k] in t.inner && s in t.inner[t.heads[k]] ==>
          s in t.home && t.home[s].0 == k && EventsOf(t, s) == [])
    && (forall k, k' :: k in t.heads && k' in t.heads && t.heads[k] == t.heads[k'] ==> k == k')
  }

  ghost predicate TableOk<K(!new), V>(t: Table<K, V>) {
    AllWaitersOk(t) && InnerMapsOk(t) && HeadsOk(t)
  }

  lemma JoinedWaiters<K(!new), V>(t: Table<K, V>, k: K, k': K)
    requires TableOk(t)
    ensures Attached(Join(t, k), k') == Attached(t, k') + if k' == k then {t.next} else {}
    ensures k' in Join(t, k).heads && k' != k ==> k' in t.heads && Join(t, k).heads[k'] == t.heads[k']
  {
    assert t.next !in t.inner && t.next + 1 !in t.inner;
  }

  lemma JoinKeepsWaiters<K(!new), V>(t: Table<K, V>, k: K)
    requires TableOk(t)
    ensures AllWaitersOk(Join(t, k)) && t.next !in t.home
  {
    var t' := Join(t, k);
    assert t.next !in t.home && t.next !in t.inner && t.next + 1 !in t.inner;
    forall s | s in t'.home ensures WaiterOk(t', s) {
      if s in t.home { assert WaiterOk(t, s); }
    }
  }

  lemma JoinKeepsInnerMaps<K(!new), V>(t: Table<K, V>, k: K)
    requires TableOk(t) && t.next !in t.home
    ensures InnerMapsOk(Join(t, k))
  {
    assert t.next !in t.inner && t.next + 1 !in t.inner;
  }

  lemma JoinKeepsHead<K(!new), V>(t: Table<K, V>, k: K, k': K)
    requires TableOk(t) && k' in Join(t, k).heads && t.next !in t.home
    ensures var t' := Join(t, k);
            && t'.heads[k'] in t'.inner && t'.inner[t'.heads[k']] != {}
            && (forall s :: s in t'.inner[t'.heads[k']] ==> s in t'.home && t'.home[s].0 == k' && EventsOf(t', s) == [])
            && (k' != k ==> k' in t.heads && t'.heads[k'] == t.heads[k'])
  {
    var t' := Join(t, k);
    JoinedWaiters(t, k, k');
    assert Attached(t', k') == t'.inner[t'.heads[k']];
    if k' == k { assert t.next in Attached(t', k'); }
    forall s | s in Attached(t', k') ensures s in t'.home && t'.home[s].0 == k' && EventsOf(t', s) == [] {
      if s != t.next { assert s in t.home && t'.home[s] == t.home[s] && EventsOf(t', s) == EventsOf(t, s); }
    }
  }

  lemma JoinKeepsHeads<K(!new), V>(t: Table<K, V>, k: K)
    requires TableOk(t) && t.next !in t.home
    ensures HeadsOk(Join(t, k))
  {
    var t' := Join(t, k);
    forall k' | k' in t'.heads
      ensures t'.heads[k'] in t'.inner && t'.inner[t'.heads[k']] != {}
      ensures forall s :: s in t'.inner[t'.heads[k']] ==> s in t'.home && t'.home[s].0 == k' && EventsOf(t', s) == []
      ensures k' != k ==> k' in t.heads && t'.heads[k'] == t.heads[k'] {
      JoinKeepsHead(t, k, k');
    }
    assert forall k' :: k' in t.heads ==> t.heads[k'] < t.next;
  }

  lemma JoinKeepsOk<K(!new), V>(t: Table<K, V>, k: K)
    requires TableOk(t)
    ensures TableOk(Join(t, k)) && t.next !in t.home
  {
    JoinKeepsWaiters(t, k);
    JoinKeepsInnerMaps(t, k);
    JoinKeepsHeads(t, k);
  }

  /** A notification sends to those who wait for the key, who have received nothing yet. */
  lemma NotifyOnEvents<K(!new), V>(t: Table<K, V>, k: K, e: Event<V>, s: nat)
    requires TableOk(t) && s in t.home
    ensures EventsOf(Notify(t, k, e), s) == if s in Attached(t, k) then [e] else EventsOf(t, s)
    ensures s in Attached(t, k) ==> t.home[s].0 == k && EventsOf(t, s) == []
  {
  }

  lemma NotifyKeepsWaiters<K(!new), V>(t: Table<K, V>, k: K, e: Event<V>)
    requires TableOk(t)
    ensures AllWaitersOk(Notify(t, k, e))
  {
    var t' := Notify(t, k, e);
    assert Attached(t, k) <= t.home.Keys;
    assert t'.events.Keys == t.home.Keys;
    forall s | s in t.home ensures WaiterOk(t', s) {
      assert WaiterOk(t, s);
      NotifyOnEvents(t, k, e, s);
    }
  }

  lemma NotifyKeepsHeads<K(!new), V>(t: Table<K, V>, k: K, e: Event<V>)
    requires TableOk(t)
    ensures HeadsOk(Notify(t, k, e))
  {
    var t' := Notify(t, k, e);
    forall k', s | k' in t'.heads && s in t.inner[t'.heads[k']]
      ensures s in t.home && t.home[s].0 == k' && EventsOf(t', s) == [] {
      NotifyOnEvents(t, k, e, s);
    }
  }

  /** Every channel gets at most one event, so the capacity-one sends never block and no channel
      is closed twice; it comes only from a notification of the waiter's own key. */
  lemma NotifyKeepsOk<K(!new), V>(t: Table<K, V>, k: K, e: Event<V>)
    requires TableOk(t)
    ensures TableOk(Notify(t, k, e))
    ensures forall s :: s in t.home && EventsOf(Notify(t, k, e), s) != EventsOf(t, s) ==>
              t.home[s].0 == k && EventsOf(t, s) == [] && EventsOf(Notify(t, k, e), s) == [e]
  {
    NotifyKeepsWaiters(t, k, e);
    NotifyKeepsHeads(t, k, e);
    forall s | s in t.home && EventsOf(Notify(t, k, e), s) != EventsOf(t, s)
      ensures t.home[s].0 == k && EventsOf(t, s) == [] && EventsOf(Notify(t, k, e), s) == [e] {
      NotifyOnEvents(t, k, e, s);
    }
  }

  lemma LeaveKeepsWaiters<K(!new), V>(t: Table<K, V>, s: nat)
    requires TableOk(t) && s in t.home && s !in t.gone
    ensures AllWaitersOk(Leave(t, s)) && InnerMapsOk(Leave(t, s))
  {
    var l := Leave(t, s);
    assert WaiterOk(t, s);
    forall x | x in l.home ensures WaiterOk(l, x) {
      assert WaiterOk(t, x);
    }
  }

  lemma LeaveKeepsHeads<K(!new), V>(t: Table<K, V>, s: nat)
    requires TableOk(t) && s in t.home && s !in t.gone
    ensures HeadsOk(Leave(t, s))
  {
    var l := Leave(t, s);
    assert WaiterOk(t, s);
    forall k | k in l.heads ensures l.heads[k] in l.inner && l.inner[l.heads[k]] != {} {
      if t.heads[k] == t.home[s].1 { assert t.home[s].0 == k; }
    }
  }

  lemma LeaveKeepsOk<K(!new), V>(t: Table<K, V>, s: nat)
    requires TableOk(t) && s in t.home && s !in t.gone
    ensures TableOk(Leave(t, s))
  {
    LeaveKeepsWaiters(t, s);
    LeaveKeepsHeads(t, s);
  }

  /** Who leaves is reached by no notification any more; everybody else who waits for another key,
      or in the same inner map, keeps waiting, and nothing is sent. */
  lemma LeaverIsGone<K(!new), V>(t: Table<K, V>, s: nat, x: nat, k: K)
    requires TableOk(t) && s in t.home && s !in t.gone
    ensures var l := Leave(t, s);
            && s in l.gone && s !in Attached(l, k) && l.events == t.events
            && (x in Attached(l, k) ==> x in Attached(t, k))
            && (x in Attached(t, k) && x != s && (k != t.home[s].0 || t.home[x].1 == t.home[s].1) ==> x in Attached(l, k))
  {
    assert WaiterOk(t, s);
    if x in t.home { assert WaiterOk(t, x); }
  }

  // ----- Lost wake-ups -----

  /** Nobody has told the waiter anything, and the table does not know it any more. */
  ghost predicate LeftOut<K(!new), V>(t: Table<K, V>, s: nat) {
    s in t.home && s !in t.gone && EventsOf(t, s) == [] && s !in Attached(t, t.home[s].0)
  }

  /** A waiter that is neither notified nor gone will be reached by the next notification. */
  ghost predicate Reachable<K(!new), V>(t: Table<K, V>) {
    forall s :: s in t.home && s !in t.gone && EventsOf(t, s) == [] ==> s in Attached(t, t.home[s].0)
  }

  lemma JoinKeepsReachable<K(!new), V>(t: Table<K, V>, k: K)
    requires TableOk(t) && Reachable(t)
    ensures Reachable(Join(t, k))
  {
    var j := Join(t, k);
    forall x | x in j.home && x !in j.gone && EventsOf(j, x) == [] ensures x in Attached(j, j.home[x].0) {
      JoinedWaiters(t, k, j.home[x].0);
      if x != t.next { assert x in Attached(t, t.home[x].0); }
    }
  }

  /** The next notification of its key reaches every waiter that is still there. */
  lemma NotifyReachesAll<K(!new), V>(t: Table<K, V>, k: K, e: Event<V>)
    requires Reachable(t)
    ensures Reachable(Notify(t, k, e))
    ensures forall s :: s in t.home && s !in t.gone && EventsOf(t, s) == [] && t.home[s].0 == k ==>
              EventsOf(Notify(t, k, e), s) == [e]
  {
    var n := Notify(t, k, e);
    forall x | x in n.home && x !in n.gone && EventsOf(n, x) == [] ensures x in Attached(n, n.home[x].0) {
      assert x !in Attached(t, k);
      assert x in Attached(t, t.home[x].0);
    }
  }

  lemma JoinLeavesOut<K(!new), V>(t: Table<K, V>, k: K, s: nat)
    requires TableOk(t) && LeftOut(t, s)
    ensures LeftOut(Join(t, k), s)
  {
    assert WaiterOk(t, s);
    JoinedWaiters(t, k, t.home[s].0);
  }

  lemma NotifyLeavesOut<K(!new), V>(t: Table<K, V>, k: K, e: Event<V>, s: nat)
    requires TableOk(t) && LeftOut(t, s)
    ensures LeftOut(Notify(t, k, e), s)
  {
    NotifyOnEvents(t, k, e, s);
  }

  lemma LeaveLeavesOut<K(!new), V>(t: Table<K, V>, x: nat, s: nat)
    requires TableOk(t) && LeftOut(t, s) && x in t.home && x != s
    ensures LeftOut(Leave(t, x), s)
  {
  }

  /** The last to leave an inner map that is out of the table, while the table has another one
      for the same key. */
  predicate LastOfDetached<K, V>(t: Table<K, V>, s: nat)
    requires s in t.home
  {
    var (k, head) := t.home[s];
    k in t.heads && t.heads[k] != head && head in t.inner && t.inner[head] == {s}
  }

  /** A waiter that leaves takes the wake-up from others exactly when it is the last of an inner
      map that was notified already, and somebody waits for its key anew. */
  lemma LeaveKeepsReachable<K(!new), V>(t: Table<K, V>, s: nat)
    requires TableOk(t) && Reachable(t) && s in t.home && s !in t.gone
    ensures Reachable(Leave(t, s)) <==> !LastOfDetached(t, s)
  {
    var (k, head) := t.home[s];
    var l := Leave(t, s);
    assert WaiterOk(t, s);
    if LastOfDetached(t, s) {
      var x :| x in t.inner[t.heads[k]];
      assert WaiterOk(t, x) && x !in l.gone && EventsOf(l, x) == [] && x !in Attached(l, k);
    } else {
      forall x | x in l.home && x !in l.gone && EventsOf(l, x) == [] ensures x in Attached(l, l.home[x].0) {
        assert x in Attached(t, t.home[x].0);
      }
    }
  }

  /** Who leaves before being notified never takes a wake-up from others. */
  lemma OnlyNotifiedTakeWakeups<K(!new), V>(t: Table<K, V>, s: nat)
    requires TableOk(t) && Reachable(t) && s in t.home && s !in t.gone && LastOfDetached(t, s)
    ensures EventsOf(t, s) != []
  {
    assert WaiterOk(t, s);
  }

  /** A waiter that leaves although it was notified can cost another waiter its wake-up. */
  lemma LeavingNotifiedLosesWakeup<V>(a: Event<V>, b: Event<V>)
    ensures var t := Join(Notify(Join(Empty<nat, V>(), 0), 0, a), 0);
            var t' := Notify(Leave(t, 0), 0, b);
            && TableOk(t) && EventsOf(t, 0) == [a] && EventsOf(t, 2) == [] && EventsOf(t', 2) == []
  {
    var t1 := Join(Empty<nat, V>(), 0);
    assert t1.inner[1] == {0};
    var t2 := Notify(t1, 0, a);
    assert EventsOf(t2, 0) == [a];
    JoinKeepsOk(Empty<nat, V>(), 0);
    NotifyKeepsOk(t1, 0, a);
    JoinKeepsOk(t2, 0);
    var t3 := Join(t2, 0);
    assert t3.next == 4 && t3.inner[1] == {0} && t3.heads[0] == 3;
    assert Leave(t3, 0).inner[1] == {};
  }
}

/** The table as it is kept: changed in place, waiters notified one by one. */
module WaiterTables {
  import opened Waiters

  class WaiterTable<K(==), V> {
    var t: Table<K, V>

    constructor ()
      ensures t == Empty<K, V>()
    {
      t := Empty<K, V>();
    }

    method Join(k: K) returns (s: nat)
      modifies this
      ensures s == old(t).next && t == Waiters.Join(old(t), k)
    {
      s := t.next;
      var head := t.next + 1;
      var waiters := {};
      if k in t.heads {
        head := t.heads[k];
        waiters := Attached(t, k);
      }
      t := t.(heads := t.heads[k := head], inner := t.inner[head := waiters + {s}]);
      t := t.(home := t.home[s := (k, head)], events := t.events[s := []], next := t.next + 2);
    }

    method Notify(k: K, e: Event<V>)
      modifies this
      ensures t == Waiters.Notify(old(t), k, e)
    {
      var waiters := Attached(t, k);
      var pending := waiters;
      var events := t.events;
      assert events == Post(t.events, {}, e);
      while pending != {}
        invariant pending <= waiters && t == old(t)
        invariant events == Post(t.events, waiters - pending, e)
        decreases pending
      {
        var s :| s in pending;
        pending := pending - {s};
        events := events[s := (if s in events then events[s] else []) + [e]];
        assert events == Post(t.events, waiters - pending, e);
      }
      assert waiters - pending == waiters;
      t := t.(heads := t.heads - {k}, events := events);
    }

    method Leave(s: nat)
      requires s in t.home
      modifies this
      ensures t == Waiters.Leave(old(t), s)
    {
      var (k, head) := t.home[s];
      var rest := (if head in t.inner then t.inner[head] else {}) - {s};
      t := t.(inner := t.inner[head := rest], gone := t.gone + {s});
      if rest == {} {
        t := t.(heads := t.heads - {k});
      }
    }
  }
}
