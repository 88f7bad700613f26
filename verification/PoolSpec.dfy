/** The batch pool as a value: which batches are there, who waits for one, and why any left. */
module PoolSpec {
  import opened Wrappers
  import opened Stake
  import opened Waiters

  const LIFETIME := 60

  datatype Batch = Batch(data: Bytes, signer: Key)
  datatype Entry = Entry(batch: Batch, time: nat)

  datatype PoolEvent = Pushed(h: Bytes) | Deleted(h: Bytes) | Collected(h: Bytes)

  /** `log` is the history of what entered and left the pool. */
  datatype Pool = Pool(batches: map<Bytes, Entry>, subs: Table<Bytes, Batch>, log: seq<PoolEvent>)

  datatype PullOutcome = Pulled(batch: Batch) | Parked(sub: nat)

  const NoPool: Pool := Pool(map[], Empty(), [])

  function Push(hash: Bytes -> Bytes, p: Pool, b: Batch, now: nat): Pool {
    var h := hash(b.data);
    Pool(p.batches[h := Entry(b, now)], Notify(p.subs, h, Value(b)), p.log + [Pushed(h)])
  }

  function Pull(p: Pool, h: Bytes): (Pool, PullOutcome) {
    if h in p.batches then (p, Pulled(p.batches[h].batch))
    else (p.(subs := Join(p.subs, h)), Parked(p.subs.next))
  }

  function CancelPull(p: Pool, s: nat): Pool
    requires s in p.subs.home
  {
    p.(subs := Leave(p.subs, s))
  }

  /** Takes a batch out, closing the channels of those who wait for it. */
  function Remove(p: Pool, e: PoolEvent): Pool {
    Pool(p.batches - {e.h}, Notify(p.subs, e.h, Closed), p.log + [e])
  }

  function DeleteAll(p: Pool, hashes: seq<Bytes>): Pool {
    if hashes == [] then p
    else Remove(DeleteAll(p, hashes[..|hashes| - 1]), Deleted(hashes[|hashes| - 1]))
  }

  function CollectAll(p: Pool, hashes: seq<Bytes>): Pool {
    if hashes == [] then p
    else Remove(CollectAll(p, hashes[..|hashes| - 1]), Collected(hashes[|hashes| - 1]))
  }

  /** The entries more than a minute old. */
  function Expired(p: Pool, now: nat): set<Bytes> {
    set h | h in p.batches && p.batches[h].time + LIFETIME < now
  }

  // ----- Conservation -----

  /** The latest event about a hash. */
  function Latest(log: seq<PoolEvent>, h: Bytes): Option<PoolEvent> {
    if log == [] then None
    else if log[|log| - 1].h == h then Some(log[|log| - 1])
    else Latest(log[..|log| - 1], h)
  }

  /** A batch is in the pool exactly when it was pushed and neither deleted nor collected since,
      and nobody is parked for a batch that is there. */
  ghost predicate PoolOk(hash: Bytes -> Bytes, p: Pool) {
    && TableOk(p.subs)
    && p.batches.Keys !! p.subs.heads.Keys
    && (forall h :: h in p.batches ==> hash(p.batches[h].batch.data) == h)
    && (forall h :: h in p.batches <==> Latest(p.log, h) == Some(Pushed(h)))
    && (forall s :: s in p.subs.home && EventsOf(p.subs, s) != [] ==> Latest(p.log, p.subs.home[s].0).Some?)
  }

  lemma LatestAppend(log: seq<PoolEvent>, e: PoolEvent, h: Bytes)
    ensures Latest(log + [e], h) == if e.h == h then Some(e) else Latest(log, h)
  {
    assert (log + [e])[..|log|] == log;
  }

  lemma {:induction false} LatestIsThere(log: seq<PoolEvent>, h: Bytes)
    ensures Latest(log, h).None? <==> forall e :: e in log ==> e.h != h
    ensures Latest(log, h).Some? ==> Latest(log, h).value in log && Latest(log, h).value.h == h
  {
    if log != [] {
      LatestIsThere(log[..|log| - 1], h);
      assert log == log[..|log| - 1] + [log[|log| - 1]];
    }
  }

  lemma LatestStays(log: seq<PoolEvent>, log': seq<PoolEvent>, h: Bytes)
    requires log <= log' && Latest(log, h).Some?
    ensures Latest(log', h).Some?
  {
    LatestIsThere(log, h);
    LatestIsThere(log', h);
  }

  lemma PushKeepsOk(hash: Bytes -> Bytes, p: Pool, b: Batch, now: nat)
    requires PoolOk(hash, p)
    ensures PoolOk(hash, Push(hash, p, b, now))
  {
    NotifyKeepsOk(p.subs, hash(b.data), Value(b));
    forall h { LatestAppend(p.log, Pushed(hash(b.data)), h); }
  }

  lemma RemoveKeepsOk(hash: Bytes -> Bytes, p: Pool, e: PoolEvent)
    requires PoolOk(hash, p) && !e.Pushed?
    ensures PoolOk(hash, Remove(p, e))
  {
    NotifyKeepsOk(p.subs, e.h, Closed);
    forall h { LatestAppend(p.log, e, h); }
  }

  lemma PullKeepsOk(hash: Bytes -> Bytes, p: Pool, h: Bytes)
    requires PoolOk(hash, p)
    ensures PoolOk(hash, Pull(p, h).0)
  {
    JoinKeepsOk(p.subs, h);
  }

  lemma CancelKeepsOk(hash: Bytes -> Bytes, p: Pool, s: nat)
    requires PoolOk(hash, p) && s in p.subs.home && s !in p.subs.gone
    ensures PoolOk(hash, CancelPull(p, s))
  {
    LeaveKeepsOk(p.subs, s);
  }

  /** A pushed batch can be pulled, and whoever is parked for it gets it; if it is removed
      instead, the parked caller is told so. */
  lemma ParkedIsAnswered(hash: Bytes -> Bytes, p: Pool, b: Batch, now: nat, e: PoolEvent)
    requires PoolOk(hash, p) && e.h == hash(b.data)
    ensures Pull(Push(hash, p, b, now), e.h).1 == Pulled(b)
    ensures Pull(p, e.h).1.Parked? ==>
              var p', s := Pull(p, e.h).0, Pull(p, e.h).1.sub;
              EventsOf(Push(hash, p', b, now).subs, s) == [Value(b)] && EventsOf(Remove(p', e).subs, s) == [Closed]
  {
    JoinedWaiters(p.subs, e.h, e.h);
    assert p.subs.next in Attached(Join(p.subs, e.h), e.h);
  }

  // ----- Uses -----

  /** A critical section of anyone who uses the pool. A caller gives up at most once. */
  datatype Use =
    | DoPush(b: Batch, now: nat)
    | DoPull(h: Bytes)
    | DoCancel(s: nat)
    | DoDelete(h: Bytes)
    | DoCollect(h: Bytes, now: nat)

  predicate MayUse(p: Pool, u: Use) {
    match u
    case DoCancel(s) => s in p.subs.home && s !in p.subs.gone
    case DoCollect(h, now) => h in Expired(p, now)
    case _ => true
  }

  function Used(hash: Bytes -> Bytes, p: Pool, u: Use): Pool
    requires MayUse(p, u)
  {
    match u
    case DoPush(b, now) => Push(hash, p, b, now)
    case DoPull(h) => Pull(p, h).0
    case DoCancel(s) => CancelPull(p, s)
    case DoDelete(h) => Remove(p, Deleted(h))
    case DoCollect(h, _) => Remove(p, Collected(h))
  }

  lemma UseKeepsOk(hash: Bytes -> Bytes, p: Pool, u: Use)
    requires PoolOk(hash, p) && MayUse(p, u)
    ensures PoolOk(hash, Used(hash, p, u)) && p.log <= Used(hash, p, u).log
  {
    match u
    case DoPush(b, now) => PushKeepsOk(hash, p, b, now);
    case DoPull(h) => PullKeepsOk(hash, p, h);
    case DoCancel(s) => CancelKeepsOk(hash, p, s);
    case DoDelete(h) => RemoveKeepsOk(hash, p, Deleted(h));
    case DoCollect(h, _) => RemoveKeepsOk(hash, p, Collected(h));
  }

  /** The one use of the pool that takes a wake-up from somebody. */
  predicate StealsWakeup(p: Pool, u: Use) {
    u.DoCancel? && u.s in p.subs.home && LastOfDetached(p.subs, u.s)
  }

  /** While every waiter can be reached, exactly that use ends it. */
  lemma UseKeepsReachable(hash: Bytes -> Bytes, p: Pool, u: Use)
    requires PoolOk(hash, p) && Reachable(p.subs) && MayUse(p, u)
    ensures Reachable(Used(hash, p, u).subs) <==> !StealsWakeup(p, u)
  {
    match u
    case DoPush(b, _) => NotifyReachesAll(p.subs, hash(b.data), Value(b));
    case DoPull(h) => JoinKeepsReachable(p.subs, h);
    case DoCancel(s) => LeaveKeepsReachable(p.subs, s);
    case DoDelete(h) => NotifyReachesAll(p.subs, h, Closed);
    case DoCollect(h, _) => NotifyReachesAll(p.subs, h, Closed);
  }

  ghost predicate Forgotten(p: Pool, s: nat) {
    LeftOut(p.subs, s)
  }

  lemma SomebodyForgotten(p: Pool) returns (s: nat)
    requires !Reachable(p.subs)
    ensures Forgotten(p, s)
  {
    s :| s in p.subs.home && s !in p.subs.gone && EventsOf(p.subs, s) == [] && s !in Attached(p.subs, p.subs.home[s].0);
  }

  /** A wake-up that was taken is never made up for. */
  lemma ForgottenForever(hash: Bytes -> Bytes, p: Pool, u: Use, s: nat)
    requires PoolOk(hash, p) && Forgotten(p, s) && MayUse(p, u)
    ensures Forgotten(Used(hash, p, u), s) || u == DoCancel(s)
  {
    match u
    case DoPush(b, _) => NotifyLeavesOut(p.subs, hash(b.data), Value(b), s);
    case DoPull(h) => JoinLeavesOut(p.subs, h, s);
    case DoCancel(x) => if x != s { LeaveLeavesOut(p.subs, x, s); }
    case DoDelete(h) => NotifyLeavesOut(p.subs, h, Closed, s);
    case DoCollect(h, _) => NotifyLeavesOut(p.subs, h, Closed, s);
  }

  /** The pool has the batch, or it was deleted or collected and not pushed again. */
  predicate HasOrRemoved(p: Pool, h: Bytes) {
    h in p.batches || (Latest(p.log, h).Some? && !Latest(p.log, h).value.Pushed?)
  }

  /** A pull comes back, at once or through its channel, only for a batch that something happened
      to, and that is now there or was removed. */
  lemma AnsweredIsKnown(hash: Bytes -> Bytes, p: Pool, h: Bytes, s: nat)
    requires PoolOk(hash, p)
    ensures Pull(p, h).1.Pulled? ==> Latest(p.log, h).Some?
    ensures s in p.subs.home && p.subs.home[s].0 == h && EventsOf(p.subs, s) != [] ==> Latest(p.log, h).Some?
    ensures Latest(p.log, h).Some? <==> HasOrRemoved(p, h)
  {
    LatestIsThere(p.log, h);
  }

  lemma {:induction false} DeleteAllKeepsOk(hash: Bytes -> Bytes, p: Pool, hashes: seq<Bytes>)
    requires PoolOk(hash, p)
    ensures PoolOk(hash, DeleteAll(p, hashes))
  {
    if hashes != [] {
      var n := |hashes| - 1;
      DeleteAllKeepsOk(hash, p, hashes[..n]);
      RemoveKeepsOk(hash, DeleteAll(p, hashes[..n]), Deleted(hashes[n]));
    }
  }

  lemma {:induction false} DeleteAllRemoves(p: Pool, hashes: seq<Bytes>, h: Bytes)
    ensures h in DeleteAll(p, hashes).batches <==> h in p.batches && h !in hashes
  {
    if hashes != [] {
      var n := |hashes| - 1;
      DeleteAllRemoves(p, hashes[..n], h);
      assert hashes == hashes[..n] + [hashes[n]];
    }
  }

  lemma SameLastDeletion(p: Pool, q: Pool, c: seq<Bytes>, d: seq<Bytes>)
    requires c != [] && d != [] && c[|c| - 1] == d[|d| - 1]
    requires DeleteAll(p, c[..|c| - 1]) == DeleteAll(q, d[..|d| - 1])
    ensures DeleteAll(p, c) == DeleteAll(q, d)
  {
  }

  lemma {:induction false} DeleteAllAppend(p: Pool, a: seq<Bytes>, b: seq<Bytes>)
    ensures DeleteAll(p, a + b) == DeleteAll(DeleteAll(p, a), b)
  {
    if b == [] {
      assert a + b == a;
    } else {
      var n := |b| - 1;
      DeleteAllAppend(p, a, b[..n]);
      assert (a + b)[..|a + b| - 1] == a + b[..n];
      SameLastDeletion(p, DeleteAll(p, a), a + b, b);
    }
  }

  /** What was removed and is there again was pushed again in between. */
  lemma {:induction false} BackOnlyByPush(log: seq<PoolEvent>, h: Bytes, i: nat)
    requires i < |log| && log[i].h == h && !log[i].Pushed? && Latest(log, h) == Some(Pushed(h))
    ensures exists j :: i < j < |log| && log[j] == Pushed(h)
  {
    var n := |log| - 1;
    if log[n].h == h {
      assert i < n && log[n] == Pushed(h);
    } else {
      BackOnlyByPush(log[..n], h, i);
    }
  }
}
