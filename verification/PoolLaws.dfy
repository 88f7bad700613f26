/** What each use of the pool leaves of it, by observation: the entries, who waits, what was sent,
    and what was logged. */
module PoolLaws {
  import opened Stake
  import opened Waiters
  import opened PoolSpec

  /** A push stores the batch under its hash with the time, whatever was there; all other entries
      stay. Who waits for it, and nobody else, gets it, and waits no more. */
  lemma PushIs(hash: Bytes -> Bytes, p: Pool, b: Batch, now: nat, h: Bytes, s: nat)
    requires TableOk(p.subs)
    ensures var p' := Push(hash, p, b, now);
            && hash(b.data) in p'.batches && p'.batches[hash(b.data)] == Entry(b, now)
            && (h != hash(b.data) ==> (h in p'.batches <==> h in p.batches))
            && (h != hash(b.data) && h in p.batches ==> p'.batches[h] == p.batches[h])
            && p'.log == p.log + [Pushed(hash(b.data))]
            && Attached(p'.subs, h) == (if h == hash(b.data) then {} else Attached(p.subs, h))
            && (s in p.subs.home ==>
                  EventsOf(p'.subs, s) == if s in Attached(p.subs, hash(b.data)) then [Value(b)] else EventsOf(p.subs, s))
  {
    if s in p.subs.home { NotifyOnEvents(p.subs, hash(b.data), Value(b), s); }
  }

  /** A pull changes no entry and logs nothing. A batch that is there comes back at once; otherwise
      one new caller waits for just that batch. */
  lemma PullIs(p: Pool, h: Bytes, h': Bytes)
    requires TableOk(p.subs)
    ensures var (p', outcome) := Pull(p, h);
            && p'.batches == p.batches && p'.log == p.log
            && (h in p.batches ==> p' == p && outcome == Pulled(p.batches[h].batch))
            && (h !in p.batches ==>
                  && outcome.Parked? && outcome.sub !in p.subs.home && EventsOf(p'.subs, outcome.sub) == []
                  && Attached(p'.subs, h') == Attached(p.subs, h') + if h' == h then {outcome.sub} else {})
  {
    JoinedWaiters(p.subs, h, h');
    JoinKeepsOk(p.subs, h);
  }

  /** Who cancels a pull is gone: nobody reaches it any more. No entry changes, nothing is sent, and
      those who wait for other batches keep waiting. */
  lemma CancelIs(p: Pool, s: nat, h: Bytes)
    requires TableOk(p.subs) && s in p.subs.home && s !in p.subs.gone
    ensures var p' := CancelPull(p, s);
            && p'.batches == p.batches && p'.log == p.log && p'.subs.events == p.subs.events
            && s in p'.subs.gone && s !in Attached(p'.subs, h)
            && (h != p.subs.home[s].0 ==> Attached(p'.subs, h) == Attached(p.subs, h))
  {
    assert WaiterOk(p.subs, s);
  }

  // ----- Removals -----

  ghost predicate Names(es: seq<PoolEvent>, h: Bytes) {
    exists k :: 0 <= k < |es| && es[k].h == h
  }

  /** Who waits for one of the named batches. */
  ghost predicate WaitsForOne(p: Pool, es: seq<PoolEvent>, s: nat) {
    exists h :: Names(es, h) && s in Attached(p.subs, h)
  }

  /** Exactly the named batches are gone, and these removals are logged in order; who waited for one
      of them, and nobody else, was told so, once, and waits no more. */
  ghost predicate TakenOut(p: Pool, es: seq<PoolEvent>, p': Pool) {
    && p'.log == p.log + es
    && (forall h :: h in p'.batches <==> h in p.batches && !Names(es, h))
    && (forall h :: h in p'.batches ==> p'.batches[h] == p.batches[h])
    && (forall h :: Attached(p'.subs, h) == if Names(es, h) then {} else Attached(p.subs, h))
    && (forall s :: EventsOf(p'.subs, s) == EventsOf(p.subs, s) + if WaitsForOne(p, es, s) then [Closed] else [])
  }

  lemma NamesOneMore(es: seq<PoolEvent>, e: PoolEvent, h: Bytes)
    ensures Names(es + [e], h) <==> Names(es, h) || e.h == h
  {
    if Names(es, h) {
      var k :| 0 <= k < |es| && es[k].h == h;
      assert (es + [e])[k].h == h;
    }
    if e.h == h { assert (es + [e])[|es|].h == h; }
  }

  /** A channel waits for one batch only. */
  lemma WaitsForOnlyOne(t: Table<Bytes, Batch>, s: nat, h: Bytes, h': Bytes)
    requires TableOk(t) && s in Attached(t, h) && s in Attached(t, h')
    ensures h == h'
  {
    assert s in t.inner[t.heads[h]] && s in t.inner[t.heads[h']];
    assert t.home[s].0 == h && t.home[s].0 == h';
  }

  lemma ToldOnce(p: Pool, es: seq<PoolEvent>, q: Pool, e: PoolEvent, s: nat)
    requires TableOk(p.subs) && TakenOut(p, es, q)
    ensures EventsOf(Remove(q, e).subs, s) ==
            EventsOf(p.subs, s) + if WaitsForOne(p, es + [e], s) then [Closed] else []
  {
    forall h ensures Names(es + [e], h) <==> Names(es, h) || e.h == h {
      NamesOneMore(es, e, h);
    }
    assert EventsOf(p.subs, s) + [] == EventsOf(p.subs, s);
    if s in Attached(q.subs, e.h) {
      assert s in Attached(p.subs, e.h) && !Names(es, e.h);
      if WaitsForOne(p, es, s) {
        var h :| Names(es, h) && s in Attached(p.subs, h);
        WaitsForOnlyOne(p.subs, s, h, e.h);
      }
      assert WaitsForOne(p, es + [e], s);
      assert EventsOf(Remove(q, e).subs, s) == EventsOf(q.subs, s) + [Closed];
    } else {
      if WaitsForOne(p, es, s) {
        var h :| Names(es, h) && s in Attached(p.subs, h);
        assert Names(es + [e], h);
      }
      assert WaitsForOne(p, es + [e], s) <==> WaitsForOne(p, es, s);
      assert EventsOf(Remove(q, e).subs, s) == EventsOf(q.subs, s);
    }
  }

  lemma TakeOneMore(p: Pool, es: seq<PoolEvent>, q: Pool, e: PoolEvent)
    requires TableOk(p.subs) && TakenOut(p, es, q)
    ensures TakenOut(p, es + [e], Remove(q, e))
  {
    forall h ensures Names(es + [e], h) <==> Names(es, h) || e.h == h {
      NamesOneMore(es, e, h);
    }
    forall s ensures EventsOf(Remove(q, e).subs, s) ==
        EventsOf(p.subs, s) + if WaitsForOne(p, es + [e], s) then [Closed] else [] {
      ToldOnce(p, es, q, e, s);
    }
    assert p.log + (es + [e]) == p.log + es + [e];
  }

  lemma TakeNone(p: Pool)
    ensures TakenOut(p, [], p)
  {
    forall s ensures EventsOf(p.subs, s) == EventsOf(p.subs, s) + [] {}
    assert p.log + [] == p.log;
  }

  /** A removal of one batch. */
  lemma RemoveIs(p: Pool, e: PoolEvent)
    requires TableOk(p.subs)
    ensures TakenOut(p, [e], Remove(p, e))
  {
    TakeNone(p);
    TakeOneMore(p, [], p, e);
    assert [] + [e] == [e];
  }

  function Deletions(hashes: seq<Bytes>): seq<PoolEvent> {
    seq(|hashes|, k requires 0 <= k < |hashes| => Deleted(hashes[k]))
  }

  function Collections(hashes: seq<Bytes>): seq<PoolEvent> {
    seq(|hashes|, k requires 0 <= k < |hashes| => Collected(hashes[k]))
  }

  lemma NamesTheseOnly(hashes: seq<Bytes>, h: Bytes)
    ensures Names(Deletions(hashes), h) <==> h in hashes
    ensures Names(Collections(hashes), h) <==> h in hashes
  {
    if h in hashes {
      var k :| 0 <= k < |hashes| && hashes[k] == h;
      assert Deletions(hashes)[k].h == h && Collections(hashes)[k].h == h;
    }
  }

  /** Deleting a list of batches takes out exactly these, in order. */
  lemma {:induction false} DeleteAllIs(p: Pool, hashes: seq<Bytes>)
    requires TableOk(p.subs)
    ensures TakenOut(p, Deletions(hashes), DeleteAll(p, hashes))
    ensures forall h :: Names(Deletions(hashes), h) <==> h in hashes
  {
    forall h ensures Names(Deletions(hashes), h) <==> h in hashes {
      NamesTheseOnly(hashes, h);
    }
    if hashes == [] {
      TakeNone(p);
      assert Deletions(hashes) == [];
    } else {
      var n := |hashes| - 1;
      DeleteAllIs(p, hashes[..n]);
      TakeOneMore(p, Deletions(hashes[..n]), DeleteAll(p, hashes[..n]), Deleted(hashes[n]));
      assert Deletions(hashes) == Deletions(hashes[..n]) + [Deleted(hashes[n])];
    }
  }

  /** Without looking at who waits. */
  lemma {:induction false} DeleteAllKeepsEntries(p: Pool, hashes: seq<Bytes>)
    ensures var p' := DeleteAll(p, hashes);
            && (forall h :: h in p'.batches ==> h in p.batches && p'.batches[h] == p.batches[h])
            && p'.log == p.log + Deletions(hashes)
  {
    if hashes != [] {
      var n := |hashes| - 1;
      DeleteAllKeepsEntries(p, hashes[..n]);
      assert Deletions(hashes) == Deletions(hashes[..n]) + [Deleted(hashes[n])];
    }
  }

  /** So does collecting them. */
  lemma {:induction false} CollectAllIs(p: Pool, hashes: seq<Bytes>)
    requires TableOk(p.subs)
    ensures TakenOut(p, Collections(hashes), CollectAll(p, hashes))
    ensures forall h :: Names(Collections(hashes), h) <==> h in hashes
  {
    forall h ensures Names(Collections(hashes), h) <==> h in hashes {
      NamesTheseOnly(hashes, h);
    }
    if hashes == [] {
      TakeNone(p);
      assert Collections(hashes) == [];
    } else {
      var n := |hashes| - 1;
      CollectAllIs(p, hashes[..n]);
      TakeOneMore(p, Collections(hashes[..n]), CollectAll(p, hashes[..n]), Collected(hashes[n]));
      assert Collections(hashes) == Collections(hashes[..n]) + [Collected(hashes[n])];
    }
  }
}
