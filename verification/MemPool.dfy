/** The mutable in-memory batch pool, each method proved against `PoolSpec`. */
module BatchPool {
  import opened Stake
  import opened Waiters
  import opened WaiterTables
  import opened PoolSpec
  import opened PoolLaws

  class MemPool {
    const hash: Bytes -> Bytes
    var batches: map<Bytes, Entry>
    const batchesSubs: WaiterTable<Bytes, Batch>
    ghost var log: seq<PoolEvent>

    constructor (hash: Bytes -> Bytes)
      ensures this.hash == hash && Model() == NoPool && fresh(batchesSubs)
    {
      this.hash := hash;
      batches := map[];
      log := [];
      batchesSubs := new WaiterTable<Bytes, Batch>();
    }

    ghost function Model(): Pool
      reads this, batchesSubs
    {
      Pool(batches, batchesSubs.t, log)
    }

    method Push(b: Batch, now: nat)
      modifies this, batchesSubs
      ensures Model() == PoolSpec.Push(hash, old(Model()), b, now)
      ensures batches == old(batches)[hash(b.data) := Entry(b, now)] && log == old(log) + [Pushed(hash(b.data))]
    {
      var key := hash(b.data);
      batches := batches[key := Entry(b, now)];
      batchesSubs.Notify(key, Value(b));
      log := log + [Pushed(key)];
    }

    method Pull(h: Bytes) returns (outcome: PullOutcome)
      modifies batchesSubs
      ensures (Model(), outcome) == PoolSpec.Pull(old(Model()), h)
      ensures if h in batches then outcome == Pulled(batches[h].batch) && batchesSubs.t == old(batchesSubs.t)
              else outcome.Parked?
    {
      if h in batches {
        return Pulled(batches[h].batch);
      }
      var sub := batchesSubs.Join(h);
      return Parked(sub);
    }

    method CancelPull(s: nat)
      requires s in Model().subs.home
      modifies batchesSubs
      ensures Model() == PoolSpec.CancelPull(old(Model()), s)
    {
      batchesSubs.Leave(s);
    }

    method Delete(h: Bytes)
      modifies this, batchesSubs
      ensures Model() == Remove(old(Model()), Deleted(h))
      ensures batches == old(batches) - {h} && log == old(log) + [Deleted(h)]
    {
      batches := batches - {h};
      batchesSubs.Notify(h, Closed);
      log := log + [Deleted(h)];
    }

    method DeleteEach(hashes: seq<Bytes>)
      modifies this, batchesSubs
      ensures Model() == DeleteAll(old(Model()), hashes)
    {
      var i := 0;
      while i < |hashes|
        invariant 0 <= i <= |hashes| && Model() == DeleteAll(old(Model()), hashes[..i])
      {
        Delete(hashes[i]);
        assert hashes[..i + 1][..i] == hashes[..i];
        i := i + 1;
      }
      assert hashes[..i] == hashes;
    }

    /** One pass over the pool; an empty result is where the caller waits for a push. */
    method ListBySigner(key: Key) returns (list: seq<Batch>)
      requires PoolOk(hash, Model())
      ensures forall h :: h in batches && batches[h].batch.signer == key ==> batches[h].batch in list
      ensures forall b :: b in list ==> b.signer == key && hash(b.data) in batches && batches[hash(b.data)].batch == b
      ensures forall i, j :: 0 <= i < j < |list| ==> hash(list[i].data) != hash(list[j].data)
    {
      list := [];
      var keys := batches.Keys;
      while keys != {}
        invariant keys <= batches.Keys
        invariant forall h :: h in batches.Keys - keys && batches[h].batch.signer == key ==> batches[h].batch in list
        invariant forall b :: b in list ==>
          b.signer == key && hash(b.data) in batches.Keys - keys && batches[hash(b.data)].batch == b
        invariant forall i, j :: 0 <= i < j < |list| ==> hash(list[i].data) != hash(list[j].data)
        decreases keys
      {
        var h :| h in keys;
        keys := keys - {h};
        if batches[h].batch.signer == key {
          assert forall i :: 0 <= i < |list| ==> list[i] in list;
          list := list + [batches[h].batch];
        }
      }
    }

    /** Collects exactly the entries pushed more than a minute ago, in some order, and tells those
        who wait for one of them. */
    method Gc(now: nat) returns (ghost collected: seq<Bytes>)
      modifies this, batchesSubs
      ensures Model() == CollectAll(old(Model()), collected)
      ensures forall h :: h in batches <==> h in old(batches) && now <= old(batches)[h].time + 60
      ensures forall h :: h in batches ==> batches[h] == old(batches)[h]
      ensures forall h :: h in collected <==> h in old(batches) && now > old(batches)[h].time + 60
      ensures forall i, j :: 0 <= i < j < |collected| ==> collected[i] != collected[j]
      ensures old(TableOk(batchesSubs.t)) ==> TakenOut(old(Model()), Collections(collected), Model())
    {
      collected := CollectExpired(now);
      if old(TableOk(batchesSubs.t)) { CollectAllIs(old(Model()), collected); }
    }

    method CollectOne(h: Bytes)
      modifies this, batchesSubs
      ensures Model() == Remove(old(Model()), Collected(h)) && batches == old(batches) - {h}
    {
      batches := batches - {h};
      batchesSubs.Notify(h, Closed);
      log := log + [Collected(h)];
    }

    method CollectExpired(now: nat) returns (ghost collected: seq<Bytes>)
      modifies this, batchesSubs
      ensures Model() == CollectAll(old(Model()), collected)
      ensures forall h :: h in batches <==> h in old(batches) && h !in collected
      ensures forall h :: h in batches ==> batches[h] == old(batches)[h]
      ensures forall h :: h in collected <==> h in Expired(old(Model()), now)
      ensures forall i, j :: 0 <= i < j < |collected| ==> collected[i] != collected[j]
    {
      collected := [];
      var keys := batches.Keys;
      while keys != {}
        invariant keys <= batches.Keys <= old(batches).Keys
        invariant forall h :: h in batches <==> h in old(batches) && h !in collected
        invariant forall h :: h in batches ==> batches[h] == old(batches)[h]
        invariant forall h :: h in collected <==> h in Expired(old(Model()), now) && h !in keys
        invariant forall i, j :: 0 <= i < j < |collected| ==> collected[i] != collected[j]
        invariant Model() == CollectAll(old(Model()), collected)
        decreases keys
      {
        var h :| h in keys;
        keys := keys - {h};
        if batches[h].time + LIFETIME < now {
          CollectOne(h);
          assert (collected + [h])[..|collected|] == collected;
          collected := collected + [h];
        }
      }
    }
  }
}
