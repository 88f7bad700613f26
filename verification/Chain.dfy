/** The chain: parents, retirement of committed batches, the own block, and the height. */
module DagChain {
  import opened Wrappers
  import opened Stake
  import opened QuorumSpec
  import opened PoolSpec
  import opened PoolLaws
  import opened BatchPool
  import opened NodeRound

  datatype RoundResult = Panicked | NoBatches | Failed(msg: Message) | Finished(msg: Message)

  /** Decoding the data of a message; a name for the application, which does not depend on the heap. */
  function Decode(parse: Bytes -> Option<Block>, data: Bytes): Option<Block> {
    parse(data)
  }

  ghost predicate AllParse(parse: Bytes -> Option<Block>, certs: seq<Cert>) {
    forall i :: 0 <= i < |certs| ==> Decode(parse, certs[i].msg.data).Some?
  }

  /** The batch hashes that some data lists, if it is a block. */
  function BatchesOf(parse: Bytes -> Option<Block>, data: Bytes): seq<Bytes> {
    match Decode(parse, data)
    case Some(b) => b.batches
    case None => []
  }

  /** The batch hashes listed by the blocks of some certificates, in order. */
  function Retired(parse: Bytes -> Option<Block>, certs: seq<Cert>): seq<Bytes> {
    if certs == [] then []
    else Retired(parse, certs[..|certs| - 1]) + BatchesOf(parse, certs[|certs| - 1].msg.data)
  }

  /** The data is a block that lists just these batches, in this order. */
  predicate IsBlockOf(parse: Bytes -> Option<Block>, data: Bytes, batches: seq<Bytes>) {
    parse(data).Some? && parse(data).value.batches == batches
  }

  /** The block's batches stand from `cuts[i]` to `cuts[i + 1]`. */
  predicate StandsAt(parse: Bytes -> Option<Block>, data: Bytes, hashes: seq<Bytes>, cuts: seq<nat>, i: nat) {
    && i + 1 < |cuts| && cuts[i] <= cuts[i + 1] <= |hashes|
    && IsBlockOf(parse, data, hashes[cuts[i]..cuts[i + 1]])
  }

  /** These are the batches that the blocks of the certificates list, one block after the other. */
  ghost predicate InOrder(parse: Bytes -> Option<Block>, certs: seq<Cert>, hashes: seq<Bytes>, cuts: seq<nat>) {
    && |cuts| == |certs| + 1 && cuts[0] == 0 && cuts[|certs|] == |hashes|
    && forall i :: 0 <= i < |certs| ==> StandsAt(parse, certs[i].msg.data, hashes, cuts, i)
  }

  lemma {:induction false} RetiredInOrder(parse: Bytes -> Option<Block>, certs: seq<Cert>) returns (cuts: seq<nat>)
    requires AllParse(parse, certs)
    ensures InOrder(parse, certs, Retired(parse, certs), cuts)
  {
    if certs == [] {
      cuts := [0];
    } else {
      var n := |certs| - 1;
      var before := RetiredInOrder(parse, certs[..n]);
      assert Decode(parse, certs[n].msg.data).Some?;
      cuts := OneMoreInOrder(parse, certs, Retired(parse, certs[..n]), BatchesOf(parse, certs[n].msg.data), before);
    }
  }

  lemma OneMoreInOrder(parse: Bytes -> Option<Block>, certs: seq<Cert>, hashes: seq<Bytes>,
    last: seq<Bytes>, before: seq<nat>) returns (cuts: seq<nat>)
    requires certs != [] && InOrder(parse, certs[..|certs| - 1], hashes, before)
    requires IsBlockOf(parse, certs[|certs| - 1].msg.data, last)
    ensures InOrder(parse, certs, hashes + last, cuts)
  {
    var n := |certs| - 1;
    cuts := before + [|hashes + last|];
    forall i | 0 <= i < n ensures StandsAt(parse, certs[i].msg.data, hashes + last, cuts, i) {
      StillStands(parse, certs[i].msg.data, hashes, last, before, i);
      assert certs[..n][i] == certs[i];
    }
    assert (hashes + last)[cuts[n]..cuts[n + 1]] == last;
  }

  lemma StillStands(parse: Bytes -> Option<Block>, data: Bytes, hashes: seq<Bytes>, last: seq<Bytes>, cuts: seq<nat>, i: nat)
    ensures StandsAt(parse, data, hashes, cuts, i) ==>
              StandsAt(parse, data, hashes + last, cuts + [|hashes + last|], i)
  {
    if StandsAt(parse, data, hashes, cuts, i) {
      assert (hashes + last)[cuts[i]..cuts[i + 1]] == hashes[cuts[i]..cuts[i + 1]];
    }
  }

  /** The data is a block that lists the batch. */
  predicate ListsBatch(parse: Bytes -> Option<Block>, data: Bytes, h: Bytes) {
    parse(data).Some? && h in parse(data).value.batches
  }

  /** A block of one of the certificates lists the batch. */
  ghost predicate Lists(parse: Bytes -> Option<Block>, certs: seq<Cert>, h: Bytes) {
    exists i :: 0 <= i < |certs| && ListsBatch(parse, certs[i].msg.data, h)
  }

  lemma {:induction false} RetiredAreListed(parse: Bytes -> Option<Block>, certs: seq<Cert>, h: Bytes)
    ensures h in Retired(parse, certs) <==> Lists(parse, certs, h)
  {
    if certs != [] {
      var n := |certs| - 1;
      RetiredAreListed(parse, certs[..n], h);
      ListsOneMore(parse, certs, h);
    }
  }

  lemma ListsOneMore(parse: Bytes -> Option<Block>, certs: seq<Cert>, h: Bytes)
    requires certs != []
    ensures var n := |certs| - 1;
            Lists(parse, certs, h) <==> Lists(parse, certs[..n], h) || ListsBatch(parse, certs[n].msg.data, h)
  {
    var n := |certs| - 1;
    if Lists(parse, certs[..n], h) {
      var i :| 0 <= i < n && ListsBatch(parse, certs[..n][i].msg.data, h);
      assert certs[..n][i] == certs[i];
    }
    if i :| 0 <= i < n && ListsBatch(parse, certs[i].msg.data, h) {
      assert certs[..n][i] == certs[i];
    }
  }

  /** What retiring the first `k` certificates' batches leaves of the pool. */
  lemma RetiringIs(parse: Bytes -> Option<Block>, p: Pool, certs: seq<Cert>, k: nat, p': Pool) returns (cuts: seq<nat>)
    requires k <= |certs| && AllParse(parse, certs[..k]) && p' == DeleteAll(p, Retired(parse, certs[..k]))
    ensures InOrder(parse, certs[..k], Retired(parse, certs[..k]), cuts)
    ensures forall h :: h in p'.batches <==> h in p.batches && !Lists(parse, certs[..k], h)
    ensures forall h :: h in p'.batches ==> p'.batches[h] == p.batches[h]
    ensures p'.log == p.log + Deletions(Retired(parse, certs[..k]))
  {
    cuts := RetiredInOrder(parse, certs[..k]);
    forall h ensures h in p'.batches <==> h in p.batches && !Lists(parse, certs[..k], h) {
      DeleteAllRemoves(p, Retired(parse, certs[..k]), h);
      RetiredAreListed(parse, certs[..k], h);
    }
    DeleteAllKeepsEntries(p, Retired(parse, certs[..k]));
  }

  /** What one certificate does to the pool. */
  ghost predicate Retires(parse: Bytes -> Option<Block>, p: Pool, c: Cert, p': Pool) {
    Decode(parse, c.msg.data).Some? && p' == DeleteAll(p, BatchesOf(parse, c.msg.data))
  }

  /** The pool before the first certificate, and after each. */
  ghost predicate IsTrail(parse: Bytes -> Option<Block>, certs: seq<Cert>, trail: seq<Pool>) {
    1 <= |trail| <= |certs| + 1 && forall i :: 0 <= i < |trail| - 1 ==> Retires(parse, trail[i], certs[i], trail[i + 1])
  }

  lemma {:induction false} TrailRetires(parse: Bytes -> Option<Block>, certs: seq<Cert>, trail: seq<Pool>)
    requires IsTrail(parse, certs, trail)
    ensures trail[|trail| - 1] == DeleteAll(trail[0], Retired(parse, certs[..|trail| - 1]))
    ensures forall i :: 0 <= i < |trail| - 1 ==> Decode(parse, certs[i].msg.data).Some?
  {
    if |trail| > 1 {
      var n := |trail| - 2;
      TrailRetires(parse, certs, trail[..n + 1]);
      assert Retires(parse, trail[n], certs[n], trail[n + 1]);
      assert certs[..n + 1][..n] == certs[..n];
      DeleteAllAppend(trail[0], Retired(parse, certs[..n]), BatchesOf(parse, certs[n].msg.data));
    }
  }

  /** A trail keeps the pool's invariant; one to the end retires the batches of all. */
  lemma TrailEnds(hash: Bytes -> Bytes, parse: Bytes -> Option<Block>, certs: seq<Cert>, trail: seq<Pool>)
    requires IsTrail(parse, certs, trail)
    ensures PoolOk(hash, trail[0]) ==> PoolOk(hash, trail[|trail| - 1])
    ensures |trail| == |certs| + 1 ==>
              AllParse(parse, certs) && trail[|certs|] == DeleteAll(trail[0], Retired(parse, certs))
  {
    TrailRetires(parse, certs, trail);
    if PoolOk(hash, trail[0]) { DeleteAllKeepsOk(hash, trail[0], Retired(parse, certs[..|trail| - 1])); }
    if |trail| == |certs| + 1 { assert certs[..|certs|] == certs; }
  }

  /** What the trail comes to. */
  lemma TrailIs(parse: Bytes -> Option<Block>, certs: seq<Cert>, trail: seq<Pool>)
    returns (cuts: seq<nat>)
    requires IsTrail(parse, certs, trail)
    ensures var k, p, p' := |trail| - 1, trail[0], trail[|trail| - 1];
            && (forall i :: 0 <= i < k ==> parse(certs[i].msg.data).Some?)
            && p' == DeleteAll(p, Retired(parse, certs[..k]))
            && (forall h :: h in p'.batches <==>
                  h in p.batches && !exists i :: 0 <= i < k && h in parse(certs[i].msg.data).value.batches)
            && (forall h :: h in p'.batches ==> p'.batches[h] == p.batches[h])
            && p'.log == p.log + Deletions(Retired(parse, certs[..k]))
            && InOrder(parse, certs[..k], Retired(parse, certs[..k]), cuts)
  {
    var k, p, p' := |trail| - 1, trail[0], trail[|trail| - 1];
    TrailRetires(parse, certs, trail);
    assert forall i :: 0 <= i < k ==> certs[..k][i] == certs[i] && Decode(parse, certs[i].msg.data).Some?;
    cuts := RetiringIs(parse, p, certs, k, p');
    forall h ensures Lists(parse, certs[..k], h) <==>
        exists i :: 0 <= i < k && h in parse(certs[i].msg.data).value.batches {
      ListedBelow(parse, certs, k, h);
    }
  }

  lemma ListedBelow(parse: Bytes -> Option<Block>, certs: seq<Cert>, k: nat, h: Bytes)
    requires k <= |certs| && forall i :: 0 <= i < k ==> parse(certs[i].msg.data).Some?
    ensures Lists(parse, certs[..k], h) <==> exists i :: 0 <= i < k && h in parse(certs[i].msg.data).value.batches
  {
    if i :| 0 <= i < k && h in parse(certs[i].msg.data).value.batches {
      assert ListsBatch(parse, certs[..k][i].msg.data, h);
    }
  }

  ghost predicate AreHashesOf(hashes: seq<Bytes>, certs: seq<Cert>) {
    |hashes| == |certs| && forall i :: 0 <= i < |certs| ==> hashes[i] == certs[i].msg.id.hash
  }

  /** The batches a node may put in its own block. */
  ghost function OwnHashes(p: Pool, signer: Key): set<Bytes> {
    set h | h in p.batches && p.batches[h].batch.signer == signer
  }

  class Chain {
    const signer: Key
    const parse: Bytes -> Option<Block>
    const encode: Block -> Bytes
    var height: nat
    var lastCerts: seq<Cert>

    constructor (signer: Key, parse: Bytes -> Option<Block>, encode: Block -> Bytes)
      ensures this.signer == signer && this.parse == parse && this.encode == encode
      ensures height == 1 && lastCerts == []
    {
      this.signer := signer;
      this.parse := parse;
      this.encode := encode;
      height := 1;
      lastCerts := [];
    }

    /** Collects the parents and retires their batches. No result stands for the panic on data
        that does not parse, at certificate `k`, when the batches of all earlier certificates are gone.
        `deleted` is what was deleted, certificate by certificate. */
    method Cleanup(pool: MemPool)
      returns (parents: Option<seq<Bytes>>, ghost k: nat, ghost deleted: seq<Bytes>, ghost cuts: seq<nat>)
      modifies pool, pool.batchesSubs
      ensures k <= |lastCerts| && (parents.Some? <==> k == |lastCerts|) && (parents.Some? <==> AllParse(parse, lastCerts))
      ensures forall i :: 0 <= i < k ==> parse(lastCerts[i].msg.data).Some?
      ensures k < |lastCerts| ==> parse(lastCerts[k].msg.data).None?
      ensures parents.Some? ==>
                && |parents.value| == |lastCerts|
                && (forall i :: 0 <= i < |lastCerts| ==> parents.value[i] == lastCerts[i].msg.id.hash)
                && pool.Model() == DeleteAll(old(pool.Model()), Retired(parse, lastCerts))
                && (PoolOk(pool.hash, old(pool.Model())) ==> PoolOk(pool.hash, pool.Model()))
      ensures pool.Model() == DeleteAll(old(pool.Model()), Retired(parse, lastCerts[..k]))
      ensures forall h :: h in pool.batches <==>
                h in old(pool.batches) && !exists i :: 0 <= i < k && h in parse(lastCerts[i].msg.data).value.batches
      ensures forall h :: h in pool.batches ==> pool.batches[h] == old(pool.batches)[h]
      ensures pool.log == old(pool.log) + Deletions(deleted) && InOrder(parse, lastCerts[..k], deleted, cuts)
    {
      ghost var trail;
      parents, trail := CleanupOf(pool, lastCerts);
      k := |trail| - 1;
      deleted := Retired(parse, lastCerts[..k]);
      cuts := TrailIs(parse, lastCerts, trail);
      TrailEnds(pool.hash, parse, lastCerts, trail);
    }

    /** Goes through the certificates as far as their data parses. */
    method CleanupOf(pool: MemPool, certs: seq<Cert>) returns (parents: Option<seq<Bytes>>, ghost trail: seq<Pool>)
      modifies pool, pool.batchesSubs
      ensures IsTrail(parse, certs, trail) && trail[0] == old(pool.Model()) && trail[|trail| - 1] == pool.Model()
      ensures parents.Some? <==> |trail| == |certs| + 1
      ensures |trail| <= |certs| ==> Decode(parse, certs[|trail| - 1].msg.data).None?
      ensures parents.Some? ==>
                |parents.value| == |certs| && forall i :: 0 <= i < |certs| ==> parents.value[i] == certs[i].msg.id.hash
    {
      var hashes := [];
      trail := [pool.Model()];
      while |hashes| < |certs|
        invariant |hashes| <= |certs| && |trail| == |hashes| + 1 && IsTrail(parse, certs, trail)
        invariant trail[0] == old(pool.Model()) && trail[|hashes|] == pool.Model()
        invariant forall i :: 0 <= i < |hashes| ==> hashes[i] == certs[i].msg.id.hash
      {
        var ok := RetireBatches(pool, certs[|hashes|]);
        if !ok {
          return None, trail;
        }
        trail := trail + [pool.Model()];
        hashes := hashes + [certs[|hashes|].msg.id.hash];
      }
      return Some(hashes), trail;
    }

    method RetireBatches(pool: MemPool, cert: Cert) returns (ok: bool)
      modifies pool, pool.batchesSubs
      ensures ok <==> Decode(parse, cert.msg.data).Some?
      ensures ok ==> Retires(parse, old(pool.Model()), cert, pool.Model())
      ensures !ok ==> pool.Model() == old(pool.Model())
    {
      var block := Decode(parse, cert.msg.data);
      if block.None? {
        return false;
      }
      pool.DeleteEach(block.value.batches);
      return true;
    }

    method HashesOf(hash: Bytes -> Bytes, list: seq<Batch>) returns (hashes: seq<Bytes>)
      ensures |hashes| == |list| && forall i :: 0 <= i < |list| ==> hashes[i] == hash(list[i].data)
    {
      hashes := [];
      while |hashes| < |list|
        invariant |hashes| <= |list| && forall i :: 0 <= i < |hashes| ==> hashes[i] == hash(list[i].data)
      {
        hashes := hashes + [hash(list[|hashes|].data)];
      }
    }

    /** The own block of this height: it lists every own batch, once. Without own batches the
        caller would wait for some. */
    method Propose(pool: MemPool, parents: seq<Bytes>) returns (block: Block, msg: Message)
      requires PoolOk(pool.hash, pool.Model())
      ensures IsOwn(block, height, pool) && block.parents == parents
      ensures block.batches == [] <==> OwnHashes(pool.Model(), signer) == {}
      ensures msg == Message(Id(height, signer, pool.hash(encode(block))), encode(block))
    {
      var list := pool.ListBySigner(signer);
      var hashes := HashesOf(pool.hash, list);
      forall h | h in OwnHashes(pool.Model(), signer) ensures h in hashes {
        var j :| 0 <= j < |list| && list[j] == pool.batches[h].batch;
        assert hashes[j] == h;
      }
      forall i | 0 <= i < |hashes| ensures hashes[i] in OwnHashes(pool.Model(), signer) {
        assert list[i] in list;
      }
      assert hashes != [] ==> hashes[0] in OwnHashes(pool.Model(), signer);
      block := Block(height, signer, hashes, parents);
      var data := encode(block);
      msg := Message(Id(height, signer, pool.hash(data)), data);
    }

    /** One round. `outcome` is what the broadcast comes to: the certificates the quorum lists,
        or nothing when it fails, and then the round will be tried again from the start. `block` is
        the own block, which is broadcast under the round's id unless it would list no batch. */
    method StartRound(pool: MemPool, outcome: Option<seq<Cert>>) returns (res: RoundResult, ghost block: Block)
      requires PoolOk(pool.hash, pool.Model())
      modifies this, pool, pool.batchesSubs
      ensures res.Panicked? <==> !AllParse(parse, old(lastCerts))
      ensures !res.Panicked? ==>
                && pool.Model() == DeleteAll(old(pool.Model()), Retired(parse, old(lastCerts)))
                && AreHashesOf(block.parents, old(lastCerts))
                && IsOwn(block, old(height), pool)
      ensures res.NoBatches? <==> !res.Panicked? && OwnHashes(pool.Model(), signer) == {}
      ensures res.Finished? <==> !res.Panicked? && !res.NoBatches? && outcome.Some?
      ensures res.Finished? || res.Failed? ==>
                res.msg == Message(Id(old(height), signer, pool.hash(encode(block))), encode(block))
      ensures (height, lastCerts) ==
                if res.Finished? then (old(height) + 1, outcome.value) else (old(height), old(lastCerts))
    {
      var parents := Prepare(pool);
      res, block := Continue(pool, parents, outcome);
    }

    /** The round after its cleanup. */
    method Continue(pool: MemPool, parents: Option<seq<Bytes>>, outcome: Option<seq<Cert>>)
      returns (res: RoundResult, ghost block: Block)
      requires parents.Some? ==> PoolOk(pool.hash, pool.Model())
      modifies this`height, this`lastCerts
      ensures pool.Model() == old(pool.Model())
      ensures res.Panicked? <==> parents.None?
      ensures parents.Some? ==> IsOwn(block, old(height), pool) && block.parents == parents.value
      ensures res.NoBatches? <==> !res.Panicked? && OwnHashes(pool.Model(), signer) == {}
      ensures res.Finished? <==> !res.Panicked? && !res.NoBatches? && outcome.Some?
      ensures res.Finished? || res.Failed? ==>
                res.msg == Message(Id(old(height), signer, pool.hash(encode(block))), encode(block))
      ensures (height, lastCerts) ==
                if res.Finished? then (old(height) + 1, outcome.value) else (old(height), old(lastCerts))
    {
      if parents.None? {
        return Panicked, Block(0, [], [], []);
      }
      res, block := Extend(pool, parents.value, outcome);
    }

    /** The cleanup, for a round that starts. */
    method Prepare(pool: MemPool) returns (parents: Option<seq<Bytes>>)
      requires PoolOk(pool.hash, pool.Model())
      modifies pool, pool.batchesSubs
      ensures parents.Some? <==> AllParse(parse, lastCerts)
      ensures parents.Some? ==>
                && AreHashesOf(parents.value, lastCerts)
                && pool.Model() == DeleteAll(old(pool.Model()), Retired(parse, lastCerts))
                && PoolOk(pool.hash, pool.Model())
    {
      ghost var k, deleted, cuts;
      parents, k, deleted, cuts := Cleanup(pool);
    }

    /** The block lists, once each, exactly the batches in the pool that this node signed. */
    ghost predicate IsOwn(block: Block, height: nat, pool: MemPool)
      reads pool
    {
      && block.round == height && block.signer == signer
      && (forall h :: h in block.batches <==> h in pool.batches && pool.batches[h].batch.signer == signer)
      && (forall i, j :: 0 <= i < j < |block.batches| ==> block.batches[i] != block.batches[j])
    }

    /** Proposes the own block and takes over what its broadcast comes to. */
    method Extend(pool: MemPool, parents: seq<Bytes>, outcome: Option<seq<Cert>>)
      returns (res: RoundResult, ghost block: Block)
      requires PoolOk(pool.hash, pool.Model())
      modifies this`height, this`lastCerts
      ensures !res.Panicked? && (res.NoBatches? <==> OwnHashes(pool.Model(), signer) == {})
      ensures IsOwn(block, old(height), pool) && block.parents == parents && pool.Model() == old(pool.Model())
      ensures res.Finished? <==> !res.NoBatches? && outcome.Some?
      ensures res.Finished? || res.Failed? ==>
                res.msg == Message(Id(old(height), signer, pool.hash(encode(block))), encode(block))
      ensures (height, lastCerts) ==
                if res.Finished? then (old(height) + 1, outcome.value) else (old(height), old(lastCerts))
    {
      var own, msg := Propose(pool, parents);
      block := own;
      res := Finish(own, msg, outcome);
    }

    /** What the broadcast of the own block comes to; without own batches it is not reached. */
    method Finish(block: Block, msg: Message, outcome: Option<seq<Cert>>) returns (res: RoundResult)
      modifies this`height, this`lastCerts
      ensures res == if block.batches == [] then NoBatches else if outcome.None? then Failed(msg) else Finished(msg)
      ensures (height, lastCerts) ==
                if res.Finished? then (old(height) + 1, outcome.value) else (old(height), old(lastCerts))
    {
      if block.batches == [] {
        return NoBatches;
      }
      if outcome.None? {
        return Failed(msg);
      }
      lastCerts := outcome.value;
      height := height + 1;
      return Finished(msg);
    }
  }
}

/** The chain's rounds interleaved with everybody else's use of the pool. */
module ChainRuns {
  import opened Wrappers
  import opened Stake
  import opened Waiters
  import opened QuorumSpec
  import opened PoolSpec
  import opened NodeRound
  import opened DagChain

  /** Between rounds, retiring batches one by one since the pool's history had length `start`,
      or waiting for the broadcast of the own block. */
  datatype Phase = Idle | Cleaning(start: nat, todo: seq<Bytes>) | Broadcasting(start: nat, block: Block)

  /** `retired` is history: every hash listed by a block of some `lastCerts`. */
  datatype Sys = Sys(pool: Pool, height: nat, lastCerts: seq<Cert>, phase: Phase, retired: set<Bytes>)

  datatype Label =
    | UsePool(u: Use)
    | Begin
    | DeleteNext
    | Propose(block: Block)
    | End(outcome: Option<seq<Cert>>)

  ghost predicate Step(hash: Bytes -> Bytes, parse: Bytes -> Option<Block>, signer: Key, s: Sys, l: Label, s': Sys) {
    match l
    case UsePool(u) => !u.DoDelete? && MayUse(s.pool, u) && s' == s.(pool := Used(hash, s.pool, u))
    case Begin =>
      && s.phase == Idle && AllParse(parse, s.lastCerts)
      && var hashes := Retired(parse, s.lastCerts);
      && s' == s.(phase := Cleaning(|s.pool.log|, hashes), retired := s.retired + set h | h in hashes)
    case DeleteNext =>
      && s.phase.Cleaning? && s.phase.todo != []
      && s' == s.(pool := Remove(s.pool, Deleted(s.phase.todo[0])), phase := s.phase.(todo := s.phase.todo[1..]))
    case Propose(block) =>
      && s.phase.Cleaning? && s.phase.todo == []
      && (set h | h in block.batches) == OwnHashes(s.pool, signer) != {}
      && s' == s.(phase := Broadcasting(s.phase.start, block))
    case End(outcome) =>
      && s.phase.Broadcasting?
      && s' == if outcome.Some? then s.(phase := Idle, lastCerts := outcome.value, height := s.height + 1)
               else s.(phase := Idle)
  }

  /** `n` deletions into a cleanup with nobody else at the pool. */
  function AfterDeleting(s: Sys, n: nat): Sys
    requires s.phase.Cleaning? && n <= |s.phase.todo|
  {
    s.(pool := DeleteAll(s.pool, s.phase.todo[..n]), phase := s.phase.(todo := s.phase.todo[n..]))
  }

  /** Without interleaving, the deletions of a cleanup come to what `Chain.Cleanup` does. */
  lemma DeletionsInOrder(hash: Bytes -> Bytes, parse: Bytes -> Option<Block>, signer: Key, s: Sys, n: nat)
    requires s.phase.Cleaning? && n < |s.phase.todo|
    ensures AfterDeleting(s, 0) == s
    ensures Step(hash, parse, signer, AfterDeleting(s, n), DeleteNext, AfterDeleting(s, n + 1))
    ensures AfterDeleting(s, |s.phase.todo|).pool == DeleteAll(s.pool, s.phase.todo)
  {
    var todo := s.phase.todo;
    assert todo[..n + 1][..n] == todo[..n] && todo[n..][1..] == todo[n + 1..];
    assert todo[..|todo|] == todo && todo[0..] == todo;
  }

  ghost predicate IsRun(hash: Bytes -> Bytes, parse: Bytes -> Option<Block>, signer: Key, ss: seq<Sys>, labels: seq<Label>) {
    && |ss| == |labels| + 1 && ss[0] == Sys(NoPool, 1, [], Idle, {})
    && forall i :: 0 <= i < |labels| ==> Step(hash, parse, signer, ss[i], labels[i], ss[i + 1])
  }

  ghost predicate DeletedSince(log: seq<PoolEvent>, start: nat, h: Bytes) {
    exists i :: start <= i < |log| && log[i] == Deleted(h)
  }

  /** What was deleted is retired, and while a cleanup lasts, so is what it has yet to delete. */
  ghost predicate DeletionsOk(s: Sys) {
    && (forall i :: 0 <= i < |s.pool.log| && s.pool.log[i].Deleted? ==> s.pool.log[i].h in s.retired)
    && (s.phase.Cleaning? ==> forall h :: h in s.phase.todo ==> h in s.retired)
  }

  /** What the last certificates retire was deleted in this cleanup or is still to be. */
  ghost predicate CleanupOk(parse: Bytes -> Option<Block>, s: Sys) {
    s.phase.Cleaning? ==>
      && s.phase.start <= |s.pool.log|
      && forall h :: h in Retired(parse, s.lastCerts) ==> h in s.phase.todo || DeletedSince(s.pool.log, s.phase.start, h)
  }

  ghost predicate Inv(hash: Bytes -> Bytes, parse: Bytes -> Option<Block>, s: Sys) {
    PoolOk(hash, s.pool) && DeletionsOk(s) && CleanupOk(parse, s)
  }

  lemma PoolKept(hash: Bytes -> Bytes, parse: Bytes -> Option<Block>, signer: Key, s: Sys, l: Label, s': Sys)
    requires PoolOk(hash, s.pool) && Step(hash, parse, signer, s, l, s')
    ensures PoolOk(hash, s'.pool) && s.pool.log <= s'.pool.log
  {
    if l.UsePool? { UseKeepsOk(hash, s.pool, l.u); }
    if l.DeleteNext? { UseKeepsOk(hash, s.pool, DoDelete(s.phase.todo[0])); }
  }

  lemma DeletedStays(log: seq<PoolEvent>, log': seq<PoolEvent>, start: nat, h: Bytes)
    requires log <= log' && DeletedSince(log, start, h)
    ensures DeletedSince(log', start, h)
  {
    var i :| start <= i < |log| && log[i] == Deleted(h);
    assert log'[i] == Deleted(h);
  }

  lemma DeletionsKept(hash: Bytes -> Bytes, parse: Bytes -> Option<Block>, signer: Key, s: Sys, l: Label, s': Sys)
    requires DeletionsOk(s) && Step(hash, parse, signer, s, l, s')
    ensures DeletionsOk(s')
  {
  }

  lemma CleanupKept(hash: Bytes -> Bytes, parse: Bytes -> Option<Block>, signer: Key, s: Sys, l: Label, s': Sys)
    requires CleanupOk(parse, s) && s.pool.log <= s'.pool.log && Step(hash, parse, signer, s, l, s')
    ensures CleanupOk(parse, s')
  {
    if s'.phase.Cleaning? && s.phase.Cleaning? {
      if l.DeleteNext? { assert s'.pool.log[|s.pool.log|] == Deleted(s.phase.todo[0]); }
      forall h | h in Retired(parse, s'.lastCerts)
        ensures h in s'.phase.todo || DeletedSince(s'.pool.log, s'.phase.start, h) {
        if h in s.phase.todo && h !in s'.phase.todo {
          assert s.phase.todo == [s.phase.todo[0]] + s.phase.todo[1..];
        } else if h !in s.phase.todo {
          DeletedStays(s.pool.log, s'.pool.log, s.phase.start, h);
        }
      }
    }
  }

  lemma StepKeepsInv(hash: Bytes -> Bytes, parse: Bytes -> Option<Block>, signer: Key, s: Sys, l: Label, s': Sys)
    requires Inv(hash, parse, s) && Step(hash, parse, signer, s, l, s')
    ensures Inv(hash, parse, s')
  {
    PoolKept(hash, parse, signer, s, l, s');
    DeletionsKept(hash, parse, signer, s, l, s');
    CleanupKept(hash, parse, signer, s, l, s');
  }

  lemma {:induction false} RunKeepsInv(hash: Bytes -> Bytes, parse: Bytes -> Option<Block>, signer: Key,
    ss: seq<Sys>, labels: seq<Label>, i: nat)
    requires IsRun(hash, parse, signer, ss, labels) && i < |ss|
    ensures Inv(hash, parse, ss[i])
  {
    if i > 0 {
      RunKeepsInv(hash, parse, signer, ss, labels, i - 1);
      StepKeepsInv(hash, parse, signer, ss[i - 1], labels[i - 1], ss[i]);
    }
  }

  /** The broadcast succeeded. */
  predicate Succeeds(l: Label) {
    l.End? && l.outcome.Some?
  }

  /** How many broadcasts succeeded so far. */
  ghost function Successes(labels: seq<Label>, i: nat): nat
    requires i <= |labels|
  {
    if i == 0 then 0 else Successes(labels, i - 1) + if Succeeds(labels[i - 1]) then 1 else 0
  }

  /** The height is one above the broadcasts that succeeded, and the chain builds on what the last
      of them came to. */
  lemma {:induction false} HeightIsHistory(hash: Bytes -> Bytes, parse: Bytes -> Option<Block>, signer: Key,
    ss: seq<Sys>, labels: seq<Label>, i: nat)
    requires IsRun(hash, parse, signer, ss, labels) && i < |ss|
    ensures ss[i].height == 1 + Successes(labels, i)
    ensures Successes(labels, i) == 0 ==> ss[i].lastCerts == []
    ensures Successes(labels, i) > 0 ==>
              exists j :: 0 <= j < i && Succeeds(labels[j]) && ss[i].lastCerts == labels[j].outcome.value
                          && Successes(labels, j + 1) == Successes(labels, i)
  {
    if i > 0 {
      HeightIsHistory(hash, parse, signer, ss, labels, i - 1);
      assert Step(hash, parse, signer, ss[i - 1], labels[i - 1], ss[i]);
      if Succeeds(labels[i - 1]) {
        assert Successes(labels, i - 1 + 1) == Successes(labels, i);
      }
    }
  }

  /** Some cleanup so far began with last certificates one of whose blocks lists the batch. */
  ghost predicate WasListed(parse: Bytes -> Option<Block>, ss: seq<Sys>, labels: seq<Label>, i: nat, h: Bytes)
    requires i <= |labels| && i <= |ss|
  {
    exists j :: 0 <= j < i && labels[j].Begin? && Lists(parse, ss[j].lastCerts, h)
  }

  /** What is retired is exactly what those blocks list. */
  lemma {:induction false} RetiredIsHistory(hash: Bytes -> Bytes, parse: Bytes -> Option<Block>, signer: Key,
    ss: seq<Sys>, labels: seq<Label>, i: nat, h: Bytes)
    requires IsRun(hash, parse, signer, ss, labels) && i < |ss|
    ensures h in ss[i].retired <==> WasListed(parse, ss, labels, i, h)
  {
    if i > 0 {
      RetiredIsHistory(hash, parse, signer, ss, labels, i - 1, h);
      assert Step(hash, parse, signer, ss[i - 1], labels[i - 1], ss[i]);
      RetiredAreListed(parse, ss[i - 1].lastCerts, h);
    }
  }

  /** A batch that was ever pushed is in the pool, or what happened to it last is that it was
      collected, or that it was deleted, which happens only to batches listed by a block of some
      `lastCerts`. Nobody is parked for a batch that is there, and no channel has two events. */
  lemma BatchConservation(hash: Bytes -> Bytes, parse: Bytes -> Option<Block>, signer: Key,
    ss: seq<Sys>, labels: seq<Label>, i: nat, h: Bytes)
    requires IsRun(hash, parse, signer, ss, labels) && i < |ss|
    ensures var p := ss[i].pool;
            && (Pushed(h) in p.log ==>
                  || h in p.batches
                  || Latest(p.log, h) == Some(Collected(h))
                  || (Latest(p.log, h) == Some(Deleted(h)) && h in ss[i].retired && WasListed(parse, ss, labels, i, h)))
            && (h in p.batches ==> Attached(p.subs, h) == {} && Latest(p.log, h) == Some(Pushed(h)))
  {
    RunKeepsInv(hash, parse, signer, ss, labels, i);
    LatestIsThere(ss[i].pool.log, h);
    RetiredIsHistory(hash, parse, signer, ss, labels, i, h);
  }

  /** A new block lists exactly the own batches in the pool, and by then every batch that a block of
      the last certificates lists was deleted in this cleanup. */
  lemma NewBlockAfterCleanup(hash: Bytes -> Bytes, parse: Bytes -> Option<Block>, signer: Key,
    ss: seq<Sys>, labels: seq<Label>, i: nat, h: Bytes)
    requires IsRun(hash, parse, signer, ss, labels) && i < |labels| && labels[i].Propose?
    ensures ss[i].phase.Cleaning?
    ensures h in labels[i].block.batches <==> h in ss[i].pool.batches && ss[i].pool.batches[h].batch.signer == signer
    ensures Lists(parse, ss[i].lastCerts, h) ==> DeletedSince(ss[i].pool.log, ss[i].phase.start, h)
  {
    RunKeepsInv(hash, parse, signer, ss, labels, i);
    assert Step(hash, parse, signer, ss[i], labels[i], ss[i + 1]);
    assert h in (set x | x in labels[i].block.batches) <==> h in OwnHashes(ss[i].pool, signer);
    RetiredAreListed(parse, ss[i].lastCerts, h);
  }

  /** A step that takes the wake-up from a caller that waits for a batch. */
  predicate Steals(s: Sys, l: Label) {
    l.UsePool? && StealsWakeup(s.pool, l.u)
  }

  predicate Pushes(hash: Bytes -> Bytes, l: Label, h: Bytes) {
    l.UsePool? && l.u.DoPush? && hash(l.u.b.data) == h
  }

  lemma StepKeepsReachable(hash: Bytes -> Bytes, parse: Bytes -> Option<Block>, signer: Key, s: Sys, l: Label, s': Sys)
    requires PoolOk(hash, s.pool) && Step(hash, parse, signer, s, l, s') && Reachable(s.pool.subs)
    ensures Reachable(s'.pool.subs) <==> !Steals(s, l)
  {
    if l.UsePool? { UseKeepsReachable(hash, s.pool, l.u); }
    if l.DeleteNext? { UseKeepsReachable(hash, s.pool, DoDelete(s.phase.todo[0])); }
  }

  lemma RunStepReachable(hash: Bytes -> Bytes, parse: Bytes -> Option<Block>, signer: Key,
    ss: seq<Sys>, labels: seq<Label>, i: nat)
    requires IsRun(hash, parse, signer, ss, labels) && i < |labels| && Reachable(ss[i].pool.subs)
    ensures Reachable(ss[i + 1].pool.subs) <==> !Steals(ss[i], labels[i])
  {
    RunKeepsInv(hash, parse, signer, ss, labels, i);
    StepKeepsReachable(hash, parse, signer, ss[i], labels[i], ss[i + 1]);
  }

  /** Up to step `i`, every waiting caller was in the table all along. */
  ghost predicate ReachableUpTo(ss: seq<Sys>, i: nat)
    requires i < |ss|
  {
    forall j :: 0 <= j <= i ==> Reachable(ss[j].pool.subs)
  }

  /** Up to step `i`, nobody took a wake-up from another. */
  ghost predicate NobodySteals(ss: seq<Sys>, labels: seq<Label>, i: nat)
    requires i <= |labels| && i <= |ss|
  {
    forall j :: 0 <= j < i ==> !Steals(ss[j], labels[j])
  }

  /** In every run: every waiting caller is in the table all along if and only if nobody ever
      gave up as the last of an inner map that had been notified, while others waited anew. */
  lemma {:induction false} WakeupsLostOnlyByStealing(hash: Bytes -> Bytes, parse: Bytes -> Option<Block>, signer: Key,
    ss: seq<Sys>, labels: seq<Label>, i: nat)
    requires IsRun(hash, parse, signer, ss, labels) && i < |ss|
    ensures ReachableUpTo(ss, i) <==> NobodySteals(ss, labels, i)
  {
    if i == 0 {
      assert Reachable(ss[0].pool.subs);
    } else {
      WakeupsLostOnlyByStealing(hash, parse, signer, ss, labels, i - 1);
      if Reachable(ss[i - 1].pool.subs) {
        RunStepReachable(hash, parse, signer, ss, labels, i - 1);
      }
      UpToNext(ss, labels, i);
    }
  }

  lemma UpToNext(ss: seq<Sys>, labels: seq<Label>, i: nat)
    requires 0 < i < |ss| && i <= |labels|
    ensures ReachableUpTo(ss, i) <==> ReachableUpTo(ss, i - 1) && Reachable(ss[i].pool.subs)
    ensures NobodySteals(ss, labels, i) <==> NobodySteals(ss, labels, i - 1) && !Steals(ss[i - 1], labels[i - 1])
    ensures ReachableUpTo(ss, i - 1) ==> Reachable(ss[i - 1].pool.subs)
  {
  }

  /** In a run without that, every caller that did not give up has its answer once the batch it
      waits for is there, and a push answers those that are waiting with just that batch. */
  lemma WaitersGetTheirBatch(hash: Bytes -> Bytes, parse: Bytes -> Option<Block>, signer: Key,
    ss: seq<Sys>, labels: seq<Label>, i: nat, s: nat)
    requires IsRun(hash, parse, signer, ss, labels) && i < |ss|
    requires NobodySteals(ss, labels, i)
    requires s in ss[i].pool.subs.home && s !in ss[i].pool.subs.gone
    ensures var p, h := ss[i].pool, ss[i].pool.subs.home[s].0;
            && (h in p.batches ==> EventsOf(p.subs, s) != [])
            && (EventsOf(p.subs, s) == [] && i < |labels| && Pushes(hash, labels[i], h) ==>
                  EventsOf(ss[i + 1].pool.subs, s) == [Value(labels[i].u.b)])
  {
    WakeupsLostOnlyByStealing(hash, parse, signer, ss, labels, i);
    RunKeepsInv(hash, parse, signer, ss, labels, i);
    var p, h := ss[i].pool, ss[i].pool.subs.home[s].0;
    assert Reachable(p.subs);
    if i < |labels| && Pushes(hash, labels[i], h) {
      assert Step(hash, parse, signer, ss[i], labels[i], ss[i + 1]);
      NotifyReachesAll(p.subs, h, Value(labels[i].u.b));
    }
  }

  /** Once it did happen, some caller is never answered, whatever is pushed: it waits until it
      gives up itself. */
  lemma StolenWakeupIsGone(hash: Bytes -> Bytes, parse: Bytes -> Option<Block>, signer: Key,
    ss: seq<Sys>, labels: seq<Label>, i: nat) returns (x: nat)
    requires IsRun(hash, parse, signer, ss, labels) && i < |labels| && Steals(ss[i], labels[i])
    requires NobodySteals(ss, labels, i)
    ensures Forgotten(ss[i + 1].pool, x)
    ensures forall j :: i < j < |ss| ==> Forgotten(ss[j].pool, x) || x in ss[j].pool.subs.gone
  {
    WakeupsLostOnlyByStealing(hash, parse, signer, ss, labels, i);
    RunKeepsInv(hash, parse, signer, ss, labels, i);
    assert Reachable(ss[i].pool.subs) && Step(hash, parse, signer, ss[i], labels[i], ss[i + 1]);
    StepKeepsReachable(hash, parse, signer, ss[i], labels[i], ss[i + 1]);
    x := SomebodyForgotten(ss[i + 1].pool);
    forall j | i < j < |ss| ensures Forgotten(ss[j].pool, x) || x in ss[j].pool.subs.gone {
      StaysForgotten(hash, parse, signer, ss, labels, i + 1, j, x);
    }
  }

  function PulledTwice(hash: Bytes -> Bytes, b: Batch): Pool {
    var h := hash(b.data);
    Pull(Remove(Push(hash, Pull(NoPool, h).0, b, 0), Collected(h)), h).0
  }

  lemma PulledTwiceDetaches(hash: Bytes -> Bytes, b: Batch)
    ensures 0 in PulledTwice(hash, b).subs.home && 0 !in PulledTwice(hash, b).subs.gone
    ensures LastOfDetached(PulledTwice(hash, b).subs, 0)
  {
    var h := hash(b.data);
    var p1 := Pull(NoPool, h).0;
    assert p1.subs.inner[1] == {0} && p1.subs.home[0] == (h, 1);
    assert PulledTwice(hash, b).subs.inner[1] == {0} && PulledTwice(hash, b).subs.heads[h] == 3;
  }

  /** It does happen: two callers pull a batch one after the other, which is pushed and
      collected in between, and then the first one gives up. */
  lemma StealingHappens(hash: Bytes -> Bytes, parse: Bytes -> Option<Block>, signer: Key, b: Batch)
    returns (ss: seq<Sys>, labels: seq<Label>)
    ensures IsRun(hash, parse, signer, ss, labels) && |labels| == 5 && Steals(ss[4], labels[4])
  {
    var h := hash(b.data);
    var p2 := Push(hash, Pull(NoPool, h).0, b, 0);
    assert h in Expired(p2, 61);
    ss, labels := [IdleWith(NoPool)], [];
    assert IsRun(hash, parse, signer, ss, labels) && ss[0] == IdleWith(NoPool);
    ss, labels := UseMore(hash, parse, signer, ss, labels, NoPool, DoPull(h));
    ss, labels := UseMore(hash, parse, signer, ss, labels, Pull(NoPool, h).0, DoPush(b, 0));
    ss, labels := UseMore(hash, parse, signer, ss, labels, p2, DoCollect(h, 61));
    ss, labels := UseMore(hash, parse, signer, ss, labels, Remove(p2, Collected(h)), DoPull(h));
    PulledTwiceDetaches(hash, b);
    ss, labels := UseMore(hash, parse, signer, ss, labels, PulledTwice(hash, b), DoCancel(0));
  }

  /** One more use of the pool while the chain does nothing. */
  lemma UseMore(hash: Bytes -> Bytes, parse: Bytes -> Option<Block>, signer: Key, ss: seq<Sys>, labels: seq<Label>,
    p: Pool, u: Use) returns (ss': seq<Sys>, labels': seq<Label>)
    requires IsRun(hash, parse, signer, ss, labels) && ss[|labels|] == IdleWith(p) && MayUse(p, u) && !u.DoDelete?
    ensures IsRun(hash, parse, signer, ss', labels') && labels' == labels + [UsePool(u)]
    ensures ss'[|labels|] == IdleWith(p) && ss'[|labels'|] == IdleWith(Used(hash, p, u))
  {
    ss', labels' := ss + [IdleWith(Used(hash, p, u))], labels + [UsePool(u)];
  }

  function IdleWith(p: Pool): Sys {
    Sys(p, 1, [], Idle, {})
  }

  lemma StepStaysForgotten(hash: Bytes -> Bytes, parse: Bytes -> Option<Block>, signer: Key,
    s: Sys, l: Label, s': Sys, x: nat)
    requires PoolOk(hash, s.pool) && Step(hash, parse, signer, s, l, s') && Forgotten(s.pool, x)
    ensures Forgotten(s'.pool, x) || x in s'.pool.subs.gone
  {
    if l.UsePool? { ForgottenForever(hash, s.pool, l.u, x); }
    if l.DeleteNext? { ForgottenForever(hash, s.pool, DoDelete(s.phase.todo[0]), x); }
  }

  lemma StepStaysGone(hash: Bytes -> Bytes, parse: Bytes -> Option<Block>, signer: Key, s: Sys, l: Label, s': Sys)
    requires Step(hash, parse, signer, s, l, s')
    ensures s.pool.subs.gone <= s'.pool.subs.gone
  {
  }

  lemma {:induction false} StaysForgotten(hash: Bytes -> Bytes, parse: Bytes -> Option<Block>, signer: Key,
    ss: seq<Sys>, labels: seq<Label>, i: nat, j: nat, x: nat)
    requires IsRun(hash, parse, signer, ss, labels) && i <= j < |ss| && Forgotten(ss[i].pool, x)
    ensures Forgotten(ss[j].pool, x) || x in ss[j].pool.subs.gone
    decreases j
  {
    if i < j {
      StaysForgotten(hash, parse, signer, ss, labels, i, j - 1, x);
      RunKeepsInv(hash, parse, signer, ss, labels, j - 1);
      StepStaysGone(hash, parse, signer, ss[j - 1], labels[j - 1], ss[j]);
      if Forgotten(ss[j - 1].pool, x) {
        StepStaysForgotten(hash, parse, signer, ss[j - 1], labels[j - 1], ss[j], x);
      }
    }
  }

  /** A new own block lists a hash retired by the cleanup before it only if that batch was pushed
      again after it was deleted in that cleanup. */
  lemma RetiredOnlyIfPushedAgain(hash: Bytes -> Bytes, parse: Bytes -> Option<Block>, signer: Key,
    ss: seq<Sys>, labels: seq<Label>, i: nat, h: Bytes)
    requires IsRun(hash, parse, signer, ss, labels) && i < |labels| && labels[i].Propose?
    requires h in labels[i].block.batches && Lists(parse, ss[i].lastCerts, h)
    ensures ss[i].phase.Cleaning?
    ensures var log := ss[i].pool.log;
            exists a, b :: ss[i].phase.start <= a < b < |log| && log[a] == Deleted(h) && log[b] == Pushed(h)
  {
    RunKeepsInv(hash, parse, signer, ss, labels, i);
    assert Step(hash, parse, signer, ss[i], labels[i], ss[i + 1]);
    var log := ss[i].pool.log;
    NewBlockAfterCleanup(hash, parse, signer, ss, labels, i, h);
    var a :| ss[i].phase.start <= a < |log| && log[a] == Deleted(h);
    BackOnlyByPush(log, h, a);
  }
}
