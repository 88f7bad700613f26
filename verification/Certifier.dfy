/** The certifier: a message is certified when its block parses and the pull of every batch it
    lists came back, with the batch or because the batch was deleted. */
module Certifier {
  import opened Wrappers
  import opened Stake
  import opened QuorumSpec
  import opened Waiters
  import opened PoolSpec
  import opened BatchPool
  import opened NodeRound

  /** What a parked pull comes to: an event on its channel, or its context ends. */
  datatype Wait = Received | WasDeleted | GaveUp

  datatype CertifyError = EmptyData | InvalidId | InvalidBlock | MissingBatch(h: Bytes)

  /** The pool after pulling the hashes one after the other. */
  function PullEach(p: Pool, hashes: seq<Bytes>): (r: Pool)
    ensures r.batches == p.batches && r.log == p.log
    decreases |hashes|
  {
    if hashes == [] then p else Pull(PullEach(p, hashes[..|hashes| - 1]), hashes[|hashes| - 1]).0
  }

  /** Pulling changes only who waits: a batch that is there is not waited for, and for each that
      is missing there is a channel for every time it is listed. */
  lemma {:induction false} PullEachKeepsOk(hash: Bytes -> Bytes, p: Pool, hashes: seq<Bytes>)
    requires PoolOk(hash, p)
    ensures PoolOk(hash, PullEach(p, hashes))
    ensures PullEach(p, hashes).subs.next == p.subs.next + 2 * |Missing(p, hashes)|
    ensures forall h :: h in hashes ==> h in p.batches || Attached(PullEach(p, hashes).subs, h) != {}
  {
    if hashes != [] {
      var n := |hashes| - 1;
      PullEachKeepsOk(hash, p, hashes[..n]);
      PullKeepsOk(hash, PullEach(p, hashes[..n]), hashes[n]);
      forall h | h in hashes ensures h in p.batches || Attached(PullEach(p, hashes).subs, h) != {} {
        JoinedWaiters(PullEach(p, hashes[..n]).subs, hashes[n], h);
      }
    }
  }

  /** The listed batches that are not in the pool, in order. */
  function Missing(p: Pool, hashes: seq<Bytes>): seq<Bytes> {
    if hashes == [] then []
    else Missing(p, hashes[..|hashes| - 1]) +
         if hashes[|hashes| - 1] in p.batches then [] else [hashes[|hashes| - 1]]
  }

  /** The pull at place `i` is the first that gave up, and its waiter has left. */
  ghost predicate GaveUpAt(p: Pool, p': Pool, batches: seq<Bytes>, wait: nat -> Wait, i: nat) {
    && i < |batches| && batches[i] !in p.batches && wait(i) == GaveUp
    && (forall j :: 0 <= j < i ==> batches[j] in p.batches || wait(j) != GaveUp)
    && p' == CancelPull(Pull(PullEach(p, batches[..i]), batches[i]).0, PullEach(p, batches[..i]).subs.next)
  }

  /** Pulls a batch; one that has to wait for it may give up, and leaves. */
  method PullOne(pool: MemPool, h: Bytes, givesUp: bool) returns (ok: bool)
    modifies pool.batchesSubs
    ensures ok <==> h in pool.batches || !givesUp
    ensures ok ==> pool.Model() == Pull(old(pool.Model()), h).0
    ensures !ok ==> pool.Model() == CancelPull(Pull(old(pool.Model()), h).0, old(pool.Model()).subs.next)
  {
    var outcome := pool.Pull(h);
    if outcome.Parked? && givesUp {
      pool.CancelPull(outcome.sub);
      return false;
    }
    return true;
  }

  /** Pulls one batch after the other; stops at the first whose pull gives up. */
  method PullBatches(pool: MemPool, batches: seq<Bytes>, wait: nat -> Wait) returns (missing: Option<nat>)
    modifies pool.batchesSubs
    ensures missing.None? <==> forall i :: 0 <= i < |batches| ==> batches[i] in pool.batches || wait(i) != GaveUp
    ensures missing.None? ==> pool.Model() == PullEach(old(pool.Model()), batches)
    ensures missing.Some? ==> GaveUpAt(old(pool.Model()), pool.Model(), batches, wait, missing.value)
  {
    ghost var p := pool.Model();
    var i := 0;
    while i < |batches|
      invariant 0 <= i <= |batches| && pool.Model() == PullEach(p, batches[..i])
      invariant forall j :: 0 <= j < i ==> batches[j] in pool.batches || wait(j) != GaveUp
    {
      assert batches[..i + 1][..i] == batches[..i];
      var ok := PullOne(pool, batches[i], wait(i) == GaveUp);
      if !ok {
        return Some(i);
      }
      i := i + 1;
    }
    assert batches[..i] == batches;
    return None;
  }

  /** `data` is absent when the message carries none; `wait` is what the pull of the listed batch
      at some place comes to when it has to wait. A message whose every pull comes back is
      certified; otherwise the first batch whose pull gave up is named, the batches after it are
      not pulled, and its waiter has left. */
  method Certify(id: Id, data: Option<Bytes>, parse: Bytes -> Option<Block>, pool: MemPool, wait: nat -> Wait)
    returns (err: Option<CertifyError>)
    modifies pool.batchesSubs
    ensures err.None? <==>
              && data.Some? && |id.hash| == 32 && parse(data.value).Some?
              && var batches := parse(data.value).value.batches;
              && forall i :: 0 <= i < |batches| ==> batches[i] in pool.batches || wait(i) != GaveUp
    ensures err.None? ==> pool.Model() == PullEach(old(pool.Model()), parse(data.value).value.batches)
    ensures err.Some? && err.value.MissingBatch? ==>
              && data.Some? && parse(data.value).Some?
              && var batches := parse(data.value).value.batches;
              && exists i: nat :: GaveUpAt(old(pool.Model()), pool.Model(), batches, wait, i) && batches[i] == err.value.h
    ensures err.Some? && !err.value.MissingBatch? ==> pool.Model() == old(pool.Model())
  {
    if data.None? {
      return Some(EmptyData);
    }
    if |id.hash| != HASH_SIZE {
      return Some(InvalidId);
    }
    var block := parse(data.value);
    if block.None? {
      return Some(InvalidBlock);
    }
    var missing := PullBatches(pool, block.value.batches, wait);
    if missing.Some? {
      return Some(MissingBatch(block.value.batches[missing.value]));
    }
    return None;
  }
}
