/** What each operation of a round is told, and what it leaves of the round, by observation: the
    certificates held, who waits, and what was sent to whom. */
module RoundLaws {
  import opened Wrappers
  import opened Stake
  import opened QuorumSpec
  import opened RoundSpec

  /** One completion for `i`, nothing for anybody else. */
  ghost predicate OnlyTold(r: Round, r': Round, i: OpId, c: Completion) {
    forall j :: SentTo(r', j) == SentTo(r, j) + if j == i then [c] else []
  }

  /** Everything of the quorum but its certificates. */
  ghost predicate SameAccounts(q: Quorum, q': Quorum) {
    q'.activeStake == q.activeStake && q'.events == q.events
  }

  lemma SentToOne(r: Round, i: OpId, c: Completion)
    ensures OnlyTold(r, Send(r, i, c), i, c)
  {
    forall j ensures SentTo(Send(r, i, c), j) == SentTo(r, j) + if j == i then [c] else [] {
      assert SentTo(r, j) + [] == SentTo(r, j);
    }
  }

  /** A message whose signer is no includer, or whose hash is taken, is refused with just that
      error, in this order, and nothing else happens. */
  lemma RefusedAdd(incs: seq<Includer>, r: Round, i: OpId, msg: Message)
    requires !Member(incs, msg.id.signer) || msg.id.hash in r.quorum.certs
    ensures var r' := DoOp(incs, r, i, AddOp(msg));
            && r'.quorum == r.quorum && r'.subs == r.subs && r'.final == r.final
            && OnlyTold(r, r', i,
                 Done(Some(if !Member(incs, msg.id.signer) then NotAnIncluder else CertificateExists)))
  {
    SentToOne(r, i, Done(Some(if !Member(incs, msg.id.signer) then NotAnIncluder else CertificateExists)));
  }

  /** Any other message becomes a certificate without signatures; those who wait for its hash, and
      only they, get it and wait no more, and the operation is told that it succeeded. */
  lemma AcceptedAdd(incs: seq<Includer>, r: Round, i: OpId, msg: Message, j: OpId, h: Bytes)
    requires Member(incs, msg.id.signer) && msg.id.hash !in r.quorum.certs && !WaitsAt(r, i, msg.id.hash)
    ensures var r' := DoOp(incs, r, i, AddOp(msg));
            && r'.quorum.certs == r.quorum.certs[msg.id.hash := Cert(msg, [], 0, false)]
            && SameAccounts(r.quorum, r'.quorum) && r'.final == r.final
            && SentTo(r', j) == SentTo(r, j) + (
                 if j == i then [Done(None)]
                 else if WaitsAt(r, j, msg.id.hash) then [GotCertificate(msg)] else [])
            && (WaitsAt(r', j, h) <==> WaitsAt(r, j, h) && h != msg.id.hash)
  {
    assert SentTo(r, j) + [] == SentTo(r, j);
  }

  /** A get of a certificate that is there is told its message, and nothing else happens. */
  lemma FoundGet(incs: seq<Includer>, r: Round, i: OpId, id: Id)
    requires id.hash in r.quorum.certs
    ensures var r' := DoOp(incs, r, i, GetOp(id));
            && r'.quorum == r.quorum && r'.subs == r.subs && r'.final == r.final
            && OnlyTold(r, r', i, GotCertificate(r.quorum.certs[id.hash].msg))
  {
    SentToOne(r, i, GotCertificate(r.quorum.certs[id.hash].msg));
  }

  /** A get of a certificate that is missing waits and is told nothing; the second time it is told
      that it is done, and waits no more. Others keep waiting. */
  lemma MissedGet(incs: seq<Includer>, r: Round, i: OpId, id: Id)
    requires id.hash !in r.quorum.certs
    ensures var r' := DoOp(incs, r, i, GetOp(id));
            && r'.quorum == r.quorum && r'.final == r.final
            && (!WaitsAt(r, i, id.hash) ==> r'.sent == r.sent)
            && (WaitsAt(r, i, id.hash) ==> OnlyTold(r, r', i, Done(None)))
            && forall j, h :: WaitsAt(r', j, h) <==>
                 if j == i && h == id.hash then !WaitsAt(r, i, id.hash) else WaitsAt(r, j, h)
  {
    SentToOne(r, i, Done(None));
  }

  /** A deletion removes the certificate and is told so, or that there is none; waiters, stake and
      signal stay. */
  lemma DeleteIsTold(incs: seq<Includer>, r: Round, i: OpId, id: Id)
    ensures var r' := DoOp(incs, r, i, DeleteOp(id));
            && r'.subs == r.subs && r'.final == r.final && SameAccounts(r.quorum, r'.quorum)
            && (forall h :: h in r'.quorum.certs <==> h in r.quorum.certs && h != id.hash)
            && (forall h :: h in r'.quorum.certs ==> r'.quorum.certs[h] == r.quorum.certs[h])
            && OnlyTold(r, r', i, Done(if id.hash in r.quorum.certs then None else Some(NoCertificate)))
  {
    SentToOne(r, i, Done(if id.hash in r.quorum.certs then None else Some(NoCertificate)));
  }

  /** Why a signature is refused, if it is. */
  function Refusal(incs: seq<Includer>, q: Quorum, id: Id, sig: Signature): Option<Error> {
    if id.hash !in q.certs then Some(NoCertificate)
    else if !Member(incs, sig.signer) then Some(NotAnIncluder)
    else if exists k :: 0 <= k < |q.certs[id.hash].sigs| && q.certs[id.hash].sigs[k].signer == sig.signer then
      Some(DuplicateSignature)
    else None
  }

  /** A signature for a missing certificate, of no includer, or of one that signed, is refused with
      just that error, in this order, and nothing else happens. */
  lemma RefusedSign(incs: seq<Includer>, r: Round, i: OpId, id: Id, sig: Signature)
    requires Refusal(incs, r.quorum, id, sig).Some?
    ensures var r' := DoOp(incs, r, i, AddSignOp(id, sig));
            && r'.quorum == r.quorum && r'.subs == r.subs && r'.final == r.final
            && OnlyTold(r, r', i, Done(Refusal(incs, r.quorum, id, sig)))
  {
    SentToOne(r, i, Done(Refusal(incs, r.quorum, id, sig)));
    if id.hash in r.quorum.certs {
      assert r.quorum.certs[id.hash := r.quorum.certs[id.hash]] == r.quorum.certs;
    }
  }

  /** What an accepted signature does to its certificate and to the accumulated stake. */
  ghost predicate AppendsSig(incs: seq<Includer>, q: Quorum, id: Id, sig: Signature, q': Quorum)
    requires id.hash in q.certs && id.hash in q'.certs
  {
    var c, c' := q.certs[id.hash], q'.certs[id.hash];
    && c'.msg == c.msg && c'.sigs == c.sigs + [sig]
    && c'.activeStake == Clip(c.activeStake + StakeFor(incs, sig.signer))
    && (c'.completed <==> c.completed || 3 * c'.activeStake > 2 * Total(incs))
    && q'.activeStake ==
         (if c.completed == c'.completed then q.activeStake
          else Clip(q.activeStake + StakeFor(incs, c.msg.id.signer)))
  }

  lemma SigningIs(incs: seq<Includer>, q: Quorum, id: Id, sig: Signature)
    requires Valid(incs, q) && Refusal(incs, q, id, sig).None?
    ensures var (q', res) := AddSignature(incs, q, id.hash, sig);
            && q'.certs.Keys == q.certs.Keys && AppendsSig(incs, q, id, sig, q')
            && (forall h :: h in q.certs && h != id.hash ==> q'.certs[h] == q.certs[h])
            && res == Ok(q'.certs[id.hash].completed)
  {
    assert CertOk(incs, q.certs[id.hash]);
    assert sig.signer !in Signers(q.certs[id.hash].sigs);
  }

  /** Any other signature is appended, with its signer's stake; a certificate that reaches the
      threshold by it credits its producer's stake, and the signal is up from then on if the
      accumulated stake reaches the threshold when a completed certificate is signed. */
  lemma AcceptedSign(incs: seq<Includer>, r: Round, i: OpId, id: Id, sig: Signature)
    requires Valid(incs, r.quorum) && Refusal(incs, r.quorum, id, sig).None?
    ensures var r' := DoOp(incs, r, i, AddSignOp(id, sig));
            && r'.subs == r.subs && OnlyTold(r, r', i, Done(None))
            && r'.quorum.certs.Keys == r.quorum.certs.Keys && AppendsSig(incs, r.quorum, id, sig, r'.quorum)
            && (forall h :: h in r.quorum.certs && h != id.hash ==> r'.quorum.certs[h] == r.quorum.certs[h])
            && (r'.final <==>
                  r.final || (r'.quorum.certs[id.hash].completed && 3 * r'.quorum.activeStake > 2 * Total(incs)))
  {
    SentToOne(r, i, Done(None));
    SigningIs(incs, r.quorum, id, sig);
  }

  // ----- Queues -----

  function Ids(queue: seq<(OpId, Op)>): seq<OpId> {
    seq(|queue|, k requires 0 <= k < |queue| => queue[k].0)
  }

  /** The queue holds these operations. */
  ghost predicate Requests(ops: OpId -> Op, queue: seq<(OpId, Op)>) {
    forall k :: 0 <= k < |queue| ==> queue[k].1 == ops(queue[k].0)
  }

  /** Draining a queue is executing each of its operations, once and in order, after those executed
      so far. */
  lemma {:induction false} QueueIsRun(incs: seq<Includer>, ops: OpId -> Op, log: seq<OpId>, queue: seq<(OpId, Op)>)
    requires Requests(ops, queue)
    ensures RunQueue(incs, Run(incs, ops, log), queue) == Run(incs, ops, log + Ids(queue))
    decreases |queue|
  {
    if queue == [] {
      assert log + Ids(queue) == log;
    } else {
      var next := log + [queue[0].0];
      assert next[..|log|] == log;
      assert Ids(queue) == [queue[0].0] + Ids(queue[1..]);
      assert log + Ids(queue) == next + Ids(queue[1..]);
      QueueIsRun(incs, ops, next, queue[1..]);
    }
  }

  /** So an operation that was queued once, and not executed before, has its one completion after
      the drain, or is a get that waits for a certificate that is not there. */
  lemma DrainedIsAnswered(incs: seq<Includer>, ops: OpId -> Op, log: seq<OpId>, queue: seq<(OpId, Op)>, j: OpId)
    requires Requests(ops, queue) && Count(log + Ids(queue), j) == 1
    ensures var r := RunQueue(incs, Run(incs, ops, log), queue);
            && (!ops(j).GetOp? ==> |SentTo(r, j)| == 1)
            && (ops(j).GetOp? ==> GetServed(ops, log + Ids(queue), r, j))
  {
    QueueIsRun(incs, ops, log, queue);
    OpConservation(incs, ops, log + Ids(queue), j);
    if ops(j).GetOp? { GetsAreServed(incs, ops, log + Ids(queue), j); }
  }
}
