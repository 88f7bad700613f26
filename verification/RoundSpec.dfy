/** The round as a value: the four operations of its event loop on the quorum, the
    subscription table and the completion channels, and what every run of them keeps. */
module RoundSpec {
  import opened Wrappers
  import opened Stake
  import opened QuorumSpec

  /** The request part of an operation. */
  datatype Op =
    | AddOp(msg: Message)
    | GetOp(id: Id)
    | DeleteOp(id: Id)
    | AddSignOp(sid: Id, sig: Signature)

  /** Operations are objects; a number stands for the object's identity. */
  type OpId = nat

  /** What is sent on an operation's completion channel. */
  datatype Completion = GotCertificate(msg: Message) | Done(err: Option<Error>)

  /** `sent` lists everything ever sent on each completion channel. */
  datatype Round = Round(
    quorum: Quorum, subs: map<Bytes, set<OpId>>, final: bool, sent: map<OpId, seq<Completion>>)

  const NewRound := Round(EmptyQuorum, map[], false, map[])

  function SentTo(r: Round, i: OpId): seq<Completion> {
    if i in r.sent then r.sent[i] else []
  }

  function Deliver(sent: map<OpId, seq<Completion>>, to: set<OpId>, c: Completion): map<OpId, seq<Completion>> {
    map i | i in sent.Keys + to ::
      if i !in to then sent[i] else (if i in sent then sent[i] else []) + [c]
  }

  function SendAll(r: Round, to: set<OpId>, c: Completion): Round {
    r.(sent := Deliver(r.sent, to, c))
  }

  function Send(r: Round, to: OpId, c: Completion): Round {
    SendAll(r, {to}, c)
  }

  function StateAdd(incs: seq<Includer>, r: Round, i: OpId, msg: Message): Round {
    var (q, err) := Add(incs, r.quorum, msg);
    AnswerAdd(r.(quorum := q), i, msg, err)
  }

  /** The end of an add: its waiters get the certificate, and it is completed itself. */
  function AnswerAdd(r: Round, i: OpId, msg: Message, err: Option<Error>): Round {
    var key := msg.id.hash;
    if err.Some? || key !in r.subs || r.subs[key] == {} then Send(r, i, Done(err))
    else Send(SendAll(r, r.subs[key], GotCertificate(msg)).(subs := r.subs - {key}), i, Done(None))
  }

  function StateGet(r: Round, i: OpId, id: Id): Round {
    if id.hash in r.quorum.certs then Send(r, i, GotCertificate(r.quorum.certs[id.hash].msg))
    else
      var inner := if id.hash in r.subs then r.subs[id.hash] else {};
      if i !in inner then r.(subs := r.subs[id.hash := inner + {i}])
      else
        Send(r.(subs := if inner == {i} then r.subs - {id.hash} else r.subs[id.hash := inner - {i}]), i, Done(None))
  }

  function StateDelete(r: Round, i: OpId, id: Id): Round {
    var (q, ok) := Delete(r.quorum, id);
    Send(r.(quorum := q), i, Done(if ok then None else Some(NoCertificate)))
  }

  function StateAddSign(incs: seq<Includer>, r: Round, i: OpId, id: Id, sig: Signature): Round {
    if id.hash !in r.quorum.certs then Send(r, i, Done(Some(NoCertificate)))
    else
      var (q, res) := AddSignature(incs, r.quorum, id.hash, sig);
      var final := res == Ok(true) && Finalize(incs, q);
      Send(r.(quorum := q, final := r.final || final), i, Done(if res.Err? then Some(res.error) else None))
  }

  function DoOp(incs: seq<Includer>, r: Round, i: OpId, op: Op): Round {
    match op
    case AddOp(msg) => StateAdd(incs, r, i, msg)
    case GetOp(id) => StateGet(r, i, id)
    case DeleteOp(id) => StateDelete(r, i, id)
    case AddSignOp(id, sig) => StateAddSign(incs, r, i, id, sig)
  }

  /** The operations of `log`, one at a time; `ops` gives each operation's request. */
  function Run(incs: seq<Includer>, ops: OpId -> Op, log: seq<OpId>): Round {
    if log == [] then NewRound
    else
      var n := |log| - 1;
      DoOp(incs, Run(incs, ops, log[..n]), log[n], ops(log[n]))
  }

  // ----- Invariants -----

  /** Waiters exist only for certificates that are not there. */
  ghost predicate SubsOk(r: Round) {
    forall h :: h in r.subs ==> r.subs[h] != {} && h !in r.quorum.certs
  }

  predicate WaitsAt(r: Round, i: OpId, h: Bytes) {
    h in r.subs && i in r.subs[h]
  }

  ghost predicate RoundOk(incs: seq<Includer>, r: Round) {
    && Valid(incs, r.quorum)
    && SubsOk(r)
    && (r.final <==> Finalize(incs, r.quorum))
  }

  lemma DoOpKeepsSubs(incs: seq<Includer>, r: Round, i: OpId, op: Op)
    requires SubsOk(r)
    ensures SubsOk(DoOp(incs, r, i, op))
  {
    if op.AddSignOp? && op.sid.hash in r.quorum.certs {
      assert AddSignature(incs, r.quorum, op.sid.hash, op.sig).0.certs.Keys == r.quorum.certs.Keys;
    }
  }

  /** What becomes of the quorum and the finalization signal. */
  lemma DoOpKeepsQuorum(incs: seq<Includer>, r: Round, i: OpId, op: Op)
    requires ValidSet(incs) && Valid(incs, r.quorum)
    ensures Valid(incs, DoOp(incs, r, i, op).quorum)
    ensures DoOp(incs, r, i, op).quorum.activeStake >= r.quorum.activeStake
  {
    match op
    case AddOp(msg) => AddKeepsValid(incs, r.quorum, msg);
    case GetOp(id) =>
    case DeleteOp(id) => DeleteKeepsValid(incs, r.quorum, id);
    case AddSignOp(id, sig) =>
      if id.hash in r.quorum.certs {
        EventSumNonNegative(incs, r.quorum.events);
        AddSignatureKeepsValid(incs, r.quorum, id.hash, sig);
        ActiveStakeMonotone(incs, r.quorum, id.hash, sig);
      }
  }

  lemma DoOpKeepsFinal(incs: seq<Includer>, r: Round, i: OpId, op: Op)
    requires r.final <==> Finalize(incs, r.quorum)
    requires DoOp(incs, r, i, op).quorum.activeStake >= r.quorum.activeStake
    ensures DoOp(incs, r, i, op).final <==> Finalize(incs, DoOp(incs, r, i, op).quorum)
    ensures r.final ==> DoOp(incs, r, i, op).final
  {
  }

  /** Whatever the operation, the quorum stays valid, waiters wait only for what is missing,
      and the finalization signal is up exactly when the accumulated stake reaches the
      threshold; the signal and the stake never go down again. */
  lemma DoOpKeepsOk(incs: seq<Includer>, r: Round, i: OpId, op: Op)
    requires ValidSet(incs) && RoundOk(incs, r)
    ensures RoundOk(incs, DoOp(incs, r, i, op))
    ensures r.final ==> DoOp(incs, r, i, op).final
    ensures DoOp(incs, r, i, op).quorum.activeStake >= r.quorum.activeStake
  {
    DoOpKeepsQuorum(incs, r, i, op);
    DoOpKeepsSubs(incs, r, i, op);
    DoOpKeepsFinal(incs, r, i, op);
  }

  lemma {:induction false} RunIsOk(incs: seq<Includer>, ops: OpId -> Op, log: seq<OpId>)
    requires ValidSet(incs)
    ensures RoundOk(incs, Run(incs, ops, log))
  {
    if log == [] {
      EmptyQuorumValid(incs);
    } else {
      var n := |log| - 1;
      RunIsOk(incs, ops, log[..n]);
      DoOpKeepsOk(incs, Run(incs, ops, log[..n]), log[n], ops(log[n]));
    }
  }

  /** Finalization is exact after every prefix of every run, and final for good. */
  lemma {:induction false} FinalizationExact(incs: seq<Includer>, ops: OpId -> Op, log: seq<OpId>, k: nat)
    requires ValidSet(incs) && k <= |log|
    ensures Run(incs, ops, log).final <==> Run(incs, ops, log).quorum.activeStake >= Required(Total(incs))
    ensures Run(incs, ops, log[..k]).final ==> Run(incs, ops, log).final
    decreases |log|
  {
    RunIsOk(incs, ops, log);
    if k < |log| {
      var n := |log| - 1;
      FinalizationExact(incs, ops, log[..n], k);
      assert log[..n][..k] == log[..k];
      RunIsOk(incs, ops, log[..n]);
      DoOpKeepsOk(incs, Run(incs, ops, log[..n]), log[n], ops(log[n]));
    } else {
      assert log[..k] == log;
    }
  }

  /** A successful add completes every waiter for the certificate with that certificate,
      forgets them, and completes the add itself. */
  lemma AddNotifiesWaiters(incs: seq<Includer>, r: Round, i: OpId, msg: Message, j: OpId)
    requires Add(incs, r.quorum, msg).1 == None && !WaitsAt(r, i, msg.id.hash)
    ensures var r' := StateAdd(incs, r, i, msg);
            && msg.id.hash in r'.quorum.certs && (SubsOk(r) ==> msg.id.hash !in r'.subs)
            && SentTo(r', i) == SentTo(r, i) + [Done(None)]
            && (WaitsAt(r, j, msg.id.hash) ==> SentTo(r', j) == SentTo(r, j) + [GotCertificate(msg)])
            && (!WaitsAt(r, j, msg.id.hash) && j != i ==> SentTo(r', j) == SentTo(r, j))
  {
  }

  /** The operations of a queue, one at a time, from a given round. */
  ghost function RunQueue(incs: seq<Includer>, r: Round, queue: seq<(OpId, Op)>): Round
    decreases |queue|
  {
    if queue == [] then r else RunQueue(incs, DoOp(incs, r, queue[0].0, queue[0].1), queue[1..])
  }

  lemma {:induction false} RunQueueKeepsOk(incs: seq<Includer>, r: Round, queue: seq<(OpId, Op)>)
    requires ValidSet(incs) && RoundOk(incs, r)
    ensures RoundOk(incs, RunQueue(incs, r, queue))
    decreases |queue|
  {
    if queue != [] {
      DoOpKeepsOk(incs, r, queue[0].0, queue[0].1);
      RunQueueKeepsOk(incs, DoOp(incs, r, queue[0].0, queue[0].1), queue[1..]);
    }
  }

  // ----- Conservation of completions -----

  function Count(log: seq<OpId>, i: OpId): nat {
    if log == [] then 0 else Count(log[..|log| - 1], i) + if log[|log| - 1] == i then 1 else 0
  }

  /** Waiters are get operations, each waiting under the key it asks for. */
  ghost predicate WaitersOk(ops: OpId -> Op, r: Round) {
    forall h, i :: h in r.subs && i in r.subs[h] ==> ops(i).GetOp? && ops(i).id.hash == h
  }

  ghost predicate Waits(ops: OpId -> Op, r: Round, i: OpId) {
    ops(i).GetOp? && WaitsAt(r, i, ops(i).id.hash)
  }

  /** Completions sent to `i`, plus one while it still waits. */
  ghost function Answered(ops: OpId -> Op, r: Round, i: OpId): nat {
    |SentTo(r, i)| + if Waits(ops, r, i) then 1 else 0
  }

  /** One more completion for `i` than for anyone else. */
  ghost predicate AnswersOne(ops: OpId -> Op, r: Round, r': Round, i: OpId, j: OpId) {
    && WaitersOk(ops, r')
    && (j != i ==> Answered(ops, r', j) == Answered(ops, r, j))
    && Answered(ops, r, i) <= Answered(ops, r', i) <= Answered(ops, r, i) + 1
    && (!Waits(ops, r, i) ==> Answered(ops, r', i) == Answered(ops, r, i) + 1)
  }

  lemma AddAnswers(incs: seq<Includer>, ops: OpId -> Op, r: Round, i: OpId, j: OpId)
    requires WaitersOk(ops, r) && ops(i).AddOp?
    ensures AnswersOne(ops, r, StateAdd(incs, r, i, ops(i).msg), i, j)
  {
    var h := ops(i).msg.id.hash;
    assert !WaitsAt(r, i, h);
    assert WaitsAt(r, j, h) ==> Waits(ops, r, j);
  }

  lemma GetAnswers(ops: OpId -> Op, r: Round, i: OpId, j: OpId)
    requires WaitersOk(ops, r) && ops(i).GetOp?
    ensures AnswersOne(ops, r, StateGet(r, i, ops(i).id), i, j)
  {
  }

  lemma SendAnswers(ops: OpId -> Op, r: Round, r': Round, i: OpId, c: Completion, j: OpId)
    requires WaitersOk(ops, r) && !ops(i).GetOp? && r'.subs == r.subs && r'.sent == r.sent
    ensures AnswersOne(ops, r, Send(r', i, c), i, j)
  {
    assert SentTo(Send(r', i, c), i) == SentTo(r, i) + [c];
    assert j != i ==> SentTo(Send(r', i, c), j) == SentTo(r, j);
  }

  lemma SignAnswers(incs: seq<Includer>, ops: OpId -> Op, r: Round, i: OpId, id: Id, sig: Signature, j: OpId)
    requires WaitersOk(ops, r) && !ops(i).GetOp?
    ensures AnswersOne(ops, r, StateAddSign(incs, r, i, id, sig), i, j)
  {
    if id.hash !in r.quorum.certs {
      SendAnswers(ops, r, r, i, Done(Some(NoCertificate)), j);
    } else {
      var (q, res) := AddSignature(incs, r.quorum, id.hash, sig);
      var final := res == Ok(true) && Finalize(incs, q);
      SendAnswers(ops, r, r.(quorum := q, final := r.final || final), i,
        Done(if res.Err? then Some(res.error) else None), j);
    }
  }

  lemma DoOpAnswers(incs: seq<Includer>, ops: OpId -> Op, r: Round, i: OpId, j: OpId)
    requires WaitersOk(ops, r)
    ensures AnswersOne(ops, r, DoOp(incs, r, i, ops(i)), i, j)
  {
    match ops(i)
    case AddOp(_) => AddAnswers(incs, ops, r, i, j);
    case GetOp(_) => GetAnswers(ops, r, i, j);
    case DeleteOp(id) =>
      var (q, ok) := Delete(r.quorum, id);
      SendAnswers(ops, r, r.(quorum := q), i, Done(if ok then None else Some(NoCertificate)), j);
    case AddSignOp(id, sig) => SignAnswers(incs, ops, r, i, id, sig, j);
  }

  /** An operation never gets more completions than the loop processed it, and one that was
      processed once has exactly one completion or is still waiting for it. */
  lemma {:induction false} OpConservation(incs: seq<Includer>, ops: OpId -> Op, log: seq<OpId>, j: OpId)
    ensures WaitersOk(ops, Run(incs, ops, log))
    ensures Answered(ops, Run(incs, ops, log), j) <= Count(log, j)
    ensures Count(log, j) <= 1 ==> Answered(ops, Run(incs, ops, log), j) == Count(log, j)
  {
    if log != [] {
      var n := |log| - 1;
      OpConservation(incs, ops, log[..n], j);
      DoOpAnswers(incs, ops, Run(incs, ops, log[..n]), log[n], j);
    }
  }

  // ----- What a get operation is told -----

  /** What an operation does to the completions and the waits of another operation. */
  lemma DoOpOnOthers(incs: seq<Includer>, rd: Round, i: OpId, op: Op, j: OpId, h: Bytes)
    requires j != i
    ensures var rd' := DoOp(incs, rd, i, op);
            && (SentTo(rd, j) != [] ==> SentTo(rd', j) != [] && SentTo(rd', j)[0] == SentTo(rd, j)[0])
            && (WaitsAt(rd', j, h) ==> WaitsAt(rd, j, h))
            && (SentTo(rd', j) == [] ==> SentTo(rd, j) == [] && (WaitsAt(rd, j, h) ==> WaitsAt(rd', j, h)))
            && (SentTo(rd, j) == [] && SentTo(rd', j) != [] ==>
                  && op.AddOp? && WaitsAt(rd, j, op.msg.id.hash) && !WaitsAt(rd', j, op.msg.id.hash)
                  && op.msg.id.hash in rd'.quorum.certs && SentTo(rd', j)[0].GotCertificate?)
  {
  }

  ghost predicate AddedIn(ops: OpId -> Op, log: seq<OpId>, m: Message) {
    exists i :: i in log && ops(i) == AddOp(m)
  }

  /** An operation brings no certificate but the one it adds. */
  lemma CertAfterOp(incs: seq<Includer>, rd: Round, i: OpId, op: Op, h: Bytes)
    requires h in DoOp(incs, rd, i, op).quorum.certs
    ensures var m := DoOp(incs, rd, i, op).quorum.certs[h].msg;
            || (h in rd.quorum.certs && rd.quorum.certs[h].msg == m)
            || (op == AddOp(m) && m.id.hash == h)
  {
  }

  /** Every certificate that is there was added by an executed operation. */
  lemma {:induction false} CertsWereAdded(incs: seq<Includer>, ops: OpId -> Op, log: seq<OpId>, h: Bytes)
    ensures var q := Run(incs, ops, log).quorum;
            h in q.certs ==> q.certs[h].msg.id.hash == h && AddedIn(ops, log, q.certs[h].msg)
  {
    if log != [] {
      var n := |log| - 1;
      CertsWereAdded(incs, ops, log[..n], h);
      if h in Run(incs, ops, log).quorum.certs {
        CertAfterOp(incs, Run(incs, ops, log[..n]), log[n], ops(log[n]), h);
      }
      assert forall i :: i in log[..n] ==> i in log;
      assert log[n] in log;
    }
  }

  /** The one completion of a get operation, or its place among the waiters. */
  ghost predicate GetServed(ops: OpId -> Op, log: seq<OpId>, rd: Round, j: OpId)
    requires ops(j).GetOp?
  {
    var h := ops(j).id.hash;
    if WaitsAt(rd, j, h) then h !in rd.quorum.certs && SentTo(rd, j) == []
    else
      && |SentTo(rd, j)| == 1 && SentTo(rd, j)[0].GotCertificate?
      && SentTo(rd, j)[0].msg.id.hash == h && AddedIn(ops, log, SentTo(rd, j)[0].msg)
  }

  /** After every run, a get operation that was processed once has been handed a certificate for
      just the hash it asked for, added by one of the executed operations; or there is none, and
      it waits. So no add ever leaves a waiter behind. */
  lemma {:induction false} GetsAreServed(incs: seq<Includer>, ops: OpId -> Op, log: seq<OpId>, j: OpId)
    requires ops(j).GetOp? && Count(log, j) == 1
    ensures GetServed(ops, log, Run(incs, ops, log), j)
  {
    var n := |log| - 1;
    var rd, h := Run(incs, ops, log[..n]), ops(j).id.hash;
    assert forall i :: i in log[..n] ==> i in log;
    assert log[n] in log;
    OpConservation(incs, ops, log[..n], j);
    CertsWereAdded(incs, ops, log[..n], h);
    if log[n] == j {
      assert SentTo(rd, j) == [] && !WaitsAt(rd, j, h);
      if h in rd.quorum.certs { assert AddedIn(ops, log, rd.quorum.certs[h].msg); }
    } else {
      GetsAreServed(incs, ops, log[..n], j);
      OthersStayServed(incs, ops, log, rd, j);
    }
  }

  lemma AddedInMore(ops: OpId -> Op, log: seq<OpId>, m: Message)
    requires log != [] && (AddedIn(ops, log[..|log| - 1], m) || ops(log[|log| - 1]) == AddOp(m))
    ensures AddedIn(ops, log, m)
  {
    if AddedIn(ops, log[..|log| - 1], m) {
      var i :| i in log[..|log| - 1] && ops(i) == AddOp(m);
      assert i in log;
    } else {
      assert log[|log| - 1] in log;
    }
  }

  lemma OthersStayServed(incs: seq<Includer>, ops: OpId -> Op, log: seq<OpId>, rd: Round, j: OpId)
    requires log != [] && ops(j).GetOp? && log[|log| - 1] != j
    requires WaitersOk(ops, rd) && GetServed(ops, log[..|log| - 1], rd, j)
    ensures GetServed(ops, log, DoOp(incs, rd, log[|log| - 1], ops(log[|log| - 1])), j)
  {
    var i, op, h := log[|log| - 1], ops(log[|log| - 1]), ops(j).id.hash;
    DoOpAnswers(incs, ops, rd, i, j);
    DoOpOnOthers(incs, rd, i, op, j, h);
    if !WaitsAt(rd, j, h) { AddedInMore(ops, log, SentTo(rd, j)[0].msg); }
    if op.AddOp? { AddedInMore(ops, log, op.msg); }
  }
}
