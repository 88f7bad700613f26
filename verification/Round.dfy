/** The mutable round: the state functions of its event loop and the drain that ends it,
    each proved against `RoundSpec`. */
module DagRound {
  import opened Wrappers
  import opened Stake
  import opened DagQuorum
  import opened RoundSpec

  class Round {
    const roundNum: nat
    const quorum: Quorum
    /** Submitted operations that the loop has not received yet. */
    var stateOpCh: seq<(OpId, Op)>
    var getOpSubs: map<Bytes, set<OpId>>
    /** Everything sent on each operation's completion channel. */
    var doneCh: map<OpId, seq<Completion>>
    /** Whether `finalCh` and `closedCh` are closed. */
    var finalClosed: bool
    var closed: bool

    constructor (roundNum: nat, quorum: Quorum)
      ensures this.roundNum == roundNum && this.quorum == quorum
      ensures Model() == RoundSpec.NewRound.(quorum := quorum.model)
      ensures stateOpCh == [] && !closed
    {
      this.roundNum := roundNum;
      this.quorum := quorum;
      stateOpCh := [];
      getOpSubs := map[];
      doneCh := map[];
      finalClosed := false;
      closed := false;
    }

    ghost function Incs(): seq<Includer>
      reads quorum.includers`includers, quorum.includers.includers
    {
      quorum.Incs()
    }

    ghost function Model(): RoundSpec.Round
      reads this, quorum
    {
      RoundSpec.Round(quorum.model, getOpSubs, finalClosed, doneCh)
    }

    /** Sends one completion to an operation. */
    method Complete(i: OpId, c: Completion)
      modifies this`doneCh
      ensures doneCh == Deliver(old(doneCh), {i}, c)
    {
      doneCh := doneCh[i := (if i in doneCh then doneCh[i] else []) + [c]];
      assert doneCh == Deliver(old(doneCh), {i}, c);
    }

    method SetCertificate(i: OpId, cert: Certificate)
      modifies this`doneCh
      ensures doneCh == Deliver(old(doneCh), {i}, GotCertificate(cert.msg))
    {
      Complete(i, GotCertificate(cert.msg));
    }

    method SetError(i: OpId, err: Option<Spec.Error>)
      modifies this`doneCh
      ensures old(quorum.Valid()) ==> quorum.Valid()
      ensures doneCh == Deliver(old(doneCh), {i}, Done(err))
    {
      Complete(i, Done(err));
    }

    /** Hands the certificate to every waiter, in whatever order the set is walked. */
    method NotifyAll(waiters: set<OpId>, cert: Certificate)
      modifies this`doneCh
      ensures doneCh == Deliver(old(doneCh), waiters, GotCertificate(cert.msg))
    {
      var pending := waiters;
      assert doneCh == Deliver(doneCh, {}, GotCertificate(cert.msg));
      while pending != {}
        invariant pending <= waiters
        invariant doneCh == Deliver(old(doneCh), waiters - pending, GotCertificate(cert.msg))
        decreases pending
      {
        var i :| i in pending;
        pending := pending - {i};
        SetCertificate(i, cert);
      }
      assert waiters - pending == waiters;
    }

    method StateAdd(i: OpId, msg: Spec.Message)
      requires quorum.Valid()
      modifies this`getOpSubs, this`doneCh, quorum`certificates, quorum`model
      ensures quorum.Valid() && fresh(quorum.certificates.Values - old(quorum.certificates.Values))
      ensures Model() == RoundSpec.StateAdd(Incs(), old(Model()), i, msg)
    {
      var err := quorum.Add(msg);
      AnswerAdd(i, msg, err);
    }

    method AnswerAdd(i: OpId, msg: Spec.Message, err: Option<Spec.Error>)
      requires quorum.Valid()
      requires err.None? ==> msg.id.hash in quorum.model.certs && quorum.model.certs[msg.id.hash].msg == msg
      modifies this`getOpSubs, this`doneCh
      ensures quorum.Valid() && Incs() == old(Incs()) && quorum.model == old(quorum.model)
      ensures Model() == RoundSpec.AnswerAdd(old(Model()), i, msg, err)
    {
      if err.None? {
        NotifyWaiters(msg);
      }
      SetError(i, err);
    }

    /** Gives the certificate that was just added to those who waited for it, and forgets them. */
    method NotifyWaiters(msg: Spec.Message)
      requires quorum.Valid()
      requires msg.id.hash in quorum.model.certs && quorum.model.certs[msg.id.hash].msg == msg
      modifies this`getOpSubs, this`doneCh
      ensures quorum.Valid() && Incs() == old(Incs()) && quorum.model == old(quorum.model)
      ensures var waiters := if msg.id.hash in old(getOpSubs) then old(getOpSubs)[msg.id.hash] else {};
              && getOpSubs == (if waiters == {} then old(getOpSubs) else old(getOpSubs) - {msg.id.hash})
              && doneCh == (if waiters == {} then old(doneCh) else Deliver(old(doneCh), waiters, GotCertificate(msg)))
    {
      var key := msg.id.hash;
      if key !in getOpSubs || getOpSubs[key] == {} {
        return;
      }
      var cert := quorum.Get(msg.id);
      NotifyAll(getOpSubs[key], cert);
      getOpSubs := getOpSubs - {key};
    }

    method StateGet(i: OpId, id: Spec.Id)
      requires quorum.Valid()
      modifies this`getOpSubs, this`doneCh
      ensures Model() == RoundSpec.StateGet(old(Model()), i, id)
    {
      var cert := quorum.Get(id);
      if cert != null {
        SetCertificate(i, cert);
        return;
      }
      var inner := if id.hash in getOpSubs then getOpSubs[id.hash] else {};
      if i !in inner {
        getOpSubs := getOpSubs[id.hash := inner + {i}];
        return;
      }
      inner := inner - {i};
      if inner == {} {
        getOpSubs := getOpSubs - {id.hash};
      } else {
        getOpSubs := getOpSubs[id.hash := inner];
      }
      SetError(i, None);
    }

    method StateDelete(i: OpId, id: Spec.Id)
      requires quorum.Valid()
      modifies this`doneCh, quorum`certificates, quorum`model
      ensures quorum.Valid() && quorum.certificates.Values <= old(quorum.certificates.Values)
      ensures Model() == RoundSpec.StateDelete(old(Model()), i, id)
    {
      var ok := quorum.Delete(id);
      var err: Option<Spec.Error> := None;
      if !ok {
        err := Some(Spec.NoCertificate);
      }
      SetError(i, err);
    }

    method StateAddSign(i: OpId, id: Spec.Id, sig: Spec.Signature)
      requires quorum.Valid()
      modifies this`doneCh, this`finalClosed
      modifies quorum`activeStake, quorum`model, quorum.certificates.Values, quorum.includers`totalStake
      ensures quorum.Valid()
      ensures Model() == RoundSpec.StateAddSign(Incs(), old(Model()), i, id, sig)
    {
      var cert := quorum.Get(id);
      if cert == null {
        SetError(i, Some(Spec.NoCertificate));
        return;
      }
      SignHeld(i, cert, id, sig);
    }

    /** Signing a certificate that is there. */
    method SignHeld(i: OpId, cert: Certificate, id: Spec.Id, sig: Spec.Signature)
      requires quorum.Valid() && quorum.Holds(cert) && cert.msg.id.hash == id.hash
      modifies this`doneCh, this`finalClosed
      modifies quorum`activeStake, quorum`model, quorum.certificates.Values, quorum.includers`totalStake
      ensures quorum.Valid()
      ensures Model() == RoundSpec.StateAddSign(Incs(), old(Model()), i, id, sig)
    {
      ghost var incs, r := Incs(), Model();
      var res, final := SignAndFinalize(cert, sig);
      Answer(i, res, final);
      AnswersSigning(incs, r, i, id, sig, Model(), res, final);
    }

    /** A signed certificate's quorum, signal and answer are what the operation comes to. */
    static lemma AnswersSigning(incs: seq<Includer>, r: RoundSpec.Round, i: OpId, id: Spec.Id, sig: Spec.Signature,
      r': RoundSpec.Round, res: Result<bool, Spec.Error>, final: bool)
      requires id.hash in r.quorum.certs && (r'.quorum, res) == Spec.AddSignature(incs, r.quorum, id.hash, sig)
      requires final == (res == Ok(true) && Spec.Finalize(incs, r'.quorum))
      requires r'.subs == r.subs && r'.final == (r.final || final)
      requires r'.sent == Deliver(r.sent, {i}, Done(if res.Err? then Some(res.error) else None))
      ensures r' == RoundSpec.StateAddSign(incs, r, i, id, sig)
    {
    }

    /** Completes a signing, raising the finalization signal the first time the quorum is final. */
    method Answer(i: OpId, res: Result<bool, Spec.Error>, final: bool)
      requires quorum.Valid()
      modifies this`doneCh, this`finalClosed
      ensures quorum.Valid() && Incs() == old(Incs()) && quorum.model == old(quorum.model)
      ensures finalClosed == (old(finalClosed) || final)
      ensures doneCh == Deliver(old(doneCh), {i}, Done(if res.Err? then Some(res.error) else None))
    {
      if final && !finalClosed {
        finalClosed := true;
      }
      SetError(i, if res.Err? then Some(res.error) else None);
    }

    /** Signs a certificate and, if that leaves it complete, asks whether the quorum is final. */
    method SignAndFinalize(cert: Certificate, sig: Spec.Signature) returns (res: Result<bool, Spec.Error>, final: bool)
      requires quorum.Valid() && quorum.Holds(cert)
      modifies quorum`activeStake, quorum`model, quorum.certificates.Values, quorum.includers`totalStake
      ensures quorum.Valid()
      ensures Incs() == old(Incs())
      ensures (quorum.model, res) == Spec.AddSignature(Incs(), old(quorum.model), cert.msg.id.hash, sig)
      ensures final == (res == Ok(true) && Spec.Finalize(Incs(), quorum.model))
    {
      assert cert in quorum.certificates.Values;
      res := cert.AddSignature(sig);
      final := false;
      if res == Ok(true) {
        final := quorum.Finalize();
      }
    }

    /** One operation of the event loop. */
    method Execute(i: OpId, op: Op)
      requires quorum.Valid()
      modifies this`getOpSubs, this`doneCh, this`finalClosed
      modifies quorum, quorum.certificates.Values, quorum.includers`totalStake
      ensures quorum.Valid() && fresh(quorum.certificates.Values - old(quorum.certificates.Values))
      ensures Model() == DoOp(Incs(), old(Model()), i, op)
    {
      match op
      case AddOp(msg) => StateAdd(i, msg);
      case GetOp(id) => StateGet(i, id);
      case DeleteOp(id) => StateDelete(i, id);
      case AddSignOp(id, sig) => StateAddSign(i, id, sig);
    }

    /** The end of the event loop: everything still queued is executed, in order, and only
        then is the round closed. */
    method Drain()
      requires quorum.Valid() && !closed
      modifies this, quorum, quorum.certificates.Values, quorum.includers`totalStake
      ensures quorum.Valid() && closed && stateOpCh == []
      ensures Model() == RunQueue(Incs(), old(Model()), old(stateOpCh))
    {
      ghost var incs, r, queue := Incs(), Model(), stateOpCh;
      while stateOpCh != []
        invariant quorum.Valid() && Incs() == incs && !closed
        invariant fresh(quorum.certificates.Values - old(quorum.certificates.Values))
        invariant RunQueue(incs, Model(), stateOpCh) == RunQueue(incs, r, queue)
        decreases |stateOpCh|
      {
        var (i, op) := stateOpCh[0];
        stateOpCh := stateOpCh[1..];
        Execute(i, op);
      }
      closed := true;
    }
  }
}
