/** What a round comes to once its handlers have nothing left to do: a function of the gossip
    that was delivered, whatever the order, as long as nothing was deleted or canceled. */
module Delivery {
  import opened Wrappers
  import opened Stake
  import opened QuorumSpec
  import opened RoundSpec
  import opened NodeRound

  ghost predicate IsCleanRun(env: Env, r: nat, states: seq<State>, labels: seq<Label>) {
    IsRun(env, r, states, labels) && forall i :: 0 <= i < |labels| ==> Clean(labels[i])
  }

  /** No signature handler can move: none has been handed its certificate. */
  ghost predicate Quiescent(s: State) {
    forall op :: op in s.sigs ==> !GotCert(s, op)
  }

  // ----- Invariants of clean runs -----

  /** A signature that verifies and comes from an includer. */
  predicate Counts(env: Env, r: nat, g: Gossip) {
    IsSig(env, r, g) && (env.verify)(g.cid, g.sig) && Member((env.incs)(r), g.sig.signer)
  }

  /** A signature is on its certificate, or its handler is still there. */
  ghost predicate SigPlaced(env: Env, s: State, g: Gossip)
    requires g.Sig? && IdOf(env, g).Some?
  {
    var h := IdOf(env, g).value.hash;
    || (h in s.round.quorum.certs && g.sig.signer in Signers(s.round.quorum.certs[h].sigs))
    || (exists op :: op in s.sigs && s.sigs[op] == g)
  }

  /** A signature handler is parked in the subscription table, or has its certificate. */
  ghost predicate HandlerOk(env: Env, s: State, op: OpId)
    requires op in s.sigs
  {
    && op < s.nextOp && s.sigs[op].Sig? && IdOf(env, s.sigs[op]).Some?
    && var h := IdOf(env, s.sigs[op]).value.hash;
    && if GotCert(s, op) then h in s.round.quorum.certs else SentTo(s.round, op) == [] && WaitsAt(s.round, op, h)
  }

  /** Operations not yet issued are unknown to the round. */
  ghost predicate FreshOk(s: State) {
    forall op :: op >= s.nextOp ==> SentTo(s.round, op) == []
  }

  /** Only signature handlers wait, each under the hash of its own gossip, and with nothing yet received. */
  ghost predicate WaiterOk(env: Env, s: State, op: OpId, h: Bytes) {
    WaitsAt(s.round, op, h) ==>
      op in s.sigs && IdOf(env, s.sigs[op]).Some? && IdOf(env, s.sigs[op]).value.hash == h && SentTo(s.round, op) == []
  }

  ghost predicate CleanInv(env: Env, r: nat, s: State) {
    && s.round.quorum.dropped == []
    && (forall g :: g in s.delivered && Addable(env, r, g) ==> IdOf(env, g).value.hash in s.round.quorum.certs)
    && (forall g :: g in s.delivered && Counts(env, r, g) ==> SigPlaced(env, s, g))
    && (forall op :: op in s.sigs ==> HandlerOk(env, s, op))
    && FreshOk(s)
    && (forall op, h :: WaiterOk(env, s, op, h))
  }

  /** What a fresh operation does to its own completions and waits. */
  lemma DoOpOnSelf(incs: seq<Includer>, rd: Round, i: OpId, op: Op, h: Bytes)
    requires SentTo(rd, i) == [] && forall k :: !WaitsAt(rd, i, k)
    ensures var rd' := DoOp(incs, rd, i, op);
            && (WaitsAt(rd', i, h) <==> op.GetOp? && op.id.hash == h && h !in rd.quorum.certs)
            && (op.GetOp? ==>
                  if op.id.hash in rd.quorum.certs
                  then SentTo(rd', i) == [GotCertificate(rd.quorum.certs[op.id.hash].msg)]
                  else SentTo(rd', i) == [])
  {
    assert !WaitsAt(rd, i, h);
    if op.GetOp? { assert !WaitsAt(rd, i, op.id.hash); }
    if op.AddOp? { assert !WaitsAt(rd, i, op.msg.id.hash); }
  }

  /** The operation a clean step has the round execute, if any. */
  function OpOf(env: Env, r: nat, s: State, l: Label): Option<Op> {
    match l
    case RecvData(g, _) => if GoodData(env, r, g) then Some(AddOp(MessageOf(env, g))) else None
    case RecvSig(g) => if IsSig(env, r, g) then Some(GetOp(IdOf(env, g).value)) else None
    case AddSig(op) =>
      if op in s.sigs && IsSig(env, r, s.sigs[op]) then
        Some(AddSignOp(IdOf(env, s.sigs[op]).value, s.sigs[op].sig))
      else None
    case _ => None
  }

  lemma StepOnRound(env: Env, r: nat, s: State, l: Label, s': State)
    requires Step(env, r, s, l, s') && Clean(l)
    ensures match OpOf(env, r, s, l)
            case Some(op) => s'.round == DoOp((env.incs)(r), s.round, s.nextOp, op) && s'.nextOp == s.nextOp + 1
            case None => s'.round == s.round && s'.nextOp == s.nextOp
  {
  }

  /** Certificates stay, with their message and signers. */
  lemma CertsGrow(env: Env, r: nat, s: State, l: Label, s': State, h: Bytes)
    requires Step(env, r, s, l, s') && Clean(l) && h in s.round.quorum.certs
    ensures h in s'.round.quorum.certs && s'.round.quorum.certs[h].msg == s.round.quorum.certs[h].msg
    ensures Signers(s.round.quorum.certs[h].sigs) <= Signers(s'.round.quorum.certs[h].sigs)
  {
    StepOnQuorum(env, r, s, l, s');
    var sigs, sigs' := s.round.quorum.certs[h].sigs, s'.round.quorum.certs[h].sigs;
    assert sigs <= sigs';
    forall i | 0 <= i < |sigs| ensures sigs[i].signer in Signers(sigs') {
      assert sigs'[i] == sigs[i];
    }
  }

  lemma FreshKept(env: Env, r: nat, s: State, l: Label, s': State)
    requires Step(env, r, s, l, s') && Clean(l) && CleanInv(env, r, s)
    ensures FreshOk(s')
  {
    StepOnRound(env, r, s, l, s');
    if OpOf(env, r, s, l).Some? {
      var op := OpOf(env, r, s, l).value;
      forall j | j >= s'.nextOp ensures SentTo(s'.round, j) == [] {
        assert !(op.AddOp? && WaitsAt(s.round, j, op.msg.id.hash)) by {
          if op.AddOp? { NotIssued(env, r, s, j, op.msg.id.hash); }
        }
        DoOpOnOthers((env.incs)(r), s.round, s.nextOp, op, j, []);
      }
    }
  }

  lemma NotIssued(env: Env, r: nat, s: State, j: OpId, h: Bytes)
    requires CleanInv(env, r, s) && j >= s.nextOp
    ensures !WaitsAt(s.round, j, h)
  {
    assert WaiterOk(env, s, j, h);
  }

  lemma WaiterKept(env: Env, r: nat, s: State, l: Label, s': State, j: OpId, h: Bytes)
    requires Step(env, r, s, l, s') && Clean(l) && CleanInv(env, r, s)
    ensures WaiterOk(env, s', j, h)
  {
    StepOnRound(env, r, s, l, s');
    assert WaiterOk(env, s, j, h);
    if j in s.sigs { assert HandlerOk(env, s, j); }
    if OpOf(env, r, s, l).Some? {
      var op := OpOf(env, r, s, l).value;
      if j == s.nextOp {
        forall k ensures !WaitsAt(s.round, j, k) { NotIssued(env, r, s, j, k); }
        DoOpOnSelf((env.incs)(r), s.round, j, op, h);
      } else {
        if op.AddOp? { assert WaiterOk(env, s, j, op.msg.id.hash); }
        DoOpOnOthers((env.incs)(r), s.round, s.nextOp, op, j, h);
      }
    }
  }

  lemma HandlerKept(env: Env, r: nat, s: State, l: Label, s': State, j: OpId)
    requires Step(env, r, s, l, s') && Clean(l) && CleanInv(env, r, s) && j in s'.sigs
    ensures HandlerOk(env, s', j)
  {
    StepOnRound(env, r, s, l, s');
    if j in s.sigs {
      assert HandlerOk(env, s, j);
      var h := IdOf(env, s.sigs[j]).value.hash;
      if h in s.round.quorum.certs { CertsGrow(env, r, s, l, s', h); }
      if OpOf(env, r, s, l).Some? {
        var op := OpOf(env, r, s, l).value;
        if op.AddOp? { assert WaiterOk(env, s, j, op.msg.id.hash); }
        DoOpOnOthers((env.incs)(r), s.round, s.nextOp, op, j, h);
      }
    } else {
      forall k ensures !WaitsAt(s.round, j, k) { NotIssued(env, r, s, j, k); }
      DoOpOnSelf((env.incs)(r), s.round, j, OpOf(env, r, s, l).value, IdOf(env, l.g).value.hash);
      StepOnQuorum(env, r, s, l, s');
    }
  }

  lemma SigKept(env: Env, r: nat, s: State, l: Label, s': State, g: Gossip)
    requires Step(env, r, s, l, s') && Clean(l) && CleanInv(env, r, s)
    requires g in s'.delivered && Counts(env, r, g)
    ensures SigPlaced(env, s', g)
  {
    var h := IdOf(env, g).value.hash;
    if g in s.delivered {
      assert SigPlaced(env, s, g);
      if h in s.round.quorum.certs { CertsGrow(env, r, s, l, s', h); }
      if op :| op in s.sigs && s.sigs[op] == g {
        if op in s'.sigs {
          assert s'.sigs[op] == g;
        } else {
          assert HandlerOk(env, s, op);
          SignedAfter((env.incs)(r), s.round.quorum, h, g.sig);
          StepOnQuorum(env, r, s, l, s');
        }
      }
    } else {
      assert s'.sigs[s.nextOp] == g;
    }
  }

  /** After an includer's signature was added or refused as a duplicate, it is there. */
  lemma SignedAfter(incs: seq<Includer>, q: Quorum, h: Bytes, sig: Signature)
    requires h in q.certs && Member(incs, sig.signer)
    ensures sig.signer in Signers(AddSignature(incs, q, h, sig).0.certs[h].sigs)
  {
    var c' := AddSignature(incs, q, h, sig).0.certs[h];
    if sig.signer !in Signers(q.certs[h].sigs) {
      assert c'.sigs[|c'.sigs| - 1] == sig;
    }
  }

  lemma CleanInvKept(env: Env, r: nat, s: State, l: Label, s': State)
    requires Step(env, r, s, l, s') && Clean(l) && CleanInv(env, r, s)
    ensures CleanInv(env, r, s')
  {
    StepOnQuorum(env, r, s, l, s');
    FreshKept(env, r, s, l, s');
    forall g | g in s'.delivered && Addable(env, r, g) ensures IdOf(env, g).value.hash in s'.round.quorum.certs {
      if g in s.delivered { CertsGrow(env, r, s, l, s', IdOf(env, g).value.hash); }
    }
    forall g | g in s'.delivered && Counts(env, r, g) ensures SigPlaced(env, s', g) {
      SigKept(env, r, s, l, s', g);
    }
    forall op | op in s'.sigs ensures HandlerOk(env, s', op) {
      HandlerKept(env, r, s, l, s', op);
    }
    forall op, h ensures WaiterOk(env, s', op, h) {
      WaiterKept(env, r, s, l, s', op, h);
    }
  }

  lemma {:induction false} CleanRunInv(env: Env, r: nat, states: seq<State>, labels: seq<Label>, i: nat)
    requires ValidSet((env.incs)(r)) && IsCleanRun(env, r, states, labels) && i < |states|
    ensures CleanInv(env, r, states[i]) && Inv(env, r, states[i])
  {
    RunKeepsInv(env, r, states, labels, i);
    if i > 0 {
      CleanRunInv(env, r, states, labels, i - 1);
      CleanInvKept(env, r, states[i - 1], labels[i - 1], states[i]);
    }
  }

  // ----- What a settled round is -----

  /** The delivered gossip contains this message in addable form. */
  ghost predicate Offers(env: Env, r: nat, d: set<Gossip>, m: Message) {
    exists g :: g in d && Addable(env, r, g) && MessageOf(env, g) == m
  }

  /** No two addable messages share a hash: the hash determines the round and the producer. */
  ghost predicate ConflictFree(env: Env, r: nat, d: set<Gossip>) {
    forall m, m' :: Offers(env, r, d, m) && Offers(env, r, d, m') && m.id.hash == m'.id.hash ==> m == m'
  }

  /** The certificate for a hash, read off the delivered gossip. */
  ghost predicate CanonicalCert(env: Env, r: nat, d: set<Gossip>, h: Bytes, c: Cert) {
    var incs, keys := (env.incs)(r), SigKeys(env, r, d, h);
    && Offers(env, r, d, c.msg) && c.msg.id.hash == h
    && (forall k :: k in Signers(c.sigs) <==> k in keys && Member(incs, k))
    && c.activeStake == StakeOf(incs, keys)
    && (c.completed <==> IsQuorum(incs, keys))
  }

  /** The round, read off the delivered gossip. */
  ghost predicate Canonical(env: Env, r: nat, d: set<Gossip>, rd: Round) {
    && (forall m :: Offers(env, r, d, m) ==> m.id.hash in rd.quorum.certs)
    && (forall h :: h in rd.quorum.certs ==> CanonicalCert(env, r, d, h, rd.quorum.certs[h]))
    && (forall e :: multiset(rd.quorum.events)[e] == Held(rd.quorum, e))
    && rd.quorum.activeStake == Clip(EventSum((env.incs)(r), rd.quorum.events))
    && (rd.final <==> rd.quorum.activeStake >= Required(Total((env.incs)(r))))
  }

  lemma CertSettled(env: Env, r: nat, s: State, h: Bytes)
    requires ValidSet((env.incs)(r)) && Inv(env, r, s) && CleanInv(env, r, s) && Quiescent(s)
    requires h in s.round.quorum.certs
    ensures CanonicalCert(env, r, s.delivered, h, s.round.quorum.certs[h])
  {
    var incs, keys, c := (env.incs)(r), SigKeys(env, r, s.delivered, h), s.round.quorum.certs[h];
    assert CertFrom(env, r, s, h, c);
    assert Delivered(env, r, s, c.msg);
    forall k | k in keys && Member(incs, k) ensures k in Signers(c.sigs) {
      var g :| g in s.delivered && GoodSig(env, r, g, h) && g.sig.signer == k;
      assert SigPlaced(env, s, g);
    }
    assert CertOk(incs, c);
    SameStake(incs, Signers(c.sigs), keys);
  }

  lemma SameStake(incs: seq<Includer>, a: set<Key>, b: set<Key>)
    requires NonNegative(incs) && forall k :: Member(incs, k) ==> (k in a <==> k in b)
    ensures StakeOf(incs, a) == StakeOf(incs, b)
  {
    forall i | 0 <= i < |incs| ensures incs[i].key in a <==> incs[i].key in b {
      LookupFound(incs, incs[i].key);
    }
    StakeOfMonotone(incs, a, b);
    StakeOfMonotone(incs, b, a);
  }

  /** Once a clean run has settled, the round is what the delivered gossip says. */
  lemma SettledIsCanonical(env: Env, r: nat, s: State)
    requires ValidSet((env.incs)(r)) && Inv(env, r, s) && CleanInv(env, r, s) && Quiescent(s)
    ensures Canonical(env, r, s.delivered, s.round)
  {
    forall h | h in s.round.quorum.certs ensures CanonicalCert(env, r, s.delivered, h, s.round.quorum.certs[h]) {
      CertSettled(env, r, s, h);
    }
    forall e ensures multiset(s.round.quorum.events)[e] == Held(s.round.quorum, e) {
      assert multiset(s.round.quorum.dropped)[e] == 0;
    }
  }

  // ----- Order independence -----

  ghost predicate SameOutcome(a: Round, b: Round) {
    && a.quorum.certs.Keys == b.quorum.certs.Keys
    && (forall h :: h in a.quorum.certs ==> SameCert(a.quorum.certs[h], b.quorum.certs[h]))
    && a.quorum.activeStake == b.quorum.activeStake && a.final == b.final
  }

  ghost predicate SameCert(c: Cert, d: Cert) {
    && c.msg == d.msg && Signers(c.sigs) == Signers(d.sigs)
    && c.activeStake == d.activeStake && c.completed == d.completed
  }

  lemma CanonicalIsUnique(env: Env, r: nat, d: set<Gossip>, a: Round, b: Round)
    requires ValidSet((env.incs)(r)) && ConflictFree(env, r, d)
    requires Canonical(env, r, d, a) && Canonical(env, r, d, b)
    ensures SameOutcome(a, b)
  {
    CanonicalCerts(env, r, d, a, b);
    CanonicalCerts(env, r, d, b, a);
    forall e ensures multiset(a.quorum.events)[e] == multiset(b.quorum.events)[e] {
      assert Held(a.quorum, e) == Held(b.quorum, e);
    }
    EventSumMonotone((env.incs)(r), a.quorum.events, b.quorum.events);
    EventSumMonotone((env.incs)(r), b.quorum.events, a.quorum.events);
  }

  lemma CanonicalCerts(env: Env, r: nat, d: set<Gossip>, a: Round, b: Round)
    requires ConflictFree(env, r, d) && Canonical(env, r, d, a) && Canonical(env, r, d, b)
    ensures forall h :: h in a.quorum.certs ==> h in b.quorum.certs && SameCert(a.quorum.certs[h], b.quorum.certs[h])
  {
    forall h | h in a.quorum.certs ensures h in b.quorum.certs && SameCert(a.quorum.certs[h], b.quorum.certs[h]) {
      assert CanonicalCert(env, r, d, h, a.quorum.certs[h]);
      assert CanonicalCert(env, r, d, h, b.quorum.certs[h]);
      SameCanonicalCert(env, r, d, h, a.quorum.certs[h], b.quorum.certs[h]);
    }
  }

  lemma SameCanonicalCert(env: Env, r: nat, d: set<Gossip>, h: Bytes, c: Cert, c': Cert)
    requires ConflictFree(env, r, d) && CanonicalCert(env, r, d, h, c) && CanonicalCert(env, r, d, h, c')
    ensures SameCert(c, c')
  {
    assert Signers(c.sigs) == Signers(c'.sigs);
  }

  /** A clean run that ends in `s`. */
  ghost predicate Reaches(env: Env, r: nat, s: State) {
    exists states, labels :: IsCleanRun(env, r, states, labels) && states[|labels|] == s
  }

  /** A state that delivering exactly `d`, in some order, can settle in. */
  ghost predicate Settles(env: Env, r: nat, d: set<Gossip>, s: State) {
    Reaches(env, r, s) && Quiescent(s) && s.delivered == d
  }

  ghost predicate OrderFree(env: Env, r: nat, d: set<Gossip>) {
    forall s, s' :: Settles(env, r, d, s) && Settles(env, r, d, s') ==> SameOutcome(s.round, s'.round)
  }

  lemma ConflictFreeIsOrderFree(env: Env, r: nat, d: set<Gossip>)
    requires ValidSet((env.incs)(r)) && ConflictFree(env, r, d)
    ensures OrderFree(env, r, d)
  {
    forall s, s' | Settles(env, r, d, s) && Settles(env, r, d, s') ensures SameOutcome(s.round, s'.round) {
      SettlesCanonical(env, r, d, s);
      SettlesCanonical(env, r, d, s');
      CanonicalIsUnique(env, r, d, s.round, s'.round);
    }
  }

  lemma SettlesCanonical(env: Env, r: nat, d: set<Gossip>, s: State)
    requires ValidSet((env.incs)(r)) && Settles(env, r, d, s)
    ensures Canonical(env, r, d, s.round)
  {
    var states, labels :| IsCleanRun(env, r, states, labels) && states[|labels|] == s;
    CleanRunInv(env, r, states, labels, |labels|);
    SettledIsCanonical(env, r, s);
  }

  // ----- Every set of gossip can be delivered, any data first -----

  /** Later states keep the certificates' messages and the delivered gossip. */
  ghost predicate After(s: State, s': State) {
    && s.delivered <= s'.delivered
    && forall h :: h in s.round.quorum.certs ==>
         h in s'.round.quorum.certs && s'.round.quorum.certs[h].msg == s.round.quorum.certs[h].msg
  }

  lemma ExtendRun(env: Env, r: nat, states: seq<State>, steps: seq<Label>, l: Label, s': State)
    requires IsRun(env, r, states, steps) && Step(env, r, states[|steps|], l, s')
    ensures IsRun(env, r, states + [s'], steps + [l])
    ensures IsCleanRun(env, r, states, steps) && Clean(l) ==> IsCleanRun(env, r, states + [s'], steps + [l])
  {
  }

  lemma ReachesNext(env: Env, r: nat, s: State, l: Label, s': State)
    requires Reaches(env, r, s) && Step(env, r, s, l, s') && Clean(l)
    ensures Reaches(env, r, s') && After(s, s')
  {
    var states, labels :| IsCleanRun(env, r, states, labels) && states[|labels|] == s;
    ExtendRun(env, r, states, labels, l, s');
    assert (states + [s'])[|labels + [l]|] == s';
    forall h | h in s.round.quorum.certs
      ensures h in s'.round.quorum.certs && s'.round.quorum.certs[h].msg == s.round.quorum.certs[h].msg {
      CertsGrow(env, r, s, l, s', h);
    }
  }

  lemma DeliverOne(env: Env, r: nat, s: State, g: Gossip) returns (s': State)
    requires Reaches(env, r, s) && !s.closed
    ensures Reaches(env, r, s') && After(s, s') && !s'.closed && s'.delivered == s.delivered + {g}
    ensures Addable(env, r, g) && s == Initial ==>
              && IdOf(env, g).value.hash in s'.round.quorum.certs
              && s'.round.quorum.certs[IdOf(env, g).value.hash].msg == MessageOf(env, g)
  {
    if GoodData(env, r, g) {
      var msg := MessageOf(env, g);
      var next := Apply(env, r, s, AddOp(msg)).(delivered := s.delivered + {g});
      s' := if Add((env.incs)(r), s.round.quorum, msg).1.Some? then next
      else next.(added := s.added + {msg}, data := s.data[s.nextOp := DataTask(g.cid, msg, Certifying)]);
      ReachesNext(env, r, s, RecvData(g, false), s');
    } else if IsSig(env, r, g) {
      s' := Apply(env, r, s, GetOp(IdOf(env, g).value)).(
        delivered := s.delivered + {g}, sigs := s.sigs[s.nextOp := g]);
      ReachesNext(env, r, s, RecvSig(g), s');
    } else {
      s' := s.(delivered := s.delivered + {g});
      ReachesNext(env, r, s, Ignore(g), s');
    }
  }

  lemma {:induction false} DeliverAll(env: Env, r: nat, s: State, d: set<Gossip>) returns (s': State)
    requires Reaches(env, r, s) && !s.closed
    ensures Reaches(env, r, s') && After(s, s') && !s'.closed && s'.delivered == s.delivered + d
    decreases |d|
  {
    if d == {} {
      s' := s;
    } else {
      var g :| g in d;
      var next := DeliverOne(env, r, s, g);
      s' := DeliverAll(env, r, next, d - {g});
      assert s'.delivered == s.delivered + d;
    }
  }

  lemma FinishSig(env: Env, r: nat, s: State, op: OpId) returns (s': State)
    requires Reaches(env, r, s) && !s.closed && op in s.sigs && GotCert(s, op) && IsSig(env, r, s.sigs[op])
    ensures Reaches(env, r, s') && After(s, s') && !s'.closed && s'.delivered == s.delivered
    ensures |s'.sigs| < |s.sigs|
  {
    var g := s.sigs[op];
    if (env.verify)(g.cid, g.sig) {
      s' := Apply(env, r, s, AddSignOp(IdOf(env, g).value, g.sig)).(sigs := s.sigs - {op});
      ReachesNext(env, r, s, AddSig(op), s');
    } else {
      s' := s.(sigs := s.sigs - {op});
      ReachesNext(env, r, s, RejectSig(op), s');
    }
    assert s'.sigs.Keys == s.sigs.Keys - {op};
  }

  /** Handlers that have their certificate can always finish. */
  lemma {:induction false} Settle(env: Env, r: nat, s: State) returns (s': State)
    requires ValidSet((env.incs)(r)) && Reaches(env, r, s) && !s.closed
    ensures Reaches(env, r, s') && After(s, s') && Quiescent(s') && s'.delivered == s.delivered
    decreases |s.sigs|
  {
    if op :| op in s.sigs && GotCert(s, op) {
      var states, labels :| IsCleanRun(env, r, states, labels) && states[|labels|] == s;
      CleanRunInv(env, r, states, labels, |labels|);
      assert s.sigs[op] in s.delivered && IsSig(env, r, s.sigs[op]);
      var next := FinishSig(env, r, s, op);
      s' := Settle(env, r, next);
    } else {
      s' := s;
    }
  }

  /** Delivering `g` first and the rest after it settles with `g`'s message as its certificate. */
  lemma FirstWins(env: Env, r: nat, d: set<Gossip>, g: Gossip) returns (s: State)
    requires ValidSet((env.incs)(r)) && g in d && Addable(env, r, g)
    ensures Settles(env, r, d, s) && IdOf(env, g).value.hash in s.round.quorum.certs
    ensures s.round.quorum.certs[IdOf(env, g).value.hash].msg == MessageOf(env, g)
  {
    assert IsCleanRun(env, r, [Initial], []) && [Initial][0] == Initial;
    var first := DeliverOne(env, r, Initial, g);
    var all := DeliverAll(env, r, first, d);
    s := Settle(env, r, all);
    assert s.delivered == d;
  }

  /** For a given set of delivered gossip, every order of delivery and of the handlers' steps
      comes to the same certificates, signers, completions, stake and finalization exactly when
      no two of its addable messages share a hash. */
  lemma OrderIndependence(env: Env, r: nat, d: set<Gossip>)
    requires ValidSet((env.incs)(r))
    ensures OrderFree(env, r, d) <==> ConflictFree(env, r, d)
  {
    if ConflictFree(env, r, d) {
      ConflictFreeIsOrderFree(env, r, d);
    } else {
      var m, m' :| Offers(env, r, d, m) && Offers(env, r, d, m') && m.id.hash == m'.id.hash && m != m';
      var g :| g in d && Addable(env, r, g) && MessageOf(env, g) == m;
      var g' :| g' in d && Addable(env, r, g') && MessageOf(env, g') == m';
      var s := FirstWins(env, r, d, g);
      var s' := FirstWins(env, r, d, g');
      assert !SameCert(s.round.quorum.certs[m.id.hash], s'.round.quorum.certs[m.id.hash]);
    }
  }
}
