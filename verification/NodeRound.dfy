/** One node in one broadcast round: how delivered gossip turns into operations on the round,
    and what every interleaving of its handlers keeps. */
module NodeRound {
  import opened Wrappers
  import opened Stake
  import opened QuorumSpec
  import opened RoundSpec

  const HASH_SIZE := 32

  datatype Block = Block(round: nat, signer: Key, batches: seq<Bytes>, parents: seq<Bytes>)

  /** `cid` is the encoded message id, the bytes that are signed. */
  datatype Gossip = Data(cid: Bytes, data: Bytes) | Sig(cid: Bytes, sig: Signature)

  /** What all nodes compute alike: the includers of a round, the decoding of ids and blocks,
      the hashes of messages and of batches, and the verification of signatures. */
  datatype Env = Env(
    incs: nat -> seq<Includer>,
    decode: Bytes -> Option<Id>,
    hash: Bytes -> Bytes,
    batchHash: Bytes -> Bytes,
    verify: (Bytes, Signature) -> bool,
    parse: Bytes -> Option<Block>)

  function IdOf(env: Env, g: Gossip): Option<Id> {
    (env.decode)(g.cid)
  }

  /** The checks on a data gossip: the id decodes and is valid, and its hash is the data's. */
  predicate GoodData(env: Env, r: nat, g: Gossip) {
    && g.Data? && IdOf(env, g).Some? && IdOf(env, g).value.round == r
    && |IdOf(env, g).value.hash| == HASH_SIZE
    && (env.hash)(g.data) == IdOf(env, g).value.hash
  }

  function MessageOf(env: Env, g: Gossip): Message
    requires g.Data? && IdOf(env, g).Some?
  {
    Message(IdOf(env, g).value, g.data)
  }

  predicate Addable(env: Env, r: nat, g: Gossip) {
    GoodData(env, r, g) && Member((env.incs)(r), IdOf(env, g).value.signer)
  }

  predicate IsSig(env: Env, r: nat, g: Gossip) {
    g.Sig? && IdOf(env, g).Some? && IdOf(env, g).value.round == r
  }

  predicate GoodSig(env: Env, r: nat, g: Gossip, h: Bytes) {
    IsSig(env, r, g) && IdOf(env, g).value.hash == h && (env.verify)(g.cid, g.sig)
  }

  /** Those who signed hash `h` in the delivered gossip. */
  function SigKeys(env: Env, r: nat, delivered: set<Gossip>, h: Bytes): set<Key> {
    set g | g in delivered && GoodSig(env, r, g, h) :: g.sig.signer
  }

  // ----- State and steps -----

  datatype Phase = Certifying | Certified | Deleting

  /** A data gossip's handler after it added the certificate. */
  datatype DataTask = DataTask(cid: Bytes, msg: Message, phase: Phase)

  datatype Signed = Signed(cid: Bytes, msg: Message)

  /** `sigs` holds the handlers of signature gossip under their get operation. The last four
      fields are history. */
  datatype State = State(
    round: Round, closed: bool, data: map<nat, DataTask>, sigs: map<OpId, Gossip>, nextOp: nat,
    delivered: set<Gossip>, added: set<Message>, certified: set<Message>, signed: seq<Signed>)

  const Initial := State(NewRound, false, map[], map[], 0, {}, {}, {}, [])

  /** Handlers may stop anywhere, because their context ends: an add or a delete may still take
      effect after its caller gave up (`abandoned`), or a handler is dropped. */
  datatype Label =
    | RecvData(g: Gossip, abandoned: bool)
    | Certify(task: nat)
    | FailCertify(task: nat)
    | SignData(task: nat)
    | DeleteData(task: nat)
    | DropData(task: nat)
    | RecvSig(g: Gossip)
    | AddSig(op: OpId)
    | RejectSig(op: OpId)
    | CancelSig(op: OpId)
    | DropSig(op: OpId)
    | Ignore(g: Gossip)
    | Close

  function Apply(env: Env, r: nat, s: State, op: Op): State {
    s.(round := DoOp((env.incs)(r), s.round, s.nextOp, op), nextOp := s.nextOp + 1)
  }

  function SetPhase(s: State, t: nat, phase: Phase): State
    requires t in s.data
  {
    s.(data := s.data[t := s.data[t].(phase := phase)])
  }

  /** The handler's get operation has been completed with a certificate. */
  predicate GotCert(s: State, op: OpId) {
    SentTo(s.round, op) != [] && SentTo(s.round, op)[0].GotCertificate?
  }

  ghost predicate Step(env: Env, r: nat, s: State, l: Label, s': State) {
    match l
    case RecvData(g, abandoned) =>
      && GoodData(env, r, g) && !s.closed
      && var msg := MessageOf(env, g);
      && var next := Apply(env, r, s, AddOp(msg)).(delivered := s.delivered + {g});
      && s' == if Add((env.incs)(r), s.round.quorum, msg).1.Some? then next
               else next.(added := s.added + {msg},
                          data := if abandoned then s.data
                                  else s.data[s.nextOp := DataTask(g.cid, msg, Certifying)])
    case Certify(t) =>
      && t in s.data && s.data[t].phase == Certifying && (env.parse)(s.data[t].msg.data).Some?
      && s' == SetPhase(s, t, Certified).(certified := s.certified + {s.data[t].msg})
    case FailCertify(t) =>
      t in s.data && s.data[t].phase == Certifying && s' == SetPhase(s, t, Deleting)
    case SignData(t) =>
      && t in s.data && s.data[t].phase == Certified
      && s' == s.(data := s.data - {t}, signed := s.signed + [Signed(s.data[t].cid, s.data[t].msg)])
    case DeleteData(t) =>
      && t in s.data && s.data[t].phase == Deleting && !s.closed
      && s' == Apply(env, r, s, DeleteOp(s.data[t].msg.id)).(data := s.data - {t})
    case DropData(t) =>
      t in s.data && s' == s.(data := s.data - {t})
    case RecvSig(g) =>
      && IsSig(env, r, g) && !s.closed
      && s' == Apply(env, r, s, GetOp(IdOf(env, g).value)).(
                 delivered := s.delivered + {g}, sigs := s.sigs[s.nextOp := g])
    case AddSig(op) =>
      && op in s.sigs && IsSig(env, r, s.sigs[op]) && GotCert(s, op) && !s.closed
      && var g := s.sigs[op];
      && (env.verify)(g.cid, g.sig)
      && s' == Apply(env, r, s, AddSignOp(IdOf(env, g).value, g.sig)).(sigs := s.sigs - {op})
    case RejectSig(op) =>
      && op in s.sigs && s.sigs[op].Sig? && GotCert(s, op) && !(env.verify)(s.sigs[op].cid, s.sigs[op].sig)
      && s' == s.(sigs := s.sigs - {op})
    case CancelSig(op) =>
      && op in s.sigs && IsSig(env, r, s.sigs[op]) && !s.closed
      && s' == s.(round := DoOp((env.incs)(r), s.round, op, GetOp(IdOf(env, s.sigs[op]).value)), sigs := s.sigs - {op})
    case DropSig(op) =>
      op in s.sigs && s' == s.(sigs := s.sigs - {op})
    case Ignore(g) =>
      !GoodData(env, r, g) && !IsSig(env, r, g) && s' == s.(delivered := s.delivered + {g})
    case Close =>
      s.round.final && !s.closed && s' == s.(closed := true)
  }

  /** A step that neither deletes a certificate nor cancels the handler of a signature. */
  predicate Clean(l: Label) {
    !l.DeleteData? && !l.CancelSig? && !l.DropSig?
  }

  ghost predicate IsRun(env: Env, r: nat, states: seq<State>, labels: seq<Label>) {
    && |states| == |labels| + 1 && states[0] == Initial
    && forall i :: 0 <= i < |labels| ==> Step(env, r, states[i], labels[i], states[i + 1])
  }

  // ----- Invariants of all runs -----

  ghost predicate Delivered(env: Env, r: nat, s: State, m: Message) {
    exists g :: g in s.delivered && Addable(env, r, g) && MessageOf(env, g) == m
  }

  /** Everything in the quorum comes from delivered gossip that passed the checks. */
  ghost predicate HistoryOk(env: Env, r: nat, s: State) {
    && (forall m :: m in s.added ==> Delivered(env, r, s, m))
    && (forall m :: m in s.certified ==> m in s.added && (env.parse)(m.data).Some?)
    && (forall op :: op in s.sigs ==> s.sigs[op] in s.delivered && IsSig(env, r, s.sigs[op]))
    && (forall h :: h in s.round.quorum.certs ==> CertFrom(env, r, s, h, s.round.quorum.certs[h]))
  }

  ghost predicate CertFrom(env: Env, r: nat, s: State, h: Bytes, c: Cert) {
    && c.msg in s.added && c.msg.id.hash == h
    && Signers(c.sigs) <= SigKeys(env, r, s.delivered, h)
  }

  /** Every completion is backed by delivered gossip: the data, and signatures of a quorum. */
  ghost predicate Backed(env: Env, r: nat, s: State, e: Event) {
    && (exists m :: m in s.added && m.id.hash == e.hash && m.id.signer == e.producer)
    && IsQuorum((env.incs)(r), SigKeys(env, r, s.delivered, e.hash))
  }

  ghost predicate EvidenceOk(env: Env, r: nat, s: State) {
    forall e :: e in s.round.quorum.events ==> Backed(env, r, s, e)
  }

  /** The message's own certificate is there, with its data. */
  predicate Holds(q: Quorum, m: Message) {
    m.id.hash in q.certs && q.certs[m.id.hash].msg == m
  }

  /** Each certificate has at most one handler that will sign or delete it; what was signed has
      none, is still there, and was signed once. */
  ghost predicate OwnersOk(env: Env, s: State) {
    && (forall t :: t in s.data ==> TaskOk(env, s, t))
    && (forall t, u :: t in s.data && u in s.data && s.data[t].msg.id.hash == s.data[u].msg.id.hash ==> t == u)
    && (forall i :: 0 <= i < |s.signed| ==> SignedOk(env, s, s.signed[i]))
    && (forall i, j :: 0 <= i < j < |s.signed| ==> s.signed[i].msg.id.hash != s.signed[j].msg.id.hash)
  }

  ghost predicate TaskOk(env: Env, s: State, t: nat)
    requires t in s.data
  {
    && var task := s.data[t];
    && t < s.nextOp && task.msg in s.added && Holds(s.round.quorum, task.msg)
    && (env.decode)(task.cid) == Some(task.msg.id)
    && (task.phase == Certified ==> task.msg in s.certified)
  }

  ghost predicate SignedOk(env: Env, s: State, x: Signed) {
    && x.msg in s.certified && (env.decode)(x.cid) == Some(x.msg.id)
    && Holds(s.round.quorum, x.msg)
    && (forall t :: t in s.data ==> s.data[t].msg.id.hash != x.msg.id.hash)
  }

  ghost predicate Inv(env: Env, r: nat, s: State) {
    RoundOk((env.incs)(r), s.round) && HistoryOk(env, r, s) && EvidenceOk(env, r, s) && OwnersOk(env, s)
  }

  lemma SigKeysGrow(env: Env, r: nat, d: set<Gossip>, d': set<Gossip>, h: Bytes)
    requires d <= d'
    ensures SigKeys(env, r, d, h) <= SigKeys(env, r, d', h)
  {
  }

  lemma RoundKept(env: Env, r: nat, s: State, l: Label, s': State)
    requires ValidSet((env.incs)(r)) && RoundOk((env.incs)(r), s.round) && Step(env, r, s, l, s')
    ensures RoundOk((env.incs)(r), s'.round)
  {
    var incs := (env.incs)(r);
    match l
    case RecvData(g, _) => DoOpKeepsOk(incs, s.round, s.nextOp, AddOp(MessageOf(env, g)));
    case DeleteData(t) => DoOpKeepsOk(incs, s.round, s.nextOp, DeleteOp(s.data[t].msg.id));
    case RecvSig(g) => DoOpKeepsOk(incs, s.round, s.nextOp, GetOp(IdOf(env, g).value));
    case AddSig(op) => DoOpKeepsOk(incs, s.round, s.nextOp, AddSignOp(IdOf(env, s.sigs[op]).value, s.sigs[op].sig));
    case CancelSig(op) => DoOpKeepsOk(incs, s.round, op, GetOp(IdOf(env, s.sigs[op]).value));
    case _ =>
  }

  /** What a step does to the quorum: at most one certificate is added, removed or signed. */
  ghost predicate QuorumStep(env: Env, r: nat, s: State, l: Label, q': Quorum) {
    var incs, q := (env.incs)(r), s.round.quorum;
    match l
    case RecvData(g, _) => GoodData(env, r, g) && q' == Add(incs, q, MessageOf(env, g)).0
    case DeleteData(t) => t in s.data && q' == Delete(q, s.data[t].msg.id).0
    case AddSig(op) =>
      && op in s.sigs && IsSig(env, r, s.sigs[op])
      && (env.verify)(s.sigs[op].cid, s.sigs[op].sig)
      && var h := IdOf(env, s.sigs[op]).value.hash;
      && q' == if h in q.certs then AddSignature(incs, q, h, s.sigs[op].sig).0 else q
    case _ => q' == q
  }

  lemma StepOnQuorum(env: Env, r: nat, s: State, l: Label, s': State)
    requires Step(env, r, s, l, s')
    ensures QuorumStep(env, r, s, l, s'.round.quorum)
  {
  }

  /** What a step adds to the histories, and to the handlers of signatures. */
  ghost predicate HistoryStep(env: Env, r: nat, s: State, l: Label, s': State) {
    && s.delivered <= s'.delivered && s.added <= s'.added && s.certified <= s'.certified
    && (forall m :: m in s'.added && m !in s.added ==>
          l.RecvData? && l.g in s'.delivered && Addable(env, r, l.g) && m == MessageOf(env, l.g))
    && (l.RecvData? && GoodData(env, r, l.g) && Add((env.incs)(r), s.round.quorum, MessageOf(env, l.g)).1.None? ==>
          MessageOf(env, l.g) in s'.added)
    && (forall m :: m in s'.certified && m !in s.certified ==>
          l.Certify? && l.task in s.data && m == s.data[l.task].msg && (env.parse)(m.data).Some?)
    && (forall op :: op in s'.sigs ==>
          (op in s.sigs && s'.sigs[op] == s.sigs[op]) || (s'.sigs[op] in s'.delivered && IsSig(env, r, s'.sigs[op])))
  }

  lemma StepOnHistory(env: Env, r: nat, s: State, l: Label, s': State)
    requires Step(env, r, s, l, s')
    ensures HistoryStep(env, r, s, l, s')
  {
  }

  lemma MessagesKept(env: Env, r: nat, s: State, l: Label, s': State, m: Message)
    requires HistoryOk(env, r, s) && OwnersOk(env, s) && HistoryStep(env, r, s, l, s')
    ensures m in s'.added ==> Delivered(env, r, s', m)
    ensures m in s'.certified ==> m in s'.added && (env.parse)(m.data).Some?
  {
    if m in s'.certified && m !in s.certified { assert TaskOk(env, s, l.task); }
    if m in s.added {
      assert Delivered(env, r, s, m);
    } else if m in s'.added {
      assert l.g in s'.delivered && MessageOf(env, l.g) == m;
    }
  }

  lemma HistoryKept(env: Env, r: nat, s: State, l: Label, s': State)
    requires HistoryOk(env, r, s) && OwnersOk(env, s) && Step(env, r, s, l, s')
    ensures HistoryOk(env, r, s')
  {
    StepOnQuorum(env, r, s, l, s');
    StepOnHistory(env, r, s, l, s');
    forall m ensures (m in s'.added ==> Delivered(env, r, s', m)) &&
        (m in s'.certified ==> m in s'.added && (env.parse)(m.data).Some?) {
      MessagesKept(env, r, s, l, s', m);
    }
    forall h | h in s'.round.quorum.certs ensures CertFrom(env, r, s', h, s'.round.quorum.certs[h]) {
      SigKeysGrow(env, r, s.delivered, s'.delivered, h);
      CertKept(env, r, s, l, s', h);
    }
  }

  lemma CertKept(env: Env, r: nat, s: State, l: Label, s': State, h: Bytes)
    requires HistoryOk(env, r, s) && HistoryStep(env, r, s, l, s') && QuorumStep(env, r, s, l, s'.round.quorum)
    requires h in s'.round.quorum.certs && SigKeys(env, r, s.delivered, h) <= SigKeys(env, r, s'.delivered, h)
    ensures CertFrom(env, r, s', h, s'.round.quorum.certs[h])
  {
    var c' := s'.round.quorum.certs[h];
    if h in s.round.quorum.certs {
      var c := s.round.quorum.certs[h];
      assert CertFrom(env, r, s, h, c);
      if l.AddSig? && c' != c {
        var g := s.sigs[l.op];
        assert g in s.delivered && GoodSig(env, r, g, h);
        assert c'.sigs == c.sigs + [g.sig];
        assert Signers(c'.sigs) <= Signers(c.sigs) + {g.sig.signer};
      }
    } else {
      assert l.RecvData?;
    }
  }

  lemma EventBacked(env: Env, r: nat, s: State, l: Label, s': State, e: Event)
    requires ValidSet((env.incs)(r)) && HistoryOk(env, r, s') && RoundOk((env.incs)(r), s'.round)
    requires EvidenceOk(env, r, s) && s.delivered <= s'.delivered && s.added <= s'.added
    requires QuorumStep(env, r, s, l, s'.round.quorum) && e in s'.round.quorum.events
    ensures Backed(env, r, s', e)
  {
    var incs, q, q' := (env.incs)(r), s.round.quorum, s'.round.quorum;
    SigKeysGrow(env, r, s.delivered, s'.delivered, e.hash);
    if e in q.events {
      assert Backed(env, r, s, e);
      StakeOfMonotone(incs, SigKeys(env, r, s.delivered, e.hash), SigKeys(env, r, s'.delivered, e.hash));
    } else {
      var h := IdOf(env, s.sigs[l.op]).value.hash;
      var c' := q'.certs[h];
      assert e == EventOf(q.certs[h]) && c'.msg == q.certs[h].msg && c'.completed;
      CertBacks(env, r, s', h);
    }
  }

  /** A completed certificate backs its completion. */
  lemma CertBacks(env: Env, r: nat, s: State, h: Bytes)
    requires ValidSet((env.incs)(r)) && HistoryOk(env, r, s) && RoundOk((env.incs)(r), s.round)
    requires h in s.round.quorum.certs && s.round.quorum.certs[h].completed
    ensures Backed(env, r, s, EventOf(s.round.quorum.certs[h]))
  {
    var c := s.round.quorum.certs[h];
    assert CertFrom(env, r, s, h, c) && CertOk((env.incs)(r), c);
    StakeOfMonotone((env.incs)(r), Signers(c.sigs), SigKeys(env, r, s.delivered, h));
  }

  lemma EvidenceKept(env: Env, r: nat, s: State, l: Label, s': State)
    requires ValidSet((env.incs)(r)) && HistoryOk(env, r, s') && RoundOk((env.incs)(r), s'.round)
    requires EvidenceOk(env, r, s) && Step(env, r, s, l, s')
    ensures EvidenceOk(env, r, s')
  {
    StepOnQuorum(env, r, s, l, s');
    StepOnHistory(env, r, s, l, s');
    forall e | e in s'.round.quorum.events ensures Backed(env, r, s', e) {
      EventBacked(env, r, s, l, s', e);
    }
  }

  /** A certificate stays, with its message, unless it is the one deleted. */
  lemma HoldsKept(env: Env, r: nat, s: State, l: Label, q': Quorum, m: Message)
    requires QuorumStep(env, r, s, l, q') && Holds(s.round.quorum, m)
    requires l.DeleteData? ==> s.data[l.task].msg.id.hash != m.id.hash
    ensures Holds(q', m)
  {
  }

  /** Where the handler `t` comes from: it was there, or it has just added its certificate. */
  ghost predicate TaskStep(env: Env, r: nat, s: State, l: Label, s': State, t: nat)
    requires t in s'.data
  {
    && s.nextOp <= s'.nextOp && s.added <= s'.added && s.certified <= s'.certified
    && (l.DeleteData? ==> l.task in s.data && l.task != t)
    && if t in s.data then
      && s'.data[t].msg == s.data[t].msg && s'.data[t].cid == s.data[t].cid
      && (s'.data[t].phase == Certified ==> s.data[t].phase == Certified || s'.data[t].msg in s'.certified)
    else
      && l.RecvData? && GoodData(env, r, l.g) && t == s.nextOp < s'.nextOp
      && s'.data[t] == DataTask(l.g.cid, MessageOf(env, l.g), Certifying)
      && s'.data[t].msg in s'.added && Add((env.incs)(r), s.round.quorum, s'.data[t].msg).1.None?
  }

  lemma StepOnTask(env: Env, r: nat, s: State, l: Label, s': State, t: nat)
    requires Step(env, r, s, l, s') && t in s'.data && (t in s.data ==> t < s.nextOp)
    ensures TaskStep(env, r, s, l, s', t)
  {
  }

  lemma TaskKept(env: Env, r: nat, s: State, l: Label, s': State, t: nat)
    requires OwnersOk(env, s) && QuorumStep(env, r, s, l, s'.round.quorum)
    requires t in s'.data && TaskStep(env, r, s, l, s', t)
    ensures TaskOk(env, s', t)
  {
    if t in s.data {
      assert TaskOk(env, s, t);
      HoldsKept(env, r, s, l, s'.round.quorum, s.data[t].msg);
    }
  }

  lemma TasksDistinct(env: Env, r: nat, s: State, l: Label, s': State, t: nat, u: nat)
    requires OwnersOk(env, s)
    requires t in s'.data && u in s'.data && TaskStep(env, r, s, l, s', t) && TaskStep(env, r, s, l, s', u)
    requires s'.data[t].msg.id.hash == s'.data[u].msg.id.hash
    ensures t == u
  {
    if t in s.data { assert TaskOk(env, s, t); }
    if u in s.data { assert TaskOk(env, s, u); }
  }

  lemma SignedKept(env: Env, r: nat, s: State, l: Label, s': State, x: Signed)
    requires QuorumStep(env, r, s, l, s'.round.quorum) && s.certified <= s'.certified
    requires forall t :: t in s'.data ==> TaskStep(env, r, s, l, s', t)
    requires SignedOk(env, s, x)
    ensures SignedOk(env, s', x)
  {
    HoldsKept(env, r, s, l, s'.round.quorum, x.msg);
  }

  lemma NewlySigned(env: Env, r: nat, s: State, t: nat, s': State)
    requires OwnersOk(env, s) && Step(env, r, s, SignData(t), s')
    ensures SignedOk(env, s', s'.signed[|s.signed|])
    ensures forall i :: 0 <= i < |s.signed| ==> s.signed[i].msg.id.hash != s'.signed[|s.signed|].msg.id.hash
  {
    assert TaskOk(env, s, t);
    forall i | 0 <= i < |s.signed| ensures s.signed[i].msg.id.hash != s'.signed[|s.signed|].msg.id.hash {
      assert SignedOk(env, s, s.signed[i]);
    }
  }

  lemma TasksKept(env: Env, r: nat, s: State, l: Label, s': State)
    requires OwnersOk(env, s) && Step(env, r, s, l, s') && QuorumStep(env, r, s, l, s'.round.quorum)
    ensures forall t :: t in s'.data ==> TaskStep(env, r, s, l, s', t) && TaskOk(env, s', t)
  {
    forall t | t in s'.data ensures TaskStep(env, r, s, l, s', t) && TaskOk(env, s', t) {
      if t in s.data { assert TaskOk(env, s, t); }
      StepOnTask(env, r, s, l, s', t);
      TaskKept(env, r, s, l, s', t);
    }
  }

  lemma StepOnSigned(env: Env, r: nat, s: State, l: Label, s': State)
    requires Step(env, r, s, l, s')
    ensures s.certified <= s'.certified && s.signed <= s'.signed
    ensures |s'.signed| == |s.signed| + if l.SignData? then 1 else 0
  {
  }

  lemma SignaturesKept(env: Env, r: nat, s: State, l: Label, s': State)
    requires OwnersOk(env, s) && QuorumStep(env, r, s, l, s'.round.quorum)
    requires forall t :: t in s'.data ==> TaskStep(env, r, s, l, s', t)
    requires s.certified <= s'.certified && s.signed <= s'.signed
    requires |s'.signed| == |s.signed| + if l.SignData? then 1 else 0
    requires l.SignData? ==>
               && SignedOk(env, s', s'.signed[|s.signed|])
               && forall i :: 0 <= i < |s.signed| ==> s.signed[i].msg.id.hash != s'.signed[|s.signed|].msg.id.hash
    ensures forall i :: 0 <= i < |s'.signed| ==> SignedOk(env, s', s'.signed[i])
    ensures forall i, j :: 0 <= i < j < |s'.signed| ==> s'.signed[i].msg.id.hash != s'.signed[j].msg.id.hash
  {
    forall i | 0 <= i < |s.signed| ensures SignedOk(env, s', s.signed[i]) {
      SignedKept(env, r, s, l, s', s.signed[i]);
    }
  }

  lemma OwnersKept(env: Env, r: nat, s: State, l: Label, s': State)
    requires OwnersOk(env, s) && Step(env, r, s, l, s')
    ensures OwnersOk(env, s')
  {
    StepOnQuorum(env, r, s, l, s');
    TasksKept(env, r, s, l, s');
    StepOnSigned(env, r, s, l, s');
    if l.SignData? { NewlySigned(env, r, s, l.task, s'); }
    SignaturesKept(env, r, s, l, s');
    forall t, u | t in s'.data && u in s'.data && s'.data[t].msg.id.hash == s'.data[u].msg.id.hash ensures t == u {
      TasksDistinct(env, r, s, l, s', t, u);
    }
  }

  // ----- When the certificates are append-only -----

  /** Every certificate is still there, with its message and its signatures. */
  ghost predicate Appended(q: Quorum, q': Quorum) {
    forall h :: h in q.certs ==> h in q'.certs && q'.certs[h].msg == q.certs[h].msg && q.certs[h].sigs <= q'.certs[h].sigs
  }

  /** A step keeps the quorum append-only if and only if it is not the deletion that follows a
      failed certification. */
  lemma AppendOnly(env: Env, r: nat, s: State, l: Label, s': State)
    requires OwnersOk(env, s) && Step(env, r, s, l, s')
    ensures Appended(s.round.quorum, s'.round.quorum) <==> !l.DeleteData?
  {
    StepOnQuorum(env, r, s, l, s');
    if l.DeleteData? {
      assert TaskOk(env, s, l.task);
      assert s.data[l.task].msg.id.hash in s.round.quorum.certs;
    }
  }

  lemma StepKeepsInv(env: Env, r: nat, s: State, l: Label, s': State)
    requires ValidSet((env.incs)(r)) && Inv(env, r, s) && Step(env, r, s, l, s')
    ensures Inv(env, r, s')
  {
    RoundKept(env, r, s, l, s');
    HistoryKept(env, r, s, l, s');
    EvidenceKept(env, r, s, l, s');
    OwnersKept(env, r, s, l, s');
  }

  lemma InitialInv(env: Env, r: nat)
    requires ValidSet((env.incs)(r))
    ensures Inv(env, r, Initial)
  {
    EmptyQuorumValid((env.incs)(r));
  }

  lemma {:induction false} RunKeepsInv(env: Env, r: nat, states: seq<State>, labels: seq<Label>, i: nat)
    requires ValidSet((env.incs)(r)) && IsRun(env, r, states, labels) && i < |states|
    ensures Inv(env, r, states[i])
  {
    if i == 0 {
      InitialInv(env, r);
    } else {
      RunKeepsInv(env, r, states, labels, i - 1);
      StepKeepsInv(env, r, states[i - 1], labels[i - 1], states[i]);
    }
  }

  /** A run keeps its certificates append-only throughout if and only if no certification failed
      and had its certificate deleted. */
  lemma RunAppendOnly(env: Env, r: nat, states: seq<State>, labels: seq<Label>)
    requires ValidSet((env.incs)(r)) && IsRun(env, r, states, labels)
    ensures (forall i :: 0 <= i < |labels| ==> Appended(states[i].round.quorum, states[i + 1].round.quorum)) <==>
            (forall i :: 0 <= i < |labels| ==> !labels[i].DeleteData?)
  {
    forall i | 0 <= i < |labels|
      ensures Appended(states[i].round.quorum, states[i + 1].round.quorum) <==> !labels[i].DeleteData? {
      RunKeepsInv(env, r, states, labels, i);
      AppendOnly(env, r, states[i], labels[i], states[i + 1]);
    }
    if i :| 0 <= i < |labels| && labels[i].DeleteData? {
      assert !Appended(states[i].round.quorum, states[i + 1].round.quorum);
    }
  }
}
