/** Runs of honest nodes, within the fault bound, in which a round finalizes although the
    certificates it lists do not carry a quorum of producers, or although another node with the
    same gossip does not finalize: why the parent quorum and totality do not hold of all runs. */
module Counterexamples {
  import opened Wrappers
  import opened Stake
  import opened QuorumSpec
  import opened RoundSpec
  import opened NodeRound
  import opened Delivery
  import opened Finality
  import opened Parents
  import opened PoolSpec
  import opened Network

  const ALICE: Key := [1]
  const BOB: Key := [2]
  const CAROL: Key := [3]
  const DAVE: Key := [4]
  const PEERS := [Includer(ALICE, 2), Includer(BOB, 1), Includer(CAROL, 1), Includer(DAVE, 0)]
  const HONEST := {ALICE, BOB, CAROL, DAVE}

  lemma KeysDiffer()
    ensures ALICE != BOB && ALICE != CAROL && ALICE != DAVE && BOB != CAROL && BOB != DAVE && CAROL != DAVE
  {
    assert ALICE[0] == 1 && BOB[0] == 2 && CAROL[0] == 3 && DAVE[0] == 4;
  }

  function Hash(b: Byte): Bytes {
    seq(HASH_SIZE, _ => b)
  }

  /** One byte stands for a block's data; an id is the byte of its producer and that of the data.
      Every block lists the same batch. */
  const ENV := Env(
    (r: nat) => PEERS,
    (cid: Bytes) => if |cid| == 2 then Some(Id(1, cid[..1], Hash(cid[1]))) else None,
    (data: Bytes) => if |data| == 1 then Hash(data[0]) else Hash(0),
    (data: Bytes) => Hash(0),
    (cid: Bytes, sig: Signature) => true,
    (data: Bytes) => Some(Block(1, ALICE, [Hash(0)], [])))

  /** Alice and Bob together are a quorum; Alice alone is not, but twice her stake reaches the threshold. */
  lemma PeerFacts()
    ensures ValidSet(PEERS) && Total(PEERS) == 4 && Required(Total(PEERS)) == 3
    ensures StakeFor(PEERS, ALICE) == 2 && StakeFor(PEERS, BOB) == 1 && StakeFor(PEERS, CAROL) == 1
    ensures Member(PEERS, ALICE) && Member(PEERS, BOB) && Member(PEERS, CAROL)
  {
    KeysDiffer();
    PeerStake(ALICE);
    PeerStake(BOB);
    PeerStake(CAROL);
  }

  lemma PeerStake(k: Key)
    ensures Total(PEERS) == 4
    ensures k == ALICE ==> Lookup(PEERS, k) == Some(Includer(ALICE, 2))
    ensures k == BOB ==> Lookup(PEERS, k) == Some(Includer(BOB, 1))
    ensures k == CAROL ==> Lookup(PEERS, k) == Some(Includer(CAROL, 1))
  {
    KeysDiffer();
    var none: seq<Includer> := [];
    var one := none + [Includer(ALICE, 2)];
    var two := one + [Includer(BOB, 1)];
    var three := two + [Includer(CAROL, 1)];
    OneMore(none, Includer(ALICE, 2), k);
    OneMore(one, Includer(BOB, 1), k);
    OneMore(two, Includer(CAROL, 1), k);
    OneMore(three, Includer(DAVE, 0), k);
    assert PEERS == three + [Includer(DAVE, 0)];
  }

  lemma OneMore(incs: seq<Includer>, i: Includer, k: Key)
    ensures Total(incs + [i]) == Total(incs) + i.stake
    ensures Lookup(incs + [i], k) == if Member(incs, k) then Lookup(incs, k) else if i.key == k then Some(i) else None
  {
    assert (incs + [i])[..|incs|] == incs;
  }

  // ----- Gossip -----

  function DataOf(who: Byte, b: Byte): Gossip {
    Data([who, b], [b])
  }

  function SigOf(who: Byte, b: Byte, key: Key): Gossip {
    Sig([who, b], Signature(key, []))
  }

  function Says(who: Byte, b: Byte): Message {
    Message(Id(1, [who], Hash(b)), [b])
  }

  lemma Decodes(who: Byte, b: Byte, key: Key)
    ensures IdOf(ENV, DataOf(who, b)) == Some(Id(1, [who], Hash(b))) == IdOf(ENV, SigOf(who, b, key))
    ensures GoodData(ENV, 1, DataOf(who, b)) && MessageOf(ENV, DataOf(who, b)) == Says(who, b)
    ensures IsSig(ENV, 1, SigOf(who, b, key))
    ensures Hash(b)[0] == b
  {
    assert [who, b][..1] == [who];
  }

  ghost predicate OneByteEach(d: set<Gossip>) {
    forall g :: g in d && g.Data? ==> |g.data| == 1
  }

  lemma OneByteSigned(who: Byte, b: Byte)
    ensures OneByteEach(Signed(who, b)) && OneByteEach({DataOf(who, b)})
  {
  }

  lemma OneByteUnion(d: set<Gossip>, d': set<Gossip>)
    requires OneByteEach(d) && OneByteEach(d')
    ensures OneByteEach(d + d')
  {
  }

  lemma OneByteCollisionFree(d: set<Gossip>)
    requires OneByteEach(d)
    ensures CollisionFree(ENV, d)
  {
    forall g, g' | g in d && g' in d && g.Data? && g'.Data? && (ENV.hash)(g.data) == (ENV.hash)(g'.data)
      ensures g.data == g'.data {
      assert Hash(g.data[0])[0] == Hash(g'.data[0])[0];
      assert g.data == [g.data[0]] && g'.data == [g'.data[0]];
    }
  }

  // ----- What two signatures do -----

  function SignBoth(q: Quorum, h: Bytes): Quorum {
    if h !in q.certs then q
    else
      var q' := AddSignature(PEERS, q, h, Signature(ALICE, [])).0;
      AddSignature(PEERS, q', h, Signature(BOB, [])).0
  }

  lemma SignBothCompletes(q: Quorum, h: Bytes)
    requires h in q.certs && q.certs[h].msg.id.hash == h && q.certs[h].sigs == []
    requires q.certs[h].activeStake == 0 && !q.certs[h].completed && 0 <= q.activeStake < 100
    requires Member(PEERS, q.certs[h].msg.id.signer)
    ensures var q' := SignBoth(q, h);
            && q'.certs.Keys == q.certs.Keys && q'.certs[h].completed && q'.certs[h].msg == q.certs[h].msg
            && (StakeFor(PEERS, q.certs[h].msg.id.signer) < 100 ==>
                  q'.activeStake == Clip(q.activeStake + StakeFor(PEERS, q.certs[h].msg.id.signer)))
            && q'.dropped == q.dropped
            && (forall k :: k in q.certs && k != h ==> q'.certs[k] == q.certs[k])
  {
    PeerFacts();
    var q1 := AddSignature(PEERS, q, h, Signature(ALICE, [])).0;
    assert Signers([]) == {};
    assert q1.certs[h] == Cert(q.certs[h].msg, [Signature(ALICE, [])], 2, false);
    assert [Signature(ALICE, [])][0].signer[0] == 1 && BOB[0] == 2;
    assert Signers([Signature(ALICE, [])]) == {ALICE};
  }

  lemma AliceIsNoQuorum(q: Quorum)
    requires forall h :: h in q.certs ==> q.certs[h].msg.id.signer == ALICE
    ensures !IsQuorum(PEERS, Producers(Listed(q)))
  {
    PeerFacts();
    StakeOfMonotone(PEERS, Producers(Listed(q)), {ALICE});
    StakeOfSingle(PEERS, ALICE);
  }

  // ----- Runs of one node -----

  /** The node can get to `s` without certifying anything, and if `clean`, without deleting or
      canceling anything. */
  ghost predicate Gets(s: State, clean: bool) {
    GetsIn(ENV, 1, s, clean)
  }

  ghost predicate GetsIn(env: Env, r: nat, s: State, clean: bool) {
    exists states, labels :: IsRun(env, r, states, labels) && states[|labels|] == s && Plain(labels, clean)
  }

  ghost predicate Plain(labels: seq<Label>, clean: bool) {
    forall i :: 0 <= i < |labels| ==> !labels[i].Certify? && (clean ==> Clean(labels[i]))
  }

  lemma GetsInitial()
    ensures Gets(Initial, true) && Calm(Initial)
  {
    assert IsRun(ENV, 1, [Initial], []) && [Initial][0] == Initial && Plain([], true);
  }

  lemma GoOn(s: State, l: Label, s': State, clean: bool)
    requires Gets(s, clean) && Step(ENV, 1, s, l, s') && !l.Certify? && (clean ==> Clean(l))
    ensures Gets(s', clean)
  {
    GoOnIn(ENV, 1, s, l, s', clean);
  }

  lemma GoOnIn(env: Env, r: nat, s: State, l: Label, s': State, clean: bool)
    requires GetsIn(env, r, s, clean) && Step(env, r, s, l, s') && !l.Certify? && (clean ==> Clean(l))
    ensures GetsIn(env, r, s', clean)
  {
    var states, labels :| IsRun(env, r, states, labels) && states[|labels|] == s && Plain(labels, clean);
    ExtendRun(env, r, states, labels, l, s');
    PlainNext(labels, l, clean);
    assert (states + [s'])[|labels + [l]|] == s';
  }

  lemma PlainNext(labels: seq<Label>, l: Label, clean: bool)
    requires Plain(labels, clean) && !l.Certify? && (clean ==> Clean(l))
    ensures Plain(labels + [l], clean)
  {
  }

  lemma CleanReaches(s: State)
    requires Gets(s, true)
    ensures Reaches(ENV, 1, s)
  {
    var states, labels :| IsRun(ENV, 1, states, labels) && states[|labels|] == s && Plain(labels, true);
    assert IsCleanRun(ENV, 1, states, labels);
  }

  lemma FinalIffFinalize(s: State, clean: bool)
    requires Gets(s, clean)
    ensures s.round.final <==> Finalize(PEERS, s.round.quorum)
  {
    PeerFacts();
    var states, labels :| IsRun(ENV, 1, states, labels) && states[|labels|] == s && Plain(labels, clean);
    RunKeepsInv(ENV, 1, states, labels, |labels|);
  }

  /** No handler of a signature is at work, and nobody waits. */
  ghost predicate Calm(s: State) {
    !s.closed && s.sigs == map[] && s.round.subs == map[] && FreshOk(s)
  }

  /** A fresh operation that need not wait is answered at once, and touches no other. */
  lemma AnsweredAtOnce(rd: Round, i: OpId, op: Op)
    requires rd.subs == map[] && (forall j :: j >= i ==> SentTo(rd, j) == [])
    requires op.GetOp? ==> op.id.hash in rd.quorum.certs
    ensures var rd' := DoOp(PEERS, rd, i, op);
            && rd'.subs == map[] && (forall j :: j >= i + 1 ==> SentTo(rd', j) == [])
            && (op.GetOp? ==> rd'.quorum == rd.quorum && |SentTo(rd', i)| == 1 && SentTo(rd', i)[0].GotCertificate?)
  {
    forall j | j >= i + 1 ensures SentTo(DoOp(PEERS, rd, i, op), j) == [] {
      assert SentTo(rd, j) == [];
      DoOpOnOthers(PEERS, rd, i, op, j, []);
    }
    assert SentTo(rd, i) == [];
    DoOpOnSelf(PEERS, rd, i, op, []);
  }

  lemma DeliverData(s: State, who: Byte, b: Byte, clean: bool) returns (s': State)
    requires Gets(s, clean) && Calm(s) && Hash(b) !in s.round.quorum.certs && Member(PEERS, [who])
    ensures Gets(s', clean) && Calm(s') && s'.delivered == s.delivered + {DataOf(who, b)}
    ensures s'.round.quorum == Add(PEERS, s.round.quorum, Says(who, b)).0
    ensures s'.data == s.data[s.nextOp := DataTask([who, b], Says(who, b), Certifying)]
  {
    var g := DataOf(who, b);
    Decodes(who, b, []);
    AnsweredAtOnce(s.round, s.nextOp, AddOp(Says(who, b)));
    s' := Apply(ENV, 1, s, AddOp(Says(who, b))).(
      delivered := s.delivered + {g}, added := s.added + {Says(who, b)},
      data := s.data[s.nextOp := DataTask([who, b], Says(who, b), Certifying)]);
    GoOn(s, RecvData(g, false), s', clean);
  }

  lemma DeliverSig(s: State, who: Byte, b: Byte, key: Key, clean: bool) returns (s': State)
    requires Gets(s, clean) && Calm(s) && Hash(b) in s.round.quorum.certs
    ensures Gets(s', clean) && Calm(s') && s'.delivered == s.delivered + {SigOf(who, b, key)} && s'.data == s.data
    ensures s'.round.quorum == AddSignature(PEERS, s.round.quorum, Hash(b), Signature(key, [])).0
  {
    var m := AskForCertificate(s, who, b, key, clean);
    s' := AddTheSignature(m, who, b, key, s.nextOp, clean);
  }

  lemma AskForCertificate(s: State, who: Byte, b: Byte, key: Key, clean: bool) returns (m: State)
    requires Gets(s, clean) && Calm(s) && Hash(b) in s.round.quorum.certs
    ensures Gets(m, clean) && m.sigs == map[s.nextOp := SigOf(who, b, key)] && GotCert(m, s.nextOp)
    ensures !m.closed && m.round.subs == map[] && FreshOk(m) && m.nextOp == s.nextOp + 1
    ensures m.delivered == s.delivered + {SigOf(who, b, key)} && m.data == s.data && m.round.quorum == s.round.quorum
  {
    var g := SigOf(who, b, key);
    var id := Id(1, [who], Hash(b));
    Decodes(who, b, key);
    AnsweredAtOnce(s.round, s.nextOp, GetOp(id));
    m := Apply(ENV, 1, s, GetOp(id)).(delivered := s.delivered + {g}, sigs := s.sigs[s.nextOp := g]);
    GoOn(s, RecvSig(g), m, clean);
  }

  lemma AddTheSignature(m: State, who: Byte, b: Byte, key: Key, op: OpId, clean: bool) returns (s': State)
    requires Gets(m, clean) && m.sigs == map[op := SigOf(who, b, key)] && GotCert(m, op)
    requires !m.closed && m.round.subs == map[] && FreshOk(m) && Hash(b) in m.round.quorum.certs
    ensures Gets(s', clean) && Calm(s') && s'.delivered == m.delivered && s'.data == m.data
    ensures s'.round.quorum == AddSignature(PEERS, m.round.quorum, Hash(b), Signature(key, [])).0
  {
    var g := SigOf(who, b, key);
    var id := Id(1, [who], Hash(b));
    Decodes(who, b, key);
    AnsweredAtOnce(m.round, m.nextOp, AddSignOp(id, g.sig));
    s' := Apply(ENV, 1, m, AddSignOp(id, g.sig)).(sigs := m.sigs - {op});
    assert s'.sigs == map[];
    GoOn(m, AddSig(op), s', clean);
  }

  /** A message with Alice's and Bob's signatures. */
  function Signed(who: Byte, b: Byte): set<Gossip> {
    {DataOf(who, b), SigOf(who, b, ALICE), SigOf(who, b, BOB)}
  }

  /** A message is delivered, under the id of `who`, and the signatures on the id of `signed` for the same data. */
  lemma DeliverSigned(s: State, who: Byte, signed: Byte, b: Byte, clean: bool) returns (s': State)
    requires Gets(s, clean) && Calm(s) && Hash(b) !in s.round.quorum.certs && Member(PEERS, [who])
    ensures Gets(s', clean) && Calm(s')
    ensures s'.delivered == s.delivered + {DataOf(who, b), SigOf(signed, b, ALICE), SigOf(signed, b, BOB)}
    ensures s'.round.quorum == SignBoth(Add(PEERS, s.round.quorum, Says(who, b)).0, Hash(b))
    ensures s'.data == s.data[s.nextOp := DataTask([who, b], Says(who, b), Certifying)]
  {
    var s1 := DeliverData(s, who, b, clean);
    SignedKeys(s1.round.quorum, Hash(b));
    var s2 := DeliverSig(s1, signed, b, ALICE, clean);
    s' := DeliverSig(s2, signed, b, BOB, clean);
  }

  lemma SignedKeys(q: Quorum, h: Bytes)
    requires h in q.certs
    ensures h in AddSignature(PEERS, q, h, Signature(ALICE, [])).0.certs
  {
  }

  /** What became of the quorum when a signed message was delivered. */
  lemma SignedMessageCounts(q: Quorum, who: Byte, b: Byte)
    requires Hash(b) !in q.certs && 0 <= q.activeStake < 50 && [who] in {ALICE, BOB, CAROL}
    ensures var q' := SignBoth(Add(PEERS, q, Says(who, b)).0, Hash(b));
            && q'.activeStake == q.activeStake + StakeFor(PEERS, [who]) && q'.certs.Keys == q.certs.Keys + {Hash(b)}
            && q'.certs[Hash(b)].completed && q'.certs[Hash(b)].msg == Says(who, b) && q'.dropped == q.dropped
            && (forall k :: k in q.certs ==> q'.certs[k] == q.certs[k])
  {
    PeerFacts();
    SignBothCompletes(Add(PEERS, q, Says(who, b)).0, Hash(b));
  }

  lemma FailAndDelete(s: State, t: nat) returns (s': State)
    requires Gets(s, false) && Calm(s) && t in s.data && s.data[t].phase == Certifying
    ensures Gets(s', false) && Calm(s') && s'.delivered == s.delivered
    ensures s'.round.quorum == Delete(s.round.quorum, s.data[t].msg.id).0
  {
    var m := SetPhase(s, t, Deleting);
    GoOn(s, FailCertify(t), m, false);
    AnsweredAtOnce(m.round, m.nextOp, DeleteOp(s.data[t].msg.id));
    s' := Apply(ENV, 1, m, DeleteOp(s.data[t].msg.id)).(data := m.data - {t});
    GoOn(m, DeleteData(t), s', false);
  }

  lemma GetsWeaker(s: State)
    requires Gets(s, true)
    ensures Gets(s, false)
  {
    var states, labels :| IsRun(ENV, 1, states, labels) && states[|labels|] == s && Plain(labels, true);
    assert Plain(labels, false);
  }

  /** One signed message of Alice's, from the start: its producer alone does not finalize. */
  lemma FirstMessage() returns (s: State)
    ensures Gets(s, true) && Gets(s, false) && Calm(s) && !s.round.final && s.delivered == Signed(1, 7)
    ensures s.round.quorum.activeStake == 2 && s.round.quorum.certs.Keys == {Hash(7)} && s.round.quorum.dropped == []
    ensures s.round.quorum.certs[Hash(7)].completed && s.round.quorum.certs[Hash(7)].msg == Says(1, 7)
    ensures s.data == map[0 := DataTask([1, 7], Says(1, 7), Certifying)]
  {
    PeerFacts();
    GetsInitial();
    s := DeliverSigned(Initial, 1, 1, 7, true);
    SignedMessageCounts(EmptyQuorum, 1, 7);
    GetsWeaker(s);
    FinalIffFinalize(s, true);
  }

  /** A second one finalizes, with nothing deleted. */
  lemma SecondMessage() returns (s: State)
    ensures Gets(s, true) && Calm(s) && s.round.final && s.delivered == Signed(1, 7) + Signed(1, 8)
    ensures s.round.quorum.dropped == [] && !IsQuorum(PEERS, Producers(Listed(s.round.quorum)))
  {
    PeerFacts();
    Decodes(1, 7, []);
    Decodes(1, 8, []);
    var s1 := FirstMessage();
    s := DeliverSigned(s1, 1, 1, 8, true);
    SecondMessageCounts(s1.round.quorum);
    FinalIffFinalize(s, true);
  }

  lemma SecondMessageCounts(q: Quorum)
    requires q.activeStake == 2 && q.certs.Keys == {Hash(7)} && q.certs[Hash(7)].msg == Says(1, 7)
    ensures var q' := SignBoth(Add(PEERS, q, Says(1, 8)).0, Hash(8));
            Finalize(PEERS, q') && q'.dropped == q.dropped && !IsQuorum(PEERS, Producers(Listed(q')))
  {
    PeerFacts();
    assert Hash(7)[0] == 7 && Hash(8)[0] == 8;
    SignedMessageCounts(q, 1, 8);
    AliceIsNoQuorum(SignBoth(Add(PEERS, q, Says(1, 8)).0, Hash(8)));
  }

  /** So does the first one, after its certification failed, its certificate was deleted, and the
      same gossip came again. */
  lemma SameMessageAgain() returns (s: State)
    ensures Gets(s, false) && Calm(s) && s.round.final && s.delivered == Signed(1, 7)
    ensures !IsQuorum(PEERS, Producers(Listed(s.round.quorum)))
  {
    PeerFacts();
    var s1 := FirstMessage();
    var s2 := FailAndDelete(s1, 0);
    s := DeliverSigned(s2, 1, 1, 7, false);
    SignedMessageCounts(s2.round.quorum, 1, 7);
    FinalIffFinalize(s, false);
    AliceIsNoQuorum(s.round.quorum);
  }

  /** Data whose hash is taken is refused. */
  lemma DeliverRefused(s: State, who: Byte, b: Byte) returns (s': State)
    requires Gets(s, true) && Calm(s) && Hash(b) in s.round.quorum.certs && Member(PEERS, [who])
    ensures Gets(s', true) && Calm(s') && s'.delivered == s.delivered + {DataOf(who, b)}
    ensures s'.round.quorum == s.round.quorum
  {
    var g := DataOf(who, b);
    Decodes(who, b, []);
    AnsweredAtOnce(s.round, s.nextOp, AddOp(Says(who, b)));
    s' := Apply(ENV, 1, s, AddOp(Says(who, b))).(delivered := s.delivered + {g});
    GoOn(s, RecvData(g, false), s', true);
  }

  /** Alice's data, once more under Carol's id. */
  function TwoIds(): set<Gossip> {
    Signed(1, 7) + {DataOf(3, 7)} + Signed(2, 8)
  }

  /** The first of the two to come is the one that counts. */
  lemma FirstIdCounts(first: Byte, second: Byte) returns (s: State)
    requires (first == 1 && second == 3) || (first == 3 && second == 1)
    ensures Gets(s, true) && Calm(s) && s.delivered == TwoIds() && (s.round.final <==> first == 1)
  {
    PeerFacts();
    KeysDiffer();
    var s2 := TakeBothIds(first, second);
    Decodes(1, 7, []);
    Decodes(1, 8, []);
    s := DeliverSigned(s2, 2, 2, 8, true);
    SignedMessageCounts(s2.round.quorum, 2, 8);
    FinalIffFinalize(s, true);
  }

  lemma TakeBothIds(first: Byte, second: Byte) returns (s: State)
    requires (first == 1 && second == 3) || (first == 3 && second == 1)
    ensures Gets(s, true) && Calm(s) && s.delivered == Signed(1, 7) + {DataOf(3, 7)}
    ensures s.round.quorum.certs.Keys == {Hash(7)} && s.round.quorum.activeStake == if first == 1 then 2 else 1
  {
    PeerFacts();
    GetsInitial();
    var s1 := DeliverSigned(Initial, first, 1, 7, true);
    FirstStake(first);
    s := DeliverRefused(s1, second, 7);
    BothIdsTaken(s.delivered, first, second);
  }

  lemma BothIdsTaken(d: set<Gossip>, first: Byte, second: Byte)
    requires (first == 1 && second == 3) || (first == 3 && second == 1)
    requires d == {} + {DataOf(first, 7), SigOf(1, 7, ALICE), SigOf(1, 7, BOB)} + {DataOf(second, 7)}
    ensures d == Signed(1, 7) + {DataOf(3, 7)}
  {
  }

  lemma FirstStake(who: Byte)
    requires who in {1, 3}
    ensures var q := SignBoth(Add(PEERS, EmptyQuorum, Says(who, 7)).0, Hash(7));
            q.certs.Keys == {Hash(7)} && q.activeStake == if who == 1 then 2 else 1
  {
    PeerFacts();
    KeysDiffer();
    SignedMessageCounts(EmptyQuorum, who, 7);
  }

  // ----- Runs of the network -----

  const STARTED := Node(1, map[1 := Initial], 1, {}, NoPool)

  ghost predicate KnowsBatch(p: Pool) {
    Latest(p.log, Hash(0)).Some?
  }

  lemma {:induction false} StartAll(net: Net, ks: set<Key>) returns (net': Net)
    requires NetReached(ENV, HONEST, net) && ks <= net.nodes.Keys
    requires forall k :: k in ks ==> net.nodes[k] == FreshNode
    ensures NetReached(ENV, HONEST, net') && net'.sent == net.sent && net'.nodes.Keys == net.nodes.Keys
    ensures forall k :: k in net.nodes ==> net'.nodes[k] == if k in ks then STARTED else net.nodes[k]
    decreases |ks|
  {
    net' := net;
    if k :| k in ks {
      var n := StartNode(net, k);
      net' := StartAll(n, ks - {k});
    }
  }

  lemma StartNode(net: Net, k: Key) returns (net': Net)
    requires NetReached(ENV, HONEST, net) && k in net.nodes && net.nodes[k] == FreshNode
    ensures NetReached(ENV, HONEST, net') && net' == net.(nodes := net.nodes[k := STARTED])
  {
    net' := net.(nodes := net.nodes[k := STARTED]);
    NetReachedNext(ENV, HONEST, net, StartRound(k), net');
  }

  /** Everybody has started round 1, and nothing was published. */
  lemma EverybodyStarts() returns (net: Net)
    ensures NetReached(ENV, HONEST, net) && net.sent == {} && net.nodes.Keys == HONEST
    ensures forall k :: k in HONEST ==> net.nodes[k] == STARTED
  {
    var n0 := Net(map k | k in HONEST :: FreshNode, {});
    assert IsNetRun(ENV, HONEST, [n0], []) && [n0][0] == n0;
    net := StartAll(n0, HONEST);
  }

  lemma PushBatch(net: Net, k: Key) returns (net': Net)
    requires NetReached(ENV, HONEST, net) && k in net.nodes
    ensures NetReached(ENV, HONEST, net') && net'.sent == net.sent && net'.nodes.Keys == net.nodes.Keys
    ensures net'.nodes[k].rounds == net.nodes[k].rounds && KnowsBatch(net'.nodes[k].pool)
    ensures forall x :: x in net.nodes && x != k ==> net'.nodes[x] == net.nodes[x]
  {
    var u := DoPush(Batch([0], k), 0);
    var p := Used(ENV.batchHash, net.nodes[k].pool, u);
    net' := net.(nodes := net.nodes[k := net.nodes[k].(pool := p)]);
    LatestAppend(net.nodes[k].pool.log, Pushed(Hash(0)), Hash(0));
    NetReachedNext(ENV, HONEST, net, NetLabel.UsePool(k, u), net');
  }

  lemma PublishData(net: Net, who: Byte, b: Byte) returns (net': Net)
    requires NetReached(ENV, HONEST, net)
    ensures NetReached(ENV, HONEST, net') && net' == net.(sent := net.sent + {DataOf(who, b)})
  {
    net' := net.(sent := net.sent + {DataOf(who, b)});
    NetReachedNext(ENV, HONEST, net, Publish(DataOf(who, b)), net');
  }

  lemma HandleStep(net: Net, k: Key, l: Label, after: State) returns (net': Net)
    requires NetReached(ENV, HONEST, net) && k in net.nodes && 1 in net.nodes[k].rounds
    requires Takes(l).Some? ==> Takes(l).value in net.sent
    requires Step(ENV, 1, net.nodes[k].rounds[1], l, after) && (l.Certify? ==> KnowsBatch(net.nodes[k].pool))
    ensures NetReached(ENV, HONEST, net') && net' == WithState(net, k, 1, after)
  {
    net' := WithState(net, k, 1, after);
    NetReachedNext(ENV, HONEST, net, Handle(k, 1, l, after), net');
  }

  /** What signing a message leaves of the network: the node's round has one more certificate, and
      the signature is published. */
  ghost predicate SignedBy(net: Net, k: Key, who: Byte, b: Byte, net': Net) {
    && k in net.nodes && 1 in net.nodes[k].rounds
    && net'.nodes.Keys == net.nodes.Keys && net'.sent == net.sent + {SigOf(who, b, k)}
    && (forall x :: x in net.nodes && x != k ==> net'.nodes[x] == net.nodes[x])
    && net'.nodes[k].pool == net.nodes[k].pool && net'.nodes[k].rounds.Keys == net.nodes[k].rounds.Keys
    && !net'.nodes[k].rounds[1].closed
    && net'.nodes[k].rounds[1].round.quorum.certs.Keys == net.nodes[k].rounds[1].round.quorum.certs.Keys + {Hash(b)}
  }

  /** The node can take data with this hash, and has the batch it lists. */
  ghost predicate ReadyFor(net: Net, k: Key, b: Byte) {
    && k in net.nodes && 1 in net.nodes[k].rounds && KnowsBatch(net.nodes[k].pool)
    && !net.nodes[k].rounds[1].closed && Hash(b) !in net.nodes[k].rounds[1].round.quorum.certs
  }

  /** An honest node gets a message, adds it, certifies it, and signs it. */
  lemma SignIt(net: Net, k: Key, who: Byte, b: Byte) returns (net': Net)
    requires NetReached(ENV, HONEST, net) && ReadyFor(net, k, b)
    requires DataOf(who, b) in net.sent && Member(PEERS, [who])
    ensures NetReached(ENV, HONEST, net') && SignedBy(net, k, who, b, net')
  {
    var s := net.nodes[k].rounds[1];
    var n1, s1 := AddIt(net, k, who, b);
    var s3 := CertifyIt(n1, k, who, b, s.nextOp);
    WithStateTwice(net, k, s1, s3);
    WithStateTwice(net, k, s3, s3);
    net' := PublishSig(WithState(net, k, 1, s3), k, who, b, |s1.signed|);
    SignedByOf(net, k, who, b, s3, net');
  }

  lemma AddIt(net: Net, k: Key, who: Byte, b: Byte) returns (net': Net, s': State)
    requires NetReached(ENV, HONEST, net) && ReadyFor(net, k, b)
    requires DataOf(who, b) in net.sent && Member(PEERS, [who])
    ensures NetReached(ENV, HONEST, net') && net' == WithState(net, k, 1, s') && !s'.closed
    ensures var s := net.nodes[k].rounds[1];
            && s'.round.quorum.certs.Keys == s.round.quorum.certs.Keys + {Hash(b)} && s'.signed == s.signed
            && s'.data == s.data[s.nextOp := DataTask([who, b], Says(who, b), Certifying)]
  {
    var s, g, m := net.nodes[k].rounds[1], DataOf(who, b), Says(who, b);
    Decodes(who, b, k);
    s' := Apply(ENV, 1, s, AddOp(m)).(delivered := s.delivered + {g}, added := s.added + {m},
      data := s.data[s.nextOp := DataTask(g.cid, m, Certifying)]);
    net' := HandleStep(net, k, RecvData(g, false), s');
  }

  lemma CertifyIt(net: Net, k: Key, who: Byte, b: Byte, t: nat) returns (s': State)
    requires NetReached(ENV, HONEST, net) && k in net.nodes && 1 in net.nodes[k].rounds && KnowsBatch(net.nodes[k].pool)
    requires t in net.nodes[k].rounds[1].data && !net.nodes[k].rounds[1].closed
    requires net.nodes[k].rounds[1].data[t] == DataTask([who, b], Says(who, b), Certifying)
    ensures NetReached(ENV, HONEST, WithState(net, k, 1, s')) && !s'.closed
    ensures s'.round == net.nodes[k].rounds[1].round
    ensures s'.signed == net.nodes[k].rounds[1].signed + [NodeRound.Signed([who, b], Says(who, b))]
  {
    var s, m := net.nodes[k].rounds[1], Says(who, b);
    var certified := SetPhase(s, t, Certified).(certified := s.certified + {m});
    var n := HandleStep(net, k, Certify(t), certified);
    s' := certified.(data := certified.data - {t}, signed := s.signed + [NodeRound.Signed([who, b], m)]);
    WithStateTwice(net, k, certified, s');
    var n' := HandleStep(n, k, SignData(t), s');
  }

  lemma PublishSig(net: Net, k: Key, who: Byte, b: Byte, i: nat) returns (net': Net)
    requires NetReached(ENV, HONEST, net) && k in net.nodes && 1 in net.nodes[k].rounds
    requires i < |net.nodes[k].rounds[1].signed| && net.nodes[k].rounds[1].signed[i].cid == [who, b]
    ensures NetReached(ENV, HONEST, net') && net' == net.(sent := net.sent + {SigOf(who, b, k)})
  {
    assert HasSigned(net, k, [who, b]);
    net' := net.(sent := net.sent + {SigOf(who, b, k)});
    NetReachedNext(ENV, HONEST, net, Publish(SigOf(who, b, k)), net');
  }

  lemma SignedByOf(net: Net, k: Key, who: Byte, b: Byte, s: State, net': Net)
    requires k in net.nodes && 1 in net.nodes[k].rounds && !s.closed
    requires s.round.quorum.certs.Keys == net.nodes[k].rounds[1].round.quorum.certs.Keys + {Hash(b)}
    requires net' == WithState(net, k, 1, s).(sent := net.sent + {SigOf(who, b, k)})
    ensures SignedBy(net, k, who, b, net')
  {
  }

  lemma WithStateTwice(net: Net, k: Key, s: State, s': State)
    requires k in net.nodes
    ensures WithState(WithState(net, k, 1, s), k, 1, s') == WithState(net, k, 1, s')
    ensures WithState(net, k, 1, s).sent == net.sent && WithState(net, k, 1, s).nodes.Keys == net.nodes.Keys
    ensures WithState(net, k, 1, s).nodes[k].pool == net.nodes[k].pool
    ensures 1 in WithState(net, k, 1, s).nodes[k].rounds && WithState(net, k, 1, s).nodes[k].rounds[1] == s
    ensures 1 in net.nodes[k].rounds && net.nodes[k].rounds[1] == s ==> WithState(net, k, 1, s) == net
  {
    var node := net.nodes[k];
    assert node.rounds[1 := s][1 := s'] == node.rounds[1 := s'];
    var once := WithState(net, k, 1, s);
    assert once.nodes[k := node.(rounds := node.rounds[1 := s'])] == net.nodes[k := node.(rounds := node.rounds[1 := s'])];
    if 1 in node.rounds && node.rounds[1] == s {
      assert node.rounds[1 := s] == node.rounds;
      assert net.nodes[k := node] == net.nodes;
    }
  }

  lemma PrefixRun(states: seq<State>, labels: seq<Label>, clean: bool)
    requires IsRun(ENV, 1, states, labels) && Plain(labels, clean) && labels != []
    ensures var n := |labels| - 1;
            && IsRun(ENV, 1, states[..n + 1], labels[..n]) && Plain(labels[..n], clean)
            && Step(ENV, 1, states[n], labels[n], states[n + 1]) && !labels[n].Certify?
            && states[n].delivered <= states[n + 1].delivered
            && (Takes(labels[n]).Some? ==> Takes(labels[n]).value in states[n + 1].delivered)
  {
    var n := |labels| - 1;
    assert Step(ENV, 1, states[n], labels[n], states[n + 1]);
    SignedGrows(ENV, 1, states[n], labels[n], states[n + 1]);
  }

  /** A node that has done nothing yet can do in the network what it can do by itself, with the
      gossip that is published. */
  lemma {:induction false} PlayIn(net: Net, k: Key, states: seq<State>, labels: seq<Label>, clean: bool) returns (net': Net)
    requires NetReached(ENV, HONEST, net) && k in net.nodes && 1 in net.nodes[k].rounds
    requires net.nodes[k].rounds[1] == Initial && IsRun(ENV, 1, states, labels) && Plain(labels, clean)
    requires states[|labels|].delivered <= net.sent
    ensures NetReached(ENV, HONEST, net') && net' == WithState(net, k, 1, states[|labels|])
    decreases |labels|
  {
    if labels == [] {
      net' := net;
      WithStateTwice(net, k, Initial, Initial);
    } else {
      var n := |labels| - 1;
      PrefixRun(states, labels, clean);
      var before := PlayIn(net, k, states[..n + 1], labels[..n], clean);
      WithStateTwice(net, k, states[n], states[n + 1]);
      net' := HandleStep(before, k, labels[n], states[n + 1]);
    }
  }

  lemma Play(net: Net, k: Key, s: State, clean: bool) returns (net': Net)
    requires NetReached(ENV, HONEST, net) && k in net.nodes && 1 in net.nodes[k].rounds
    requires net.nodes[k].rounds[1] == Initial && Gets(s, clean) && s.delivered <= net.sent
    ensures NetReached(ENV, HONEST, net') && net' == WithState(net, k, 1, s)
  {
    var states, labels :| IsRun(ENV, 1, states, labels) && states[|labels|] == s && Plain(labels, clean);
    net' := PlayIn(net, k, states, labels, clean);
  }

  ghost predicate BothReady(net: Net, b: Byte) {
    ReadyFor(net, ALICE, b) && ReadyFor(net, BOB, b)
  }

  lemma StaysReady(net: Net, k: Key, who: Byte, b: Byte, net': Net, j: Key, x: Byte)
    requires SignedBy(net, k, who, b, net') && (x != b || j != k) && ReadyFor(net, j, x)
    ensures ReadyFor(net', j, x)
  {
    assert Hash(x)[0] == x && Hash(b)[0] == b;
  }

  lemma BothStayReady(net: Net, k: Key, who: Byte, b: Byte, net': Net, x: Byte)
    requires SignedBy(net, k, who, b, net') && x != b && BothReady(net, x)
    ensures BothReady(net', x)
  {
    StaysReady(net, k, who, b, net', ALICE, x);
    StaysReady(net, k, who, b, net', BOB, x);
  }

  /** What both signatures leave of the network. */
  ghost predicate SignedByBoth(net: Net, who: Byte, b: Byte, net': Net) {
    && NetReached(ENV, HONEST, net') && net'.nodes.Keys == net.nodes.Keys && net'.sent == net.sent + Signed(who, b)
    && (forall k :: k in net.nodes && k != ALICE && k != BOB ==> net'.nodes[k] == net.nodes[k])
  }

  lemma SignedByBothOf(net: Net, who: Byte, b: Byte, n1: Net, n2: Net, n3: Net)
    requires n1 == net.(sent := net.sent + {DataOf(who, b)}) && NetReached(ENV, HONEST, n3)
    requires SignedBy(n1, ALICE, who, b, n2) && SignedBy(n2, BOB, who, b, n3)
    ensures SignedByBoth(net, who, b, n3)
  {
    assert n1.sent + {SigOf(who, b, ALICE)} + {SigOf(who, b, BOB)} == net.sent + Signed(who, b);
  }

  /** A message is published, and Alice and Bob sign it; they can go on with another. */
  lemma BothSign(net: Net, who: Byte, b: Byte, x: Byte) returns (net': Net)
    requires NetReached(ENV, HONEST, net) && BothReady(net, b) && BothReady(net, x) && Member(PEERS, [who])
    ensures SignedByBoth(net, who, b, net') && (x != b ==> BothReady(net', x))
  {
    KeysDiffer();
    var n1 := PublishData(net, who, b);
    var n2 := SignIt(n1, ALICE, who, b);
    StaysReady(n1, ALICE, who, b, n2, BOB, b);
    net' := SignIt(n2, BOB, who, b);
    SignedByBothOf(net, who, b, n1, n2, net');
    if x != b {
      BothStayReady(n1, ALICE, who, b, n2, x);
      BothStayReady(n2, BOB, who, b, net', x);
    }
  }

  /** The start of round 1; Alice and Bob have the batch. */
  lemma GetReady() returns (net: Net)
    ensures NetReached(ENV, HONEST, net) && net.nodes.Keys == HONEST && net.sent == {}
    ensures net.nodes[CAROL] == STARTED == net.nodes[DAVE]
    ensures forall b: Byte :: BothReady(net, b)
  {
    KeysDiffer();
    var n0 := EverybodyStarts();
    var n1 := PushBatch(n0, ALICE);
    net := PushBatch(n1, BOB);
  }

  /** Carol and Dave have yet to get what was published. */
  ghost predicate Published(net: Net, d: set<Gossip>) {
    && NetReached(ENV, HONEST, net) && net.sent == d
    && CAROL in net.nodes && net.nodes[CAROL] == STARTED && DAVE in net.nodes && net.nodes[DAVE] == STARTED
  }

  lemma PublishSeven() returns (net: Net)
    ensures Published(net, Signed(1, 7)) && BothReady(net, 8)
  {
    PeerFacts();
    KeysDiffer();
    var n := GetReady();
    net := BothSign(n, 1, 7, 8);
    assert {} + Signed(1, 7) == Signed(1, 7);
  }

  /** Alice's message, and a second one of whoever. */
  lemma PublishTwo(who: Byte) returns (net: Net)
    requires Member(PEERS, [who])
    ensures Published(net, Signed(1, 7) + Signed(who, 8))
  {
    KeysDiffer();
    var n := PublishSeven();
    net := BothSign(n, who, 8, 8);
  }

  lemma EverybodyIsHonest()
    ensures FaultBound(PEERS, HONEST)
  {
    PeerFacts();
    StakeOfMonotone(PEERS, HONEST, HONEST);
    AllOf(PEERS, HONEST);
  }

  lemma {:induction false} AllOf(incs: seq<Includer>, s: set<Key>)
    requires forall i :: 0 <= i < |incs| ==> incs[i].key in s
    ensures StakeOf(incs, s) == Total(incs)
  {
    if incs != [] { AllOf(incs[..|incs| - 1], s); }
  }

  // ----- The results -----

  /** All nodes are honest, and nothing is deleted or canceled; two messages of Alice's finalize
      Carol's round, although Alice's stake is no quorum. */
  lemma OneProducerFinalizes() returns (net: Net)
    ensures NetReached(ENV, HONEST, net) && FaultBound(PEERS, HONEST) && CollisionFree(ENV, net.sent)
    ensures CAROL in net.nodes && 1 in net.nodes[CAROL].rounds && net.nodes[CAROL].rounds[1].round.final
    ensures var q := net.nodes[CAROL].rounds[1].round.quorum;
            q.dropped == [] && !IsQuorum(PEERS, Producers(Listed(q)))
  {
    EverybodyIsHonest();
    PeerFacts();
    var n := PublishTwo(1);
    var s := SecondMessage();
    net := Play(n, CAROL, s, true);
    OneByteSigned(1, 7);
    OneByteSigned(1, 8);
    OneByteUnion(Signed(1, 7), Signed(1, 8));
    OneByteCollisionFree(net.sent);
  }

  /** All nodes are honest. Carol's certification fails after Alice's message completed, and the
      same gossip comes again: she is final, on one certificate that is no quorum's. Dave has been
      delivered the same gossip, has nothing left to do, and is not final. */
  lemma RecountAfterDelete() returns (net: Net)
    ensures NetReached(ENV, HONEST, net) && FaultBound(PEERS, HONEST) && CollisionFree(ENV, net.sent)
    ensures CAROL in net.nodes && 1 in net.nodes[CAROL].rounds && DAVE in net.nodes && 1 in net.nodes[DAVE].rounds
    ensures var a, b := net.nodes[CAROL].rounds[1], net.nodes[DAVE].rounds[1];
            && a.round.final && !IsQuorum(PEERS, Producers(Listed(a.round.quorum)))
            && a.delivered == b.delivered && ConflictFree(ENV, 1, b.delivered)
            && Settles(ENV, 1, b.delivered, b) && !b.round.final
  {
    EverybodyIsHonest();
    var n := PublishSeven();
    var a := SameMessageAgain();
    var b := FirstMessage();
    net := PlayBoth(n, a, b, false);
    OneByteSigned(1, 7);
    OneByteCollisionFree(net.sent);
    CleanReaches(b);
    OneOfferIsConflictFree();
  }

  lemma OneOfferIsConflictFree()
    ensures ConflictFree(ENV, 1, Signed(1, 7))
  {
    Decodes(1, 7, []);
    forall m | Offers(ENV, 1, Signed(1, 7), m) ensures m == Says(1, 7) {
      var g :| g in Signed(1, 7) && Addable(ENV, 1, g) && MessageOf(ENV, g) == m;
      assert g == DataOf(1, 7);
    }
  }

  /** All nodes are honest, and nothing is deleted or canceled. Somebody publishes Alice's data once
      more under Carol's id: Carol, who got it last, is final; Dave, who got it first, has been
      delivered the same gossip, has nothing left to do, and is not final, although the gossip
      carries the threshold. */
  lemma DataUnderTwoIds() returns (net: Net)
    ensures NetReached(ENV, HONEST, net) && FaultBound(PEERS, HONEST) && CollisionFree(ENV, net.sent)
    ensures CAROL in net.nodes && 1 in net.nodes[CAROL].rounds && DAVE in net.nodes && 1 in net.nodes[DAVE].rounds
    ensures var a, b := net.nodes[CAROL].rounds[1], net.nodes[DAVE].rounds[1];
            && a.delivered == b.delivered && Settles(ENV, 1, a.delivered, a) && Settles(ENV, 1, b.delivered, b)
            && a.round.final && Carries(ENV, 1, a.delivered) && !b.round.final
  {
    EverybodyIsHonest();
    var n := PublishTwoIds();
    var a, b := SettleTwoIds();
    net := PlayBoth(n, a, b, true);
    OneByteSigned(1, 7);
    OneByteSigned(3, 7);
    OneByteSigned(2, 8);
    OneByteUnion(Signed(1, 7), {DataOf(3, 7)});
    OneByteUnion(Signed(1, 7) + {DataOf(3, 7)}, Signed(2, 8));
    OneByteCollisionFree(net.sent);
  }

  lemma SettleTwoIds() returns (a: State, b: State)
    ensures Gets(a, true) && Gets(b, true) && a.delivered == b.delivered == TwoIds()
    ensures Settles(ENV, 1, TwoIds(), a) && Settles(ENV, 1, TwoIds(), b)
    ensures a.round.final && Carries(ENV, 1, TwoIds()) && !b.round.final
  {
    PeerFacts();
    a := FirstIdCounts(1, 3);
    b := FirstIdCounts(3, 1);
    CleanReaches(a);
    CleanReaches(b);
    CleanFinalCarries(ENV, 1, a);
  }

  /** Carol and Dave each do what they can do by themselves. */
  lemma PlayBoth(net: Net, a: State, b: State, clean: bool) returns (net': Net)
    requires Published(net, a.delivered) && b.delivered == a.delivered && Gets(a, clean) && Gets(b, true)
    ensures NetReached(ENV, HONEST, net') && net'.sent == net.sent
    ensures CAROL in net'.nodes && 1 in net'.nodes[CAROL].rounds && net'.nodes[CAROL].rounds[1] == a
    ensures DAVE in net'.nodes && 1 in net'.nodes[DAVE].rounds && net'.nodes[DAVE].rounds[1] == b
  {
    KeysDiffer();
    var n := Play(net, CAROL, a, clean);
    net' := Play(n, DAVE, b, true);
  }

  lemma PublishTwoIds() returns (net: Net)
    ensures Published(net, TwoIds())
  {
    PeerFacts();
    var n := PublishTwo(2);
    net := PublishData(n, 3, 7);
  }
}
