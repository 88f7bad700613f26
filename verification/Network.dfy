/** All honest nodes together, over all rounds, against adversaries that may publish anything
    but forged signatures: what a completed certificate means, and what the chain builds on. */
module Network {
  import opened Wrappers
  import opened Stake
  import opened QuorumSpec
  import opened RoundSpec
  import opened NodeRound
  import opened Parents
  import opened PoolSpec

  /** `latest` and `rounds` are the round manager's: the highest round ever started, and every
      round ever started, stopped ones included. `height` and `lastCerts` are the chain's. */
  datatype Node = Node(latest: nat, rounds: map<nat, State>, height: nat, lastCerts: set<Cert>, pool: Pool)

  /** The honest nodes under their keys, and all gossip published so far. */
  datatype Net = Net(nodes: map<Key, Node>, sent: set<Gossip>)

  datatype NetLabel =
    | Publish(g: Gossip)
    | StartRound(k: Key)
    | Handle(k: Key, r: nat, l: Label, after: State)
    | FinishRound(k: Key)
    | UsePool(k: Key, u: Use)

  const FreshNode := Node(0, map[], 1, {}, NoPool)

  ghost predicate HasSigned(net: Net, k: Key, cid: Bytes) {
    && k in net.nodes
    && exists r, i :: r in net.nodes[k].rounds && 0 <= i < |net.nodes[k].rounds[r].signed|
         && net.nodes[k].rounds[r].signed[i].cid == cid
  }

  /** A signature that verifies under an honest key exists only if that node made it. */
  ghost predicate NotForged(env: Env, net: Net, g: Gossip) {
    g.Sig? && (env.verify)(g.cid, g.sig) && g.sig.signer in net.nodes ==> HasSigned(net, g.sig.signer, g.cid)
  }

  /** The gossip a handler step takes from the network, if any. */
  function Takes(l: Label): Option<Gossip> {
    match l
    case RecvData(g, _) => Some(g)
    case RecvSig(g) => Some(g)
    case Ignore(g) => Some(g)
    case _ => None
  }

  /** Every batch that some data lists has been pushed to the pool, deleted from it or collected,
      as it must be for all pulls of a certification to come back (`PoolSpec.AnsweredIsKnown`). */
  ghost predicate BatchesKnown(env: Env, p: Pool, data: Bytes) {
    (env.parse)(data).Some? ==> forall h :: h in (env.parse)(data).value.batches ==> Latest(p.log, h).Some?
  }

  ghost predicate NetStep(env: Env, net: Net, nl: NetLabel, net': Net) {
    match nl
    case Publish(g) =>
      NotForged(env, net, g) && net' == net.(sent := net.sent + {g})
    case StartRound(k) =>
      && k in net.nodes && net.nodes[k].height > net.nodes[k].latest
      && var node := net.nodes[k];
      && net' == net.(nodes := net.nodes[k :=
           node.(latest := node.height, rounds := node.rounds[node.height := Initial])])
    case Handle(k, r, l, after) =>
      && k in net.nodes && r in net.nodes[k].rounds
      && (Takes(l).Some? ==> Takes(l).value in net.sent)
      && Step(env, r, net.nodes[k].rounds[r], l, after)
      && var node := net.nodes[k];
      && (l.Certify? ==> BatchesKnown(env, node.pool, node.rounds[r].data[l.task].msg.data))
      && net' == net.(nodes := net.nodes[k := node.(rounds := node.rounds[r := after])])
    case FinishRound(k) =>
      && k in net.nodes
      && var node := net.nodes[k];
      && node.height in node.rounds && node.rounds[node.height].closed
      && net' == net.(nodes := net.nodes[k :=
           node.(height := node.height + 1, lastCerts := Listed(node.rounds[node.height].round.quorum))])
    case UsePool(k, u) =>
      && k in net.nodes && MayUse(net.nodes[k].pool, u)
      && var node := net.nodes[k];
      && net' == net.(nodes := net.nodes[k := node.(pool := Used(env.batchHash, node.pool, u))])
  }

  ghost predicate IsNetRun(env: Env, honest: set<Key>, nets: seq<Net>, labels: seq<NetLabel>) {
    && |nets| == |labels| + 1 && nets[0] == Net(map k | k in honest :: FreshNode, {})
    && forall i :: 0 <= i < |labels| ==> NetStep(env, nets[i], labels[i], nets[i + 1])
  }

  /** A run that ends in `net`. */
  ghost predicate NetReached(env: Env, honest: set<Key>, net: Net) {
    exists nets, labels :: IsNetRun(env, honest, nets, labels) && nets[|labels|] == net
  }

  lemma NetReachedNext(env: Env, honest: set<Key>, net: Net, nl: NetLabel, net': Net)
    requires NetReached(env, honest, net) && NetStep(env, net, nl, net')
    ensures NetReached(env, honest, net')
  {
    var nets, labels :| IsNetRun(env, honest, nets, labels) && nets[|labels|] == net;
    assert IsNetRun(env, honest, nets + [net'], labels + [nl]);
    assert (nets + [net'])[|labels + [nl]|] == net';
  }

  function WithState(net: Net, k: Key, r: nat, s: State): Net
    requires k in net.nodes
  {
    var node := net.nodes[k];
    net.(nodes := net.nodes[k := node.(rounds := node.rounds[r := s])])
  }

  ghost predicate ValidEnv(env: Env) {
    forall r :: ValidSet((env.incs)(r))
  }

  // ----- The invariant -----

  ghost predicate RoundRecordOk(env: Env, net: Net, node: Node, r: nat)
    requires r in node.rounds
  {
    && r <= node.latest && Inv(env, r, node.rounds[r])
    && node.rounds[r].delivered <= net.sent
    && (node.rounds[r].closed ==> node.rounds[r].round.final)
  }

  /** The chain builds on what its last round listed when it was stopped. */
  ghost predicate ChainOk(node: Node) {
    && node.height >= 1
    && (node.height == 1 ==> node.lastCerts == {})
    && (node.height > 1 ==>
          && node.height - 1 in node.rounds && node.rounds[node.height - 1].closed
          && node.lastCerts == Listed(node.rounds[node.height - 1].round.quorum))
  }

  ghost predicate NodeOk(env: Env, net: Net, node: Node) {
    (forall r :: r in node.rounds ==> RoundRecordOk(env, net, node, r)) && ChainOk(node)
  }

  ghost predicate NetInv(env: Env, net: Net) {
    && (forall k :: k in net.nodes ==> NodeOk(env, net, net.nodes[k]))
    && (forall g :: g in net.sent ==> NotForged(env, net, g))
  }

  /** A started round stays under its number; a step changes it only as a handler step of its own. */
  lemma RoundEvolves(env: Env, net: Net, nl: NetLabel, net': Net, k: Key, r: nat)
    requires NetStep(env, net, nl, net') && k in net.nodes && r in net.nodes[k].rounds && r <= net.nodes[k].latest
    ensures k in net'.nodes && r in net'.nodes[k].rounds && net.nodes[k].latest <= net'.nodes[k].latest
    ensures net.sent <= net'.sent
    ensures var s, s' := net.nodes[k].rounds[r], net'.nodes[k].rounds[r];
            || s' == s
            || (nl.Handle? && nl.k == k && nl.r == r && Step(env, r, s, nl.l, s') &&
                (Takes(nl.l).Some? ==> Takes(nl.l).value in net.sent))
  {
  }

  lemma SignedGrows(env: Env, r: nat, s: State, l: Label, s': State)
    requires Step(env, r, s, l, s')
    ensures s.signed <= s'.signed
    ensures s'.delivered == s.delivered + if Takes(l).Some? then {Takes(l).value} else {}
    ensures s.closed ==> s'.closed && s'.round == s.round
    ensures s'.closed && !s.closed ==> s.round.final && s'.round == s.round
  {
  }

  /** Nodes never forget a signature they made. */
  lemma SignaturesStay(env: Env, net: Net, nl: NetLabel, net': Net, k: Key, cid: Bytes)
    requires NetInv(env, net) && NetStep(env, net, nl, net') && HasSigned(net, k, cid)
    ensures HasSigned(net', k, cid)
  {
    var r, i :| r in net.nodes[k].rounds && 0 <= i < |net.nodes[k].rounds[r].signed|
      && net.nodes[k].rounds[r].signed[i].cid == cid;
    assert RoundRecordOk(env, net, net.nodes[k], r);
    RoundEvolves(env, net, nl, net', k, r);
    var s, s' := net.nodes[k].rounds[r], net'.nodes[k].rounds[r];
    if s' != s { SignedGrows(env, r, s, nl.l, s'); }
    assert s'.signed[i].cid == cid;
  }

  lemma RecordKept(env: Env, net: Net, nl: NetLabel, net': Net, k: Key, r: nat)
    requires ValidEnv(env) && NetStep(env, net, nl, net') && k in net.nodes && r in net.nodes[k].rounds
    requires RoundRecordOk(env, net, net.nodes[k], r)
    ensures k in net'.nodes && r in net'.nodes[k].rounds && RoundRecordOk(env, net', net'.nodes[k], r)
    ensures net.nodes[k].rounds[r].closed ==>
              net'.nodes[k].rounds[r].closed && net'.nodes[k].rounds[r].round == net.nodes[k].rounds[r].round
  {
    RoundEvolves(env, net, nl, net', k, r);
    var s, s' := net.nodes[k].rounds[r], net'.nodes[k].rounds[r];
    if s' != s {
      StepKeepsInv(env, r, s, nl.l, s');
      SignedGrows(env, r, s, nl.l, s');
    }
  }

  lemma NewRecordOk(env: Env, net: Net, nl: NetLabel, net': Net, k: Key, r: nat)
    requires ValidEnv(env) && NetStep(env, net, nl, net') && k in net.nodes && k in net'.nodes
    requires r !in net.nodes[k].rounds && r in net'.nodes[k].rounds
    ensures RoundRecordOk(env, net', net'.nodes[k], r)
  {
    assert net'.nodes[k].rounds[r] == Initial;
    InitialInv(env, r);
  }

  lemma HeightStays(env: Env, net: Net, nl: NetLabel, net': Net, k: Key)
    requires NetStep(env, net, nl, net') && k in net.nodes && nl != FinishRound(k)
    ensures k in net'.nodes && net'.nodes[k].height == net.nodes[k].height
    ensures net'.nodes[k].lastCerts == net.nodes[k].lastCerts
  {
  }

  lemma ChainKept(env: Env, net: Net, nl: NetLabel, net': Net, k: Key)
    requires ValidEnv(env) && NetStep(env, net, nl, net') && k in net.nodes && ChainOk(net.nodes[k])
    requires net.nodes[k].height > 1 ==> RoundRecordOk(env, net, net.nodes[k], net.nodes[k].height - 1)
    ensures k in net'.nodes && ChainOk(net'.nodes[k])
  {
    if nl != FinishRound(k) {
      HeightStays(env, net, nl, net', k);
      if net.nodes[k].height > 1 {
        RecordKept(env, net, nl, net', k, net.nodes[k].height - 1);
      }
    }
  }

  lemma NodeKept(env: Env, net: Net, nl: NetLabel, net': Net, k: Key)
    requires ValidEnv(env) && NetStep(env, net, nl, net') && k in net.nodes && NodeOk(env, net, net.nodes[k])
    ensures k in net'.nodes && NodeOk(env, net', net'.nodes[k])
  {
    ChainKept(env, net, nl, net', k);
    forall r | r in net'.nodes[k].rounds ensures RoundRecordOk(env, net', net'.nodes[k], r) {
      if r in net.nodes[k].rounds {
        RecordKept(env, net, nl, net', k, r);
      } else {
        NewRecordOk(env, net, nl, net', k, r);
      }
    }
  }

  lemma NetStepKeepsInv(env: Env, net: Net, nl: NetLabel, net': Net)
    requires ValidEnv(env) && NetInv(env, net) && NetStep(env, net, nl, net')
    ensures NetInv(env, net') && net'.nodes.Keys == net.nodes.Keys
  {
    assert net'.nodes.Keys == net.nodes.Keys;
    forall k | k in net'.nodes ensures NodeOk(env, net', net'.nodes[k]) {
      NodeKept(env, net, nl, net', k);
    }
    forall g | g in net'.sent ensures NotForged(env, net', g) {
      assert NotForged(env, net, g);
      if g.Sig? && HasSigned(net, g.sig.signer, g.cid) {
        SignaturesStay(env, net, nl, net', g.sig.signer, g.cid);
      }
    }
  }

  lemma {:induction false} NetRunKeepsInv(env: Env, honest: set<Key>, nets: seq<Net>, labels: seq<NetLabel>, i: nat)
    requires ValidEnv(env) && IsNetRun(env, honest, nets, labels) && i < |nets|
    ensures NetInv(env, nets[i]) && nets[i].nodes.Keys == honest
  {
    if i > 0 {
      NetRunKeepsInv(env, honest, nets, labels, i - 1);
      NetStepKeepsInv(env, nets[i - 1], labels[i - 1], nets[i]);
    }
  }

  // ----- The batches behind what is certified -----

  /** What the node certified in any round had all its batches answered for. */
  ghost predicate BatchesOk(env: Env, node: Node) {
    && PoolOk(env.batchHash, node.pool)
    && forall r, m :: r in node.rounds && m in node.rounds[r].certified ==> BatchesKnown(env, node.pool, m.data)
  }

  ghost predicate PoolsOk(env: Env, net: Net) {
    forall k :: k in net.nodes ==> BatchesOk(env, net.nodes[k])
  }

  lemma PoolKept(env: Env, net: Net, nl: NetLabel, net': Net, k: Key)
    requires NetStep(env, net, nl, net') && k in net.nodes && PoolOk(env.batchHash, net.nodes[k].pool)
    ensures k in net'.nodes && PoolOk(env.batchHash, net'.nodes[k].pool)
    ensures net.nodes[k].pool.log <= net'.nodes[k].pool.log
  {
    if nl.UsePool? && nl.k == k { UseKeepsOk(env.batchHash, net.nodes[k].pool, nl.u); }
  }

  /** What is certified had its batches answered for, and stays so. */
  lemma BatchesStayKnown(env: Env, net: Net, nl: NetLabel, net': Net, k: Key, r: nat, m: Message)
    requires NetStep(env, net, nl, net') && k in net.nodes && k in net'.nodes && BatchesOk(env, net.nodes[k])
    requires net.nodes[k].pool.log <= net'.nodes[k].pool.log
    requires r in net'.nodes[k].rounds && m in net'.nodes[k].rounds[r].certified
    requires r in net.nodes[k].rounds ==> r <= net.nodes[k].latest
    ensures BatchesKnown(env, net'.nodes[k].pool, m.data)
  {
    if r in net.nodes[k].rounds {
      RoundEvolves(env, net, nl, net', k, r);
      var s, s' := net.nodes[k].rounds[r], net'.nodes[k].rounds[r];
      if s' != s { StepOnHistory(env, r, s, nl.l, s'); }
    }
    if (env.parse)(m.data).Some? {
      forall h | h in (env.parse)(m.data).value.batches ensures Latest(net'.nodes[k].pool.log, h).Some? {
        LatestStays(net.nodes[k].pool.log, net'.nodes[k].pool.log, h);
      }
    }
  }

  lemma BatchesKept(env: Env, net: Net, nl: NetLabel, net': Net, k: Key)
    requires NetStep(env, net, nl, net') && k in net.nodes && BatchesOk(env, net.nodes[k])
    requires forall r :: r in net.nodes[k].rounds ==> r <= net.nodes[k].latest
    ensures k in net'.nodes && BatchesOk(env, net'.nodes[k])
  {
    PoolKept(env, net, nl, net', k);
    forall r, m | r in net'.nodes[k].rounds && m in net'.nodes[k].rounds[r].certified
      ensures BatchesKnown(env, net'.nodes[k].pool, m.data) {
      BatchesStayKnown(env, net, nl, net', k, r, m);
    }
  }

  lemma NetStepKeepsPools(env: Env, net: Net, nl: NetLabel, net': Net)
    requires NetInv(env, net) && PoolsOk(env, net) && NetStep(env, net, nl, net')
    requires net'.nodes.Keys == net.nodes.Keys
    ensures PoolsOk(env, net')
  {
    forall k | k in net'.nodes ensures BatchesOk(env, net'.nodes[k]) {
      assert BatchesOk(env, net.nodes[k]);
      RoundsUpToLatest(env, net, k);
      BatchesKept(env, net, nl, net', k);
    }
  }

  lemma {:induction false} NetRunKeepsPools(env: Env, honest: set<Key>, nets: seq<Net>, labels: seq<NetLabel>, i: nat)
    requires ValidEnv(env) && IsNetRun(env, honest, nets, labels) && i < |nets|
    ensures PoolsOk(env, nets[i])
  {
    if i > 0 {
      NetRunKeepsPools(env, honest, nets, labels, i - 1);
      RunStepKeepsPools(env, honest, nets, labels, i - 1);
    } else {
      FreshPoolOk(env);
    }
  }

  lemma RunStepKeepsPools(env: Env, honest: set<Key>, nets: seq<Net>, labels: seq<NetLabel>, i: nat)
    requires ValidEnv(env) && IsNetRun(env, honest, nets, labels) && i < |labels| && PoolsOk(env, nets[i])
    ensures PoolsOk(env, nets[i + 1])
  {
    NetRunKeepsInv(env, honest, nets, labels, i);
    NetRunKeepsInv(env, honest, nets, labels, i + 1);
    NetStepKeepsPools(env, nets[i], labels[i], nets[i + 1]);
  }

  lemma RoundsUpToLatest(env: Env, net: Net, k: Key)
    requires NetInv(env, net) && k in net.nodes
    ensures forall r :: r in net.nodes[k].rounds ==> r <= net.nodes[k].latest
  {
    forall r | r in net.nodes[k].rounds ensures r <= net.nodes[k].latest {
      assert RoundRecordOk(env, net, net.nodes[k], r);
    }
  }

  lemma FreshPoolOk(env: Env)
    ensures BatchesOk(env, FreshNode)
  {
  }

  // ----- Signing -----

  /** An honest node signs each hash of each round at most once in a whole run, and always
      still holds the certificate it signed. */
  lemma SignsOnce(env: Env, honest: set<Key>, nets: seq<Net>, labels: seq<NetLabel>, i: nat,
    k: Key, r: nat, a: nat, r': nat, b: nat)
    requires ValidEnv(env) && IsNetRun(env, honest, nets, labels) && i < |nets| && k in nets[i].nodes
    requires r in nets[i].nodes[k].rounds && a < |nets[i].nodes[k].rounds[r].signed|
    requires r' in nets[i].nodes[k].rounds && b < |nets[i].nodes[k].rounds[r'].signed|
    ensures var rounds := nets[i].nodes[k].rounds;
            var x, x' := rounds[r].signed[a].msg, rounds[r'].signed[b].msg;
            && x.id.round == r && Holds(rounds[r].round.quorum, x)
            && (x.id.round == x'.id.round && x.id.hash == x'.id.hash ==> r == r' && a == b)
  {
    NetRunKeepsInv(env, honest, nets, labels, i);
    SignedRound(env, nets[i], k, r, a);
    SignedRound(env, nets[i], k, r', b);
    assert RoundRecordOk(env, nets[i], nets[i].nodes[k], r);
  }

  lemma SignedRound(env: Env, net: Net, k: Key, r: nat, i: nat)
    requires NetInv(env, net) && k in net.nodes
    requires r in net.nodes[k].rounds && i < |net.nodes[k].rounds[r].signed|
    ensures var s := net.nodes[k].rounds[r];
            var x := s.signed[i];
            && SignedOk(env, s, x) && x.msg in s.added && x.msg.id.round == r
            && (env.parse)(x.msg.data).Some? && (env.hash)(x.msg.data) == x.msg.id.hash
            && (exists g :: g in net.sent && g.Data? && g.data == x.msg.data)
  {
    var s := net.nodes[k].rounds[r];
    assert RoundRecordOk(env, net, net.nodes[k], r);
    assert SignedOk(env, s, s.signed[i]);
    assert Delivered(env, r, s, s.signed[i].msg);
  }

  lemma BatchesThere(env: Env, node: Node, r: nat, m: Message)
    requires BatchesOk(env, node) && r in node.rounds && m in node.rounds[r].certified
    ensures (env.parse)(m.data).Some? ==>
              forall h :: h in (env.parse)(m.data).value.batches ==> HasOrRemoved(node.pool, h)
  {
    assert BatchesKnown(env, node.pool, m.data);
    if (env.parse)(m.data).Some? {
      forall h | h in (env.parse)(m.data).value.batches ensures HasOrRemoved(node.pool, h) {
        AnsweredIsKnown(env.batchHash, node.pool, h, 0);
      }
    }
  }

  // ----- Availability -----

  /** Published data with the same hash is the same data. */
  ghost predicate CollisionFree(env: Env, sent: set<Gossip>) {
    forall g, g' :: g in sent && g' in sent && g.Data? && g'.Data? && (env.hash)(g.data) == (env.hash)(g'.data) ==>
      g.data == g'.data
  }

  /** The node checked the hash, added the message, certified it and signed; it holds exactly
      this data under the hash, and each batch the data lists is in its pool or was removed. */
  ghost predicate Attests(env: Env, net: Net, k: Key, r: nat, h: Bytes, data: Bytes) {
    && k in net.nodes && r in net.nodes[k].rounds
    && (env.hash)(data) == h && (env.parse)(data).Some?
    && (forall b :: b in (env.parse)(data).value.batches ==> HasOrRemoved(net.nodes[k].pool, b))
    && var s := net.nodes[k].rounds[r];
    && exists i :: 0 <= i < |s.signed|
         && s.signed[i].msg.id.round == r && s.signed[i].msg.id.hash == h && s.signed[i].msg.data == data
         && s.signed[i].msg in s.added && s.signed[i].msg in s.certified && Holds(s.round.quorum, s.signed[i].msg)
  }

  ghost function Attesters(env: Env, net: Net, r: nat, h: Bytes, data: Bytes): set<Key> {
    set k | k in net.nodes && Attests(env, net, k, r, h, data)
  }

  /** A completed certificate at an honest node. */
  ghost predicate Completed(net: Net, n: Key, r: nat, h: Bytes) {
    && n in net.nodes && r in net.nodes[n].rounds
    && h in net.nodes[n].rounds[r].round.quorum.certs
    && net.nodes[n].rounds[r].round.quorum.certs[h].completed
  }

  ghost function CertAt(net: Net, n: Key, r: nat, h: Bytes): Cert
    requires Completed(net, n, r, h)
  {
    net.nodes[n].rounds[r].round.quorum.certs[h]
  }

  lemma SignerAttests(env: Env, net: Net, n: Key, r: nat, h: Bytes, k: Key)
    requires NetInv(env, net) && PoolsOk(env, net) && CollisionFree(env, net.sent) && Completed(net, n, r, h)
    requires k in net.nodes && k in Signers(CertAt(net, n, r, h).sigs)
    ensures Attests(env, net, k, r, h, CertAt(net, n, r, h).msg.data)
  {
    var s, c := net.nodes[n].rounds[r], CertAt(net, n, r, h);
    assert RoundRecordOk(env, net, net.nodes[n], r);
    assert CertFrom(env, r, s, h, c);
    var g :| g in s.delivered && GoodSig(env, r, g, h) && g.sig.signer == k;
    assert NotForged(env, net, g);
    var r', i :| r' in net.nodes[k].rounds && 0 <= i < |net.nodes[k].rounds[r'].signed|
      && net.nodes[k].rounds[r'].signed[i].cid == g.cid;
    SignedRound(env, net, k, r', i);
    BatchesThere(env, net.nodes[k], r', net.nodes[k].rounds[r'].signed[i].msg);
    assert Delivered(env, r, s, c.msg);
  }

  lemma CompletedIsQuorum(env: Env, net: Net, n: Key, r: nat, h: Bytes)
    requires NetInv(env, net) && Completed(net, n, r, h)
    ensures IsQuorum((env.incs)(r), Signers(CertAt(net, n, r, h).sigs))
    ensures CertAt(net, n, r, h).msg.id.round == r && CertAt(net, n, r, h).msg.id.hash == h
  {
    assert RoundRecordOk(env, net, net.nodes[n], r);
    var s, c := net.nodes[n].rounds[r], CertAt(net, n, r, h);
    assert CertOk((env.incs)(r), c);
    assert CertFrom(env, r, s, h, c);
    assert Delivered(env, r, s, c.msg);
  }

  /** In every run with at most a third of the stake faulty, a certificate completed at any
      honest node has honest attesters of more than a third of the stake, each with the very
      same bytes. */
  lemma CertifiedAvailability(env: Env, honest: set<Key>, nets: seq<Net>, labels: seq<NetLabel>, i: nat,
    n: Key, r: nat, h: Bytes)
    requires ValidEnv(env) && IsNetRun(env, honest, nets, labels) && i < |nets|
    requires FaultBound((env.incs)(r), honest) && CollisionFree(env, nets[i].sent)
    requires Completed(nets[i], n, r, h)
    ensures var data := CertAt(nets[i], n, r, h).msg.data;
            3 * StakeOf((env.incs)(r), Attesters(env, nets[i], r, h, data)) > Total((env.incs)(r))
  {
    var net, incs := nets[i], (env.incs)(r);
    NetRunKeepsInv(env, honest, nets, labels, i);
    NetRunKeepsPools(env, honest, nets, labels, i);
    CompletedIsQuorum(env, net, n, r, h);
    var c := CertAt(net, n, r, h);
    HonestShare(incs, Signers(c.sigs), honest);
    forall k | k in Signers(c.sigs) * honest ensures k in Attesters(env, net, r, h, c.msg.data) {
      SignerAttests(env, net, n, r, h, k);
    }
    StakeOfMonotone(incs, Signers(c.sigs) * honest, Attesters(env, net, r, h, c.msg.data));
  }

  /** Any two certificates completed in the same round, at any honest nodes and at any two
      points of a run, share signers of more than a third of the stake, and an honest node that
      attested both. */
  lemma CertificatesIntersect(env: Env, honest: set<Key>, nets: seq<Net>, labels: seq<NetLabel>,
    i: nat, n: Key, h: Bytes, i': nat, n': Key, h': Bytes, r: nat)
    requires ValidEnv(env) && IsNetRun(env, honest, nets, labels) && i < |nets| && i' < |nets|
    requires FaultBound((env.incs)(r), honest)
    requires CollisionFree(env, nets[i].sent) && CollisionFree(env, nets[i'].sent)
    requires Completed(nets[i], n, r, h) && Completed(nets[i'], n', r, h')
    ensures var c, c' := CertAt(nets[i], n, r, h), CertAt(nets[i'], n', r, h');
            && 3 * StakeOf((env.incs)(r), Signers(c.sigs) * Signers(c'.sigs)) > Total((env.incs)(r))
            && exists k ::
                 k in Attesters(env, nets[i], r, h, c.msg.data) && k in Attesters(env, nets[i'], r, h', c'.msg.data)
  {
    var incs := (env.incs)(r);
    NetRunKeepsInv(env, honest, nets, labels, i);
    NetRunKeepsInv(env, honest, nets, labels, i');
    NetRunKeepsPools(env, honest, nets, labels, i);
    NetRunKeepsPools(env, honest, nets, labels, i');
    CompletedIsQuorum(env, nets[i], n, r, h);
    CompletedIsQuorum(env, nets[i'], n', r, h');
    var c, c' := CertAt(nets[i], n, r, h), CertAt(nets[i'], n', r, h');
    QuorumIntersection(incs, Signers(c.sigs), Signers(c'.sigs));
    HonestIntersection(incs, Signers(c.sigs), Signers(c'.sigs), honest);
    var k :| k in Signers(c.sigs) && k in Signers(c'.sigs) && k in honest;
    SignerAttests(env, nets[i], n, r, h, k);
    SignerAttests(env, nets[i'], n', r, h', k);
    assert k in Attesters(env, nets[i], r, h, c.msg.data) && k in Attesters(env, nets[i'], r, h', c'.msg.data);
  }

  // ----- The chain on top -----

  /** The fault bound in the round below a height. */
  ghost predicate FaultBoundBelow(env: Env, honest: set<Key>, height: nat) {
    height > 0 ==> FaultBound((env.incs)(height - 1), honest)
  }

  lemma CompletedParses(env: Env, net: Net, n: Key, r: nat, h: Bytes)
    requires ValidEnv(env) && NetInv(env, net) && FaultBound((env.incs)(r), net.nodes.Keys)
    requires PoolsOk(env, net) && CollisionFree(env, net.sent) && Completed(net, n, r, h)
    ensures (env.parse)(CertAt(net, n, r, h).msg.data).Some?
  {
    var incs, c := (env.incs)(r), CertAt(net, n, r, h);
    CompletedIsQuorum(env, net, n, r, h);
    HonestIntersection(incs, Signers(c.sigs), Signers(c.sigs), net.nodes.Keys);
    var k :| k in Signers(c.sigs) && k in net.nodes.Keys;
    SignerAttests(env, net, n, r, h, k);
  }

  lemma LastCertIsCompleted(env: Env, net: Net, n: Key, c: Cert) returns (r: nat, h: Bytes)
    requires NetInv(env, net) && n in net.nodes && c in net.nodes[n].lastCerts
    ensures r + 1 == net.nodes[n].height && Completed(net, n, r, h) && CertAt(net, n, r, h) == c
  {
    StartsWithoutCerts(env, net, n);
    r := net.nodes[n].height - 1;
    h := c.msg.id.hash;
    FinishedRound(env, net, r, n);
    ListedAt((env.incs)(r), net.nodes[n].rounds[r].round.quorum, c);
  }

  lemma StartsWithoutCerts(env: Env, net: Net, n: Key)
    requires NetInv(env, net) && n in net.nodes
    ensures net.nodes[n].height >= 1 && (net.nodes[n].height == 1 ==> net.nodes[n].lastCerts == {})
  {
    assert NodeOk(env, net, net.nodes[n]);
  }

  lemma ListedAt(incs: seq<Includer>, q: Quorum, c: Cert)
    requires Valid(incs, q) && c in Listed(q)
    ensures c.msg.id.hash in q.certs && q.certs[c.msg.id.hash] == c && c.completed
  {
  }

  /** The certificates a chain builds on are the completed ones of the round below its height. */
  lemma LastCertsRound(env: Env, honest: set<Key>, nets: seq<Net>, labels: seq<NetLabel>, i: nat, n: Key, c: Cert)
    returns (r: nat, h: Bytes)
    requires ValidEnv(env) && IsNetRun(env, honest, nets, labels) && i < |nets|
    requires n in nets[i].nodes && c in nets[i].nodes[n].lastCerts
    ensures c.msg.id.round == r && r + 1 == nets[i].nodes[n].height
    ensures Completed(nets[i], n, r, h) && CertAt(nets[i], n, r, h) == c
  {
    NetRunKeepsInv(env, honest, nets, labels, i);
    r, h := LastCertIsCompleted(env, nets[i], n, c);
    CompletedIsQuorum(env, nets[i], n, r, h);
  }

  /** A round that is final can be stopped, and then the chain goes on to the next height, building
      on exactly the certificates that completed; nobody else notices. */
  lemma FinalRoundFinishes(env: Env, net: Net, k: Key) returns (closed: Net, next: Net)
    requires k in net.nodes && net.nodes[k].height in net.nodes[k].rounds
    requires net.nodes[k].rounds[net.nodes[k].height].round.final && !net.nodes[k].rounds[net.nodes[k].height].closed
    ensures var r, s := net.nodes[k].height, net.nodes[k].rounds[net.nodes[k].height];
            NetStep(env, net, Handle(k, r, Close, s.(closed := true)), closed)
    ensures NetStep(env, closed, FinishRound(k), next)
    ensures k in next.nodes && next.nodes[k].height == net.nodes[k].height + 1
    ensures var certs := net.nodes[k].rounds[net.nodes[k].height].round.quorum.certs;
            forall c :: c in next.nodes[k].lastCerts <==> exists h :: h in certs && certs[h] == c && c.completed
    ensures next.sent == net.sent && forall x :: x in net.nodes && x != k ==> next.nodes[x] == net.nodes[x]
  {
    var node := net.nodes[k];
    var h := node.height;
    closed := WithState(net, k, h, node.rounds[h].(closed := true));
    var q := closed.nodes[k].rounds[h].round.quorum;
    next := closed.(nodes := closed.nodes[k :=
      closed.nodes[k].(height := h + 1, lastCerts := Listed(q))]);
  }

  lemma RunCompletedParses(env: Env, honest: set<Key>, nets: seq<Net>, labels: seq<NetLabel>, i: nat,
    n: Key, r: nat, h: Bytes)
    requires ValidEnv(env) && IsNetRun(env, honest, nets, labels) && i < |nets|
    requires FaultBound((env.incs)(r), honest) && CollisionFree(env, nets[i].sent) && Completed(nets[i], n, r, h)
    ensures (env.parse)(CertAt(nets[i], n, r, h).msg.data).Some?
  {
    NetRunKeepsInv(env, honest, nets, labels, i);
    NetRunKeepsPools(env, honest, nets, labels, i);
    CompletedParses(env, nets[i], n, r, h);
  }

  /** The certificates a chain builds on carry data that parses, so unmarshalling them never
      panics. */
  lemma LastCertsParse(env: Env, honest: set<Key>, nets: seq<Net>, labels: seq<NetLabel>, i: nat, n: Key, c: Cert)
    requires ValidEnv(env) && IsNetRun(env, honest, nets, labels) && i < |nets|
    requires n in nets[i].nodes && c in nets[i].nodes[n].lastCerts && CollisionFree(env, nets[i].sent)
    requires FaultBoundBelow(env, honest, nets[i].nodes[n].height)
    ensures (env.parse)(c.msg.data).Some?
  {
    var r, h := LastCertsRound(env, honest, nets, labels, i, n, c);
    RunCompletedParses(env, honest, nets, labels, i, n, r, h);
  }

  /** What the parents of a block rest on, when in the round below no producer completed twice
      and nothing completed was deleted. */
  ghost predicate CleanlyFinished(node: Node, r: nat) {
    && node.height == r + 1 && r in node.rounds
    && DistinctProducers(node.rounds[r].round.quorum.events) && node.rounds[r].round.quorum.dropped == []
  }

  /** Then the parents come from different producers that form a quorum, and the parents of any
      two honest blocks of the same height, whenever they are made, share producers of more than
      a third of the stake. */
  lemma ParentQuorum(env: Env, honest: set<Key>, nets: seq<Net>, labels: seq<NetLabel>, r: nat,
    i: nat, n: Key, i': nat, n': Key)
    requires ValidEnv(env) && IsNetRun(env, honest, nets, labels) && i < |nets| && i' < |nets| && r >= 1
    requires n in nets[i].nodes && CleanlyFinished(nets[i].nodes[n], r)
    requires n' in nets[i'].nodes && CleanlyFinished(nets[i'].nodes[n'], r)
    ensures var parents, parents' := nets[i].nodes[n].lastCerts, nets[i'].nodes[n'].lastCerts;
            && IsQuorum((env.incs)(r), Producers(parents))
            && (forall c, d :: c in parents && d in parents && c.msg.id.signer == d.msg.id.signer ==> c == d)
            && (forall c :: c in parents ==> c.msg.id.round == r)
            && 3 * StakeOf((env.incs)(r), Producers(parents) * Producers(parents')) > Total((env.incs)(r))
  {
    NetRunKeepsInv(env, honest, nets, labels, i);
    NetRunKeepsInv(env, honest, nets, labels, i');
    ParentsOfNode(env, nets[i], r, n);
    ParentsOfNode(env, nets[i'], r, n');
    forall c | c in nets[i].nodes[n].lastCerts ensures c.msg.id.round == r {
      var h, k := LastCertsRound(env, honest, nets, labels, i, n, c);
    }
    QuorumIntersection((env.incs)(r), Producers(nets[i].nodes[n].lastCerts), Producers(nets[i'].nodes[n'].lastCerts));
  }

  /** In every run: the parents of an honest block come from producers that are a quorum if and
      only if the stake its round had accumulated beyond the threshold covers what was counted
      again and the producers lost by deletions. */
  lemma ParentQuorumExactly(env: Env, honest: set<Key>, nets: seq<Net>, labels: seq<NetLabel>, i: nat, n: Key, r: nat)
    requires ValidEnv(env) && IsNetRun(env, honest, nets, labels) && i < |nets| && r >= 1
    requires n in nets[i].nodes && nets[i].nodes[n].height == r + 1
    ensures r in nets[i].nodes[n].rounds
    ensures var q := nets[i].nodes[n].rounds[r].round.quorum;
            IsQuorum((env.incs)(r), Producers(nets[i].nodes[n].lastCerts)) <==>
            Surplus((env.incs)(r), q) >= StakeOf((env.incs)(r), Lost(q)) + Repeated((env.incs)(r), q.events)
  {
    NetRunKeepsInv(env, honest, nets, labels, i);
    FinishedRound(env, nets[i], r, n);
    ParentsAreQuorumExactly((env.incs)(r), nets[i].nodes[n].rounds[r].round.quorum);
  }

  lemma FinishedRound(env: Env, net: Net, r: nat, n: Key)
    requires NetInv(env, net) && n in net.nodes && net.nodes[n].height == r + 1 && r >= 1
    ensures Finished(env, net.nodes[n], r)
  {
    NodeFinished(env, net, net.nodes[n], r);
  }

  /** The round below the node's height is final, and the node builds on what it lists. */
  ghost predicate Finished(env: Env, node: Node, r: nat) {
    && r in node.rounds
    && node.lastCerts == Listed(node.rounds[r].round.quorum)
    && Valid((env.incs)(r), node.rounds[r].round.quorum)
    && Finalize((env.incs)(r), node.rounds[r].round.quorum)
  }

  lemma NodeFinished(env: Env, net: Net, node: Node, r: nat)
    requires NodeOk(env, net, node) && node.height == r + 1 && r >= 1
    ensures Finished(env, node, r)
  {
    ChainLink(node, r);
    RecordFinal(env, net, node, r);
  }

  lemma ChainLink(node: Node, r: nat)
    requires ChainOk(node) && node.height == r + 1 && r >= 1
    ensures r in node.rounds && node.rounds[r].closed
    ensures node.lastCerts == Listed(node.rounds[r].round.quorum)
  {
  }

  lemma RecordFinal(env: Env, net: Net, node: Node, r: nat)
    requires r in node.rounds && RoundRecordOk(env, net, node, r)
    ensures Valid((env.incs)(r), node.rounds[r].round.quorum)
    ensures node.rounds[r].closed ==> Finalize((env.incs)(r), node.rounds[r].round.quorum)
  {
    assert RoundOk((env.incs)(r), node.rounds[r].round);
  }

  lemma ParentsOfNode(env: Env, net: Net, r: nat, n: Key)
    requires ValidEnv(env) && NetInv(env, net) && n in net.nodes && CleanlyFinished(net.nodes[n], r) && r >= 1
    ensures var parents := net.nodes[n].lastCerts;
            && IsQuorum((env.incs)(r), Producers(parents))
            && (forall c, d :: c in parents && d in parents && c.msg.id.signer == d.msg.id.signer ==> c == d)
  {
    FinishedRound(env, net, r, n);
    ParentsAreQuorum((env.incs)(r), net.nodes[n].rounds[r].round.quorum);
  }
}
