/** Totality between the nodes of a network run: each node's round, taken by itself, is a run of
    `NodeRound`, so what `Delivery` says about settled rounds holds for it. */
module NetworkTotality {
  import opened Stake
  import opened QuorumSpec
  import opened NodeRound
  import opened Delivery
  import opened Finality
  import opened Network

  /** Up to step `i`, node `k` deleted nothing and canceled nothing in round `r`. */
  ghost predicate CleanAt(labels: seq<NetLabel>, i: nat, k: Key, r: nat)
    requires i <= |labels|
  {
    forall j :: 0 <= j < i && labels[j].Handle? && labels[j].k == k && labels[j].r == r ==> Clean(labels[j].l)
  }

  lemma {:induction false} LocalRun(env: Env, honest: set<Key>, nets: seq<Net>, labels: seq<NetLabel>, i: nat,
    k: Key, r: nat) returns (states: seq<State>, steps: seq<Label>)
    requires ValidEnv(env) && IsNetRun(env, honest, nets, labels) && i < |nets|
    requires k in nets[i].nodes && r in nets[i].nodes[k].rounds
    ensures IsRun(env, r, states, steps) && states[|steps|] == nets[i].nodes[k].rounds[r]
    ensures CleanAt(labels, i, k, r) ==> IsCleanRun(env, r, states, steps)
  {
    states, steps := [Initial], [];
    if i > 0 {
      assert NetStep(env, nets[i - 1], labels[i - 1], nets[i]);
      if k in nets[i - 1].nodes && r in nets[i - 1].nodes[k].rounds {
        states, steps := LocalRun(env, honest, nets, labels, i - 1, k, r);
        RoundNumbered(env, honest, nets, labels, i - 1, k, r);
        states, steps := LocalStep(env, nets[i - 1], labels[i - 1], nets[i], k, r, states, steps);
      } else {
        StartsInitial(env, nets[i - 1], labels[i - 1], nets[i], k, r);
      }
    }
  }

  lemma RoundNumbered(env: Env, honest: set<Key>, nets: seq<Net>, labels: seq<NetLabel>, i: nat, k: Key, r: nat)
    requires ValidEnv(env) && IsNetRun(env, honest, nets, labels) && i < |nets|
    requires k in nets[i].nodes && r in nets[i].nodes[k].rounds
    ensures r <= nets[i].nodes[k].latest
  {
    NetRunKeepsInv(env, honest, nets, labels, i);
    RoundsUpToLatest(env, nets[i], k);
  }

  lemma StartsInitial(env: Env, net: Net, nl: NetLabel, net': Net, k: Key, r: nat)
    requires NetStep(env, net, nl, net') && k in net'.nodes && r in net'.nodes[k].rounds
    requires !(k in net.nodes && r in net.nodes[k].rounds)
    ensures net'.nodes[k].rounds[r] == Initial
  {
  }

  lemma LocalStep(env: Env, net: Net, nl: NetLabel, net': Net, k: Key, r: nat,
    states: seq<State>, steps: seq<Label>) returns (states': seq<State>, steps': seq<Label>)
    requires NetStep(env, net, nl, net') && k in net.nodes && r in net.nodes[k].rounds && r <= net.nodes[k].latest
    requires IsRun(env, r, states, steps) && states[|steps|] == net.nodes[k].rounds[r]
    ensures k in net'.nodes && r in net'.nodes[k].rounds
    ensures IsRun(env, r, states', steps') && states'[|steps'|] == net'.nodes[k].rounds[r]
    ensures IsCleanRun(env, r, states, steps) && (nl.Handle? && nl.k == k && nl.r == r ==> Clean(nl.l)) ==>
              IsCleanRun(env, r, states', steps')
  {
    RoundEvolves(env, net, nl, net', k, r);
    var s' := net'.nodes[k].rounds[r];
    states', steps' := states, steps;
    if s' != net.nodes[k].rounds[r] {
      ExtendRun(env, r, states, steps, nl.l, s');
      states', steps' := states + [s'], steps + [nl.l];
    }
  }

  /** In a network run: every honest node that was delivered for a round at least the gossip that
      another was, deleted and canceled nothing in it, and has nothing left to do, has completed
      all that the other ever completed, whatever else was published; it is final if the other's
      gossip carries the threshold for good, and while messages do not share hashes, if what the
      other completed, each counted once, or what its gossip supports, carries the threshold. */
  lemma NetworkIsTotal(env: Env, honest: set<Key>, nets: seq<Net>, labels: seq<NetLabel>, i: nat, i': nat,
    k: Key, k': Key, r: nat)
    requires ValidEnv(env) && IsNetRun(env, honest, nets, labels) && i < |nets| && i' < |nets|
    requires k in nets[i].nodes && r in nets[i].nodes[k].rounds
    requires k' in nets[i'].nodes && r in nets[i'].nodes[k'].rounds
    requires nets[i].nodes[k].rounds[r].delivered <= nets[i'].nodes[k'].rounds[r].delivered
    requires CleanAt(labels, i', k', r) && Quiescent(nets[i'].nodes[k'].rounds[r])
    ensures var a, b := nets[i].nodes[k].rounds[r], nets[i'].nodes[k'].rounds[r];
            && (forall e :: e in a.round.quorum.events ==> CompletedAt(b, e.hash))
            && (CarriesForGood(env, r, a.delivered) ==> b.round.final)
            && (ConflictFree(env, r, b.delivered) ==>
                  && (forall e :: e in a.round.quorum.events ==> Held(b.round.quorum, e) == 1)
                  && (CountedOnceCarries(env, r, a) || Carries(env, r, a.delivered) ==> b.round.final))
  {
    var states, steps := LocalRun(env, honest, nets, labels, i, k, r);
    var states', steps' := LocalRun(env, honest, nets, labels, i', k', r);
    var b := nets[i'].nodes[k'].rounds[r];
    assert Reaches(env, r, b);
    Totality(env, r, states, steps, |steps|, b);
    assert Settles(env, r, b.delivered, b);
    if ConflictFree(env, r, b.delivered) {
      FewerConflictFree(env, r, states[|steps|].delivered, b.delivered);
      TotalityExact(env, r, states[|steps|].delivered);
    }
  }
}
