/** Which certificates and which finalization a node can count on, given the gossip that it or
    another node was delivered. */
module Finality {
  import opened Stake
  import opened QuorumSpec
  import opened RoundSpec
  import opened NodeRound
  import opened Delivery

  // ----- Completions, each counted once -----

  /** The stake of the producers of some completions. */
  ghost function OnceSum(incs: seq<Includer>, es: set<Event>): int {
    if es == {} then 0
    else
      var e :| e in es;
      StakeFor(incs, e.producer) + OnceSum(incs, es - {e})
  }

  lemma {:induction false} OnceSumRemove(incs: seq<Includer>, es: set<Event>, e: Event)
    requires e in es
    ensures OnceSum(incs, es) == StakeFor(incs, e.producer) + OnceSum(incs, es - {e})
    decreases |es|
  {
    var x :| x in es && OnceSum(incs, es) == StakeFor(incs, x.producer) + OnceSum(incs, es - {x});
    if x != e {
      OnceSumRemove(incs, es - {x}, e);
      OnceSumRemove(incs, es - {e}, x);
      assert es - {x} - {e} == es - {e} - {x};
    }
  }

  lemma {:induction false} OnceSumMonotone(incs: seq<Includer>, a: set<Event>, b: set<Event>)
    requires NonNegative(incs) && a <= b
    ensures OnceSum(incs, a) <= OnceSum(incs, b)
    decreases |b|
  {
    if e :| e in b {
      OnceSumRemove(incs, b, e);
      StakeForNonNegative(incs, e.producer);
      OnceSumMonotone(incs, a - {e}, b - {e});
      if e in a { OnceSumRemove(incs, a, e); } else { assert a - {e} == a; }
    }
  }

  /** A history that lists completions once each weighs what they weigh. */
  lemma {:induction false} ListedOnceSum(incs: seq<Includer>, events: seq<Event>, es: set<Event>)
    requires forall e :: multiset(events)[e] == if e in es then 1 else 0
    ensures EventSum(incs, events) == OnceSum(incs, es)
  {
    if events == [] {
      assert forall e :: e in es ==> e in multiset(events);
      assert es == {};
    } else {
      var n := |events| - 1;
      var last := events[n];
      assert events == events[..n] + [last];
      assert multiset(events)[last] >= 1;
      forall e ensures multiset(events[..n])[e] == if e in es - {last} then 1 else 0 {
        assert multiset(events)[e] == if e in es then 1 else 0;
      }
      ListedOnceSum(incs, events[..n], es - {last});
      OnceSumRemove(incs, es, last);
    }
  }

  /** The completions that the delivered gossip supports: an addable message, and signatures of
      a quorum on its hash. */
  ghost function CompletedBy(env: Env, r: nat, d: set<Gossip>): set<Event> {
    set g | g in d && Addable(env, r, g) && IsQuorum((env.incs)(r), SigKeys(env, r, d, IdOf(env, g).value.hash)) ::
      Event(IdOf(env, g).value.hash, IdOf(env, g).value.signer)
  }

  /** The producers of these carry the threshold. */
  ghost predicate Carries(env: Env, r: nat, d: set<Gossip>) {
    OnceSum((env.incs)(r), CompletedBy(env, r, d)) >= Required(Total((env.incs)(r)))
  }

  lemma CompletedByGrows(env: Env, r: nat, d: set<Gossip>, d': set<Gossip>)
    requires ValidSet((env.incs)(r)) && d <= d'
    ensures CompletedBy(env, r, d) <= CompletedBy(env, r, d')
    ensures Carries(env, r, d) ==> Carries(env, r, d')
  {
    var incs := (env.incs)(r);
    forall e | e in CompletedBy(env, r, d) ensures e in CompletedBy(env, r, d') {
      SigKeysGrow(env, r, d, d', e.hash);
      StakeOfMonotone(incs, SigKeys(env, r, d, e.hash), SigKeys(env, r, d', e.hash));
    }
    OnceSumMonotone(incs, CompletedBy(env, r, d), CompletedBy(env, r, d'));
  }

  /** What a node completed, in any run, its gossip supports. */
  lemma CompletionsSupported(env: Env, r: nat, s: State, e: Event)
    requires Inv(env, r, s) && e in s.round.quorum.events
    ensures e in CompletedBy(env, r, s.delivered)
  {
    assert Backed(env, r, s, e);
    var m :| m in s.added && m.id.hash == e.hash && m.id.signer == e.producer;
    assert Delivered(env, r, s, m);
  }

  /** A settled clean round has completed exactly what its gossip supports, once each, and is
      final exactly when that carries the threshold. */
  lemma SettledCompletes(env: Env, r: nat, s: State)
    requires ValidSet((env.incs)(r)) && Settles(env, r, s.delivered, s) && ConflictFree(env, r, s.delivered)
    ensures forall e :: e in CompletedBy(env, r, s.delivered) <==> Held(s.round.quorum, e) == 1
    ensures s.round.final <==> Carries(env, r, s.delivered)
  {
    var incs, q, d := (env.incs)(r), s.round.quorum, s.delivered;
    SettlesCanonical(env, r, d, s);
    forall e ensures e in CompletedBy(env, r, d) <==> Held(q, e) == 1 {
      HeldIsSupported(env, r, d, s.round, e);
    }
    ListedOnceSum(incs, q.events, CompletedBy(env, r, d));
    RequiredBounds(incs);
  }

  lemma HeldIsSupported(env: Env, r: nat, d: set<Gossip>, rd: Round, e: Event)
    requires Canonical(env, r, d, rd) && ConflictFree(env, r, d)
    ensures e in CompletedBy(env, r, d) <==> Held(rd.quorum, e) == 1
  {
    if e in CompletedBy(env, r, d) {
      var g :| g in d && Addable(env, r, g) && Event(IdOf(env, g).value.hash, IdOf(env, g).value.signer) == e;
      assert Offers(env, r, d, MessageOf(env, g));
    }
    if e.hash in rd.quorum.certs {
      assert CanonicalCert(env, r, d, e.hash, rd.quorum.certs[e.hash]);
    }
  }

  // ----- When the same data is offered under several ids -----

  /** The hashes with an addable message and signatures of a quorum. */
  ghost function QuorumHashes(env: Env, r: nat, d: set<Gossip>): set<Bytes> {
    set g | g in d && Addable(env, r, g) && IsQuorum((env.incs)(r), SigKeys(env, r, d, IdOf(env, g).value.hash)) ::
      IdOf(env, g).value.hash
  }

  /** The producers under whose ids a hash is offered. */
  ghost function Offerers(env: Env, r: nat, d: set<Gossip>, h: Bytes): set<Key> {
    set g | g in d && Addable(env, r, g) && IdOf(env, g).value.hash == h :: IdOf(env, g).value.signer
  }

  /** One completion for each hash, by the producer chosen for it. */
  function Completions(m: map<Bytes, Key>): set<Event> {
    set h | h in m :: Event(h, m[h])
  }

  /** A producer for each hash that can complete, among those that offer it. */
  ghost predicate IsChoice(env: Env, r: nat, d: set<Gossip>, m: map<Bytes, Key>) {
    m.Keys == QuorumHashes(env, r, d) && forall h :: h in m ==> m[h] in Offerers(env, r, d, h)
  }

  ghost predicate ChoiceCarries(env: Env, r: nat, m: map<Bytes, Key>) {
    OnceSum((env.incs)(r), Completions(m)) >= Required(Total((env.incs)(r)))
  }

  lemma CompletionsWithout(m: map<Bytes, Key>, h: Bytes)
    requires h in m
    ensures Completions(m) - {Event(h, m[h])} == Completions(m - {h})
  {
    forall e ensures e in Completions(m) - {Event(h, m[h])} <==> e in Completions(m - {h}) {
      assert e.hash in m - {h} ==> (m - {h})[e.hash] == m[e.hash];
    }
  }

  lemma {:induction false} CheaperWeighsLess(incs: seq<Includer>, m: map<Bytes, Key>, m': map<Bytes, Key>)
    requires m.Keys == m'.Keys && forall h :: h in m ==> StakeFor(incs, m[h]) <= StakeFor(incs, m'[h])
    ensures OnceSum(incs, Completions(m)) <= OnceSum(incs, Completions(m'))
    decreases |m|
  {
    if h :| h in m {
      OnceSumRemove(incs, Completions(m), Event(h, m[h]));
      OnceSumRemove(incs, Completions(m'), Event(h, m'[h]));
      CompletionsWithout(m, h);
      CompletionsWithout(m', h);
      CheaperWeighsLess(incs, m - {h}, m' - {h});
    } else {
      assert Completions(m) == {};
      assert m' == map[];
      assert Completions(m') == {};
    }
  }

  /** So it does if the other has more hashes besides. */
  lemma CheaperAndFewer(incs: seq<Includer>, m: map<Bytes, Key>, m': map<Bytes, Key>)
    requires NonNegative(incs) && m.Keys <= m'.Keys
    requires forall h :: h in m ==> StakeFor(incs, m[h]) <= StakeFor(incs, m'[h])
    ensures OnceSum(incs, Completions(m)) <= OnceSum(incs, Completions(m'))
  {
    var part := map h | h in m :: m'[h];
    CheaperWeighsLess(incs, m, part);
    OnceSumMonotone(incs, Completions(part), Completions(m'));
  }

  lemma QuorumHashCompleted(env: Env, r: nat, d: set<Gossip>, rd: Round, h: Bytes)
    requires Canonical(env, r, d, rd)
    ensures h in QuorumHashes(env, r, d) <==> h in rd.quorum.certs && rd.quorum.certs[h].completed
    ensures h in rd.quorum.certs ==> rd.quorum.certs[h].msg.id.hash == h
    ensures h in rd.quorum.certs ==> rd.quorum.certs[h].msg.id.signer in Offerers(env, r, d, h)
  {
    if h in QuorumHashes(env, r, d) {
      var g :| g in d && Addable(env, r, g) && IdOf(env, g).value.hash == h;
      assert Offers(env, r, d, MessageOf(env, g));
    }
    if h in rd.quorum.certs {
      assert CanonicalCert(env, r, d, h, rd.quorum.certs[h]);
      var g :| g in d && Addable(env, r, g) && MessageOf(env, g) == rd.quorum.certs[h].msg;
    }
  }

  /** The producers of the completed certificates. */
  function CompletedProducers(q: Quorum): map<Bytes, Key> {
    map h | h in q.certs && q.certs[h].completed :: q.certs[h].msg.id.signer
  }

  /** A settled clean round has made one choice, and is final exactly when that carries the threshold. */
  lemma SettledChoice(env: Env, r: nat, s: State)
    requires ValidSet((env.incs)(r)) && Settles(env, r, s.delivered, s)
    ensures IsChoice(env, r, s.delivered, CompletedProducers(s.round.quorum))
    ensures s.round.final <==> ChoiceCarries(env, r, CompletedProducers(s.round.quorum))
  {
    var incs, d, q := (env.incs)(r), s.delivered, s.round.quorum;
    var m := CompletedProducers(q);
    SettlesCanonical(env, r, d, s);
    forall h ensures h in m <==> h in QuorumHashes(env, r, d)
      ensures h in m ==> m[h] in Offerers(env, r, d, h) && q.certs[h].msg.id.hash == h {
      QuorumHashCompleted(env, r, d, s.round, h);
    }
    forall e ensures multiset(q.events)[e] == if e in Completions(m) then 1 else 0 {
      assert multiset(q.events)[e] == Held(q, e);
    }
    ListedOnceSum(incs, q.events, Completions(m));
    RequiredBounds(incs);
  }

  ghost function Offer(env: Env, r: nat, d: set<Gossip>, h: Bytes, k: Key): (g: Gossip)
    requires k in Offerers(env, r, d, h)
    ensures g in d && Addable(env, r, g) && IdOf(env, g).value.hash == h && IdOf(env, g).value.signer == k
  {
    var g :| g in d && Addable(env, r, g) && IdOf(env, g).value.hash == h && IdOf(env, g).value.signer == k;
    g
  }

  ghost predicate OneOfEach(env: Env, r: nat, c: set<Gossip>) {
    forall g, g' :: g in c && g' in c && SameHash(env, r, g, g') ==> g == g'
  }

  predicate SameHash(env: Env, r: nat, g: Gossip, g': Gossip) {
    Addable(env, r, g) && Addable(env, r, g') && IdOf(env, g).value.hash == IdOf(env, g').value.hash
  }

  /** Delivering messages with different hashes holds each of them. */
  lemma DeliveredAreHeld(env: Env, r: nat, c: set<Gossip>) returns (s: State)
    requires ValidSet((env.incs)(r))
    requires OneOfEach(env, r, c)
    ensures Reaches(env, r, s) && !s.closed && s.delivered == c
    ensures forall g :: g in c && Addable(env, r, g) ==> Holds(s.round.quorum, MessageOf(env, g))
  {
    assert IsCleanRun(env, r, [Initial], []) && [Initial][0] == Initial;
    s := DeliverAll(env, r, Initial, c);
    assert s.delivered == c;
    var states, labels :| IsCleanRun(env, r, states, labels) && states[|labels|] == s;
    CleanRunInv(env, r, states, labels, |labels|);
    forall g | g in c && Addable(env, r, g) ensures Holds(s.round.quorum, MessageOf(env, g)) {
      var h := IdOf(env, g).value.hash;
      assert CertFrom(env, r, s, h, s.round.quorum.certs[h]);
      assert Delivered(env, r, s, s.round.quorum.certs[h].msg);
    }
  }

  ghost function FirstOffers(env: Env, r: nat, d: set<Gossip>, m: map<Bytes, Key>): (first: set<Gossip>)
    requires forall h :: h in m ==> m[h] in Offerers(env, r, d, h)
    ensures first <= d && OneOfEach(env, r, first)
  {
    set h | h in m :: Offer(env, r, d, h, m[h])
  }

  /** Every choice is made by some order of delivery. */
  lemma AnyChoiceSettles(env: Env, r: nat, d: set<Gossip>, m: map<Bytes, Key>) returns (s: State)
    requires ValidSet((env.incs)(r)) && IsChoice(env, r, d, m)
    ensures Settles(env, r, d, s) && s.delivered == d && CompletedProducers(s.round.quorum) == m
  {
    var first := FirstOffers(env, r, d, m);
    var s1 := DeliveredAreHeld(env, r, first);
    var s2 := DeliverAll(env, r, s1, d);
    s := Settle(env, r, s2);
    assert s.delivered == d;
    SettledChoice(env, r, s);
    forall h | h in m ensures s.round.quorum.certs[h].msg.id.signer == m[h] {
      var g := Offer(env, r, d, h, m[h]);
      assert g in first && Holds(s1.round.quorum, MessageOf(env, g));
    }
  }

  /** A member of least stake. */
  ghost function Cheapest(incs: seq<Includer>, ks: set<Key>): (k: Key)
    ensures ks != {} ==> k in ks && forall x :: x in ks ==> StakeFor(incs, k) <= StakeFor(incs, x)
  {
    if ks == {} then []
    else
      var x :| x in ks;
      var rest := Cheapest(incs, ks - {x});
      if ks == {x} || StakeFor(incs, x) <= StakeFor(incs, rest) then x else rest
  }

  ghost function LeastChoice(env: Env, r: nat, d: set<Gossip>): map<Bytes, Key> {
    map h | h in QuorumHashes(env, r, d) :: Cheapest((env.incs)(r), Offerers(env, r, d, h))
  }

  lemma QuorumHashOffered(env: Env, r: nat, d: set<Gossip>, h: Bytes)
    requires h in QuorumHashes(env, r, d)
    ensures Offerers(env, r, d, h) != {}
  {
    var g :| g in d && Addable(env, r, g) && IdOf(env, g).value.hash == h;
    assert IdOf(env, g).value.signer in Offerers(env, r, d, h);
  }

  /** For exactly some gossip: all orders of delivery settle with the round final if and only if
      the least stakes of those who offer each completed hash carry the threshold. */
  lemma FinalizationForced(env: Env, r: nat, d: set<Gossip>)
    requires ValidSet((env.incs)(r))
    ensures (forall s :: Settles(env, r, d, s) ==> s.round.final) <==> ChoiceCarries(env, r, LeastChoice(env, r, d))
  {
    var least := LeastChoice(env, r, d);
    forall h | h in least ensures least[h] in Offerers(env, r, d, h) {
      QuorumHashOffered(env, r, d, h);
    }
    if ChoiceCarries(env, r, least) {
      forall s | Settles(env, r, d, s) ensures s.round.final {
        SettledChoice(env, r, s);
        CheaperWeighsLess((env.incs)(r), least, CompletedProducers(s.round.quorum));
      }
    } else {
      var s := AnyChoiceSettles(env, r, d, least);
      SettledChoice(env, r, s);
    }
  }

  // ----- Whatever else is published -----

  /** Gossip that offers a hash under this includer's id can be made. */
  ghost predicate CanName(env: Env, r: nat, h: Bytes, k: Key) {
    exists g :: Addable(env, r, g) && IdOf(env, g).value.hash == h && IdOf(env, g).value.signer == k
  }

  ghost function Nameable(env: Env, r: nat, h: Bytes): set<Key> {
    set i | 0 <= i < |(env.incs)(r)| && CanName(env, r, h, (env.incs)(r)[i].key) :: (env.incs)(r)[i].key
  }

  ghost function LeastEver(env: Env, r: nat, d: set<Gossip>): map<Bytes, Key> {
    map h | h in QuorumHashes(env, r, d) :: Cheapest((env.incs)(r), Nameable(env, r, h))
  }

  /** The least stakes of those under whose ids the completed hashes could be offered carry the
      threshold. */
  ghost predicate CarriesForGood(env: Env, r: nat, d: set<Gossip>) {
    ChoiceCarries(env, r, LeastEver(env, r, d))
  }

  lemma OfferersAreNameable(env: Env, r: nat, d: set<Gossip>, h: Bytes)
    ensures Offerers(env, r, d, h) <= Nameable(env, r, h)
  {
    forall k | k in Offerers(env, r, d, h) ensures k in Nameable(env, r, h) {
      var g := Offer(env, r, d, h, k);
      LookupFound((env.incs)(r), k);
      assert CanName(env, r, h, k);
    }
  }

  lemma QuorumHashesGrow(env: Env, r: nat, d: set<Gossip>, d': set<Gossip>)
    requires ValidSet((env.incs)(r)) && d <= d'
    ensures QuorumHashes(env, r, d) <= QuorumHashes(env, r, d')
  {
    forall h | h in QuorumHashes(env, r, d) ensures h in QuorumHashes(env, r, d') {
      SigKeysGrow(env, r, d, d', h);
      StakeOfMonotone((env.incs)(r), SigKeys(env, r, d, h), SigKeys(env, r, d', h));
    }
  }

  ghost function Named(env: Env, r: nat, h: Bytes, k: Key): (g: Gossip)
    requires CanName(env, r, h, k)
    ensures Addable(env, r, g) && IdOf(env, g).value.hash == h && IdOf(env, g).value.signer == k
  {
    var g :| Addable(env, r, g) && IdOf(env, g).value.hash == h && IdOf(env, g).value.signer == k;
    g
  }

  /** More offers of hashes that complete anyway complete nothing else. */
  lemma OffersCompleteNothing(env: Env, r: nat, d: set<Gossip>, more: set<Gossip>)
    requires forall g :: g in more ==> Addable(env, r, g) && IdOf(env, g).value.hash in QuorumHashes(env, r, d)
    ensures QuorumHashes(env, r, d + more) == QuorumHashes(env, r, d)
  {
    forall h ensures SigKeys(env, r, d + more, h) == SigKeys(env, r, d, h) {}
  }

  /** For a node's gossip: every clean node that settles with at least that much is final,
      whatever else is published, if and only if the threshold is carried even by the least
      stakes under which the completed hashes could be offered. */
  lemma FinalizationForcedForGood(env: Env, r: nat, d: set<Gossip>)
    requires ValidSet((env.incs)(r))
    ensures (forall b: State :: Settles(env, r, b.delivered, b) && d <= b.delivered ==> b.round.final) <==>
            CarriesForGood(env, r, d)
  {
    if CarriesForGood(env, r, d) {
      forall b: State | Settles(env, r, b.delivered, b) && d <= b.delivered ensures b.round.final {
        ForGoodIsFinal(env, r, d, b);
      }
    } else {
      var b := UndercutSettles(env, r, d);
      SettledChoice(env, r, b);
    }
  }

  lemma ForGoodIsFinal(env: Env, r: nat, d: set<Gossip>, b: State)
    requires ValidSet((env.incs)(r)) && Settles(env, r, b.delivered, b) && d <= b.delivered && CarriesForGood(env, r, d)
    ensures b.round.final
  {
    var incs, least, m := (env.incs)(r), LeastEver(env, r, d), CompletedProducers(b.round.quorum);
    SettledChoice(env, r, b);
    QuorumHashesGrow(env, r, d, b.delivered);
    forall h | h in least ensures h in m && StakeFor(incs, least[h]) <= StakeFor(incs, m[h]) {
      OfferersAreNameable(env, r, b.delivered, h);
    }
    CheaperAndFewer(incs, least, m);
  }

  /** The least choice can be forced on a node by gossip under other ids. */
  lemma UndercutSettles(env: Env, r: nat, d: set<Gossip>) returns (b: State)
    requires ValidSet((env.incs)(r))
    ensures Settles(env, r, b.delivered, b) && d <= b.delivered
    ensures CompletedProducers(b.round.quorum) == LeastEver(env, r, d)
  {
    var least := LeastEver(env, r, d);
    forall h | h in least ensures CanName(env, r, h, least[h]) {
      QuorumHashOffered(env, r, d, h);
      OfferersAreNameable(env, r, d, h);
      assert least[h] in Nameable(env, r, h);
    }
    var more := set h | h in least :: Named(env, r, h, least[h]);
    OffersCompleteNothing(env, r, d, more);
    forall h | h in least ensures least[h] in Offerers(env, r, d + more, h) {
      assert Named(env, r, h, least[h]) in d + more;
    }
    b := AnyChoiceSettles(env, r, d + more, least);
  }

  // ----- Totality -----

  /** Whatever a node completed at any point of any run, deletions and cancellations included, a
      settled clean node that got at least its gossip has completed too, whatever else it got.
      If no two of its addable messages share a hash, it holds just these completions, and is
      final if they, each counted once, carry the threshold; and it is final in any case if the
      first node's gossip carries the threshold for good. */
  lemma Totality(env: Env, r: nat, states: seq<State>, labels: seq<Label>, i: nat, b: State)
    requires ValidSet((env.incs)(r)) && IsRun(env, r, states, labels) && i < |states|
    requires Settles(env, r, b.delivered, b) && states[i].delivered <= b.delivered
    ensures forall e :: e in states[i].round.quorum.events ==> CompletedAt(b, e.hash)
    ensures ConflictFree(env, r, b.delivered) ==>
              && (forall e :: e in states[i].round.quorum.events ==> Held(b.round.quorum, e) == 1)
              && (CountedOnceCarries(env, r, states[i]) ==> b.round.final)
    ensures CarriesForGood(env, r, states[i].delivered) ==> b.round.final
  {
    RunKeepsInv(env, r, states, labels, i);
    SettlesCanonical(env, r, b.delivered, b);
    CompletedByGrows(env, r, states[i].delivered, b.delivered);
    QuorumHashesGrow(env, r, states[i].delivered, b.delivered);
    forall e | e in states[i].round.quorum.events
      ensures e in CompletedBy(env, r, b.delivered) && CompletedAt(b, e.hash) {
      CompletionsSupported(env, r, states[i], e);
      QuorumHashCompleted(env, r, b.delivered, b.round, e.hash);
    }
    if ConflictFree(env, r, b.delivered) {
      SettledCompletes(env, r, b);
      var es := set e | e in states[i].round.quorum.events;
      OnceSumMonotone((env.incs)(r), es, CompletedBy(env, r, b.delivered));
    }
    if CarriesForGood(env, r, states[i].delivered) { ForGoodIsFinal(env, r, states[i].delivered, b); }
  }

  /** The node holds a completed certificate for the hash. */
  predicate CompletedAt(s: State, h: Bytes) {
    h in s.round.quorum.certs && s.round.quorum.certs[h].completed
  }

  /** What the node completed carries the threshold, each completion counted once. */
  ghost predicate CountedOnceCarries(env: Env, r: nat, s: State) {
    OnceSum((env.incs)(r), set e | e in s.round.quorum.events) >= Required(Total((env.incs)(r)))
  }

  /** For the gossip delivered to a node: every settled clean node that gets at least as much is
      final if and only if the messages with signatures of a quorum carry the threshold, as long
      as messages do not share hashes. */
  lemma TotalityExact(env: Env, r: nat, d: set<Gossip>)
    requires ValidSet((env.incs)(r)) && ConflictFree(env, r, d)
    ensures (forall b: State :: Settles(env, r, b.delivered, b) && d <= b.delivered && ConflictFree(env, r, b.delivered) ==>
              b.round.final) <==> Carries(env, r, d)
  {
    if Carries(env, r, d) {
      forall b: State | Settles(env, r, b.delivered, b) && d <= b.delivered && ConflictFree(env, r, b.delivered)
        ensures b.round.final {
        SettledCompletes(env, r, b);
        CompletedByGrows(env, r, d, b.delivered);
      }
    } else {
      var b := SettleAll(env, r, d);
      SettledCompletes(env, r, b);
    }
  }

  lemma SettleAll(env: Env, r: nat, d: set<Gossip>) returns (s: State)
    requires ValidSet((env.incs)(r))
    ensures Settles(env, r, d, s) && s.delivered == d
  {
    assert IsCleanRun(env, r, [Initial], []) && [Initial][0] == Initial;
    var all := DeliverAll(env, r, Initial, d);
    s := Settle(env, r, all);
    assert s.delivered == d;
  }

  /** Completions only grow with the set of gossip delivered, whatever it is; finalization does
      while no two addable messages share a hash. */
  lemma MonotoneInGossip(env: Env, r: nat, a: State, b: State)
    requires ValidSet((env.incs)(r)) && Settles(env, r, a.delivered, a) && Settles(env, r, b.delivered, b)
    requires a.delivered <= b.delivered
    ensures forall h :: CompletedAt(a, h) ==> CompletedAt(b, h)
    ensures ConflictFree(env, r, b.delivered) && a.round.final ==> b.round.final
  {
    SettlesCanonical(env, r, a.delivered, a);
    SettlesCanonical(env, r, b.delivered, b);
    QuorumHashesGrow(env, r, a.delivered, b.delivered);
    forall h | CompletedAt(a, h) ensures CompletedAt(b, h) {
      QuorumHashCompleted(env, r, a.delivered, a.round, h);
      QuorumHashCompleted(env, r, b.delivered, b.round, h);
    }
    if ConflictFree(env, r, b.delivered) {
      FewerConflictFree(env, r, a.delivered, b.delivered);
      SettledCompletes(env, r, a);
      SettledCompletes(env, r, b);
      CompletedByGrows(env, r, a.delivered, b.delivered);
    }
  }

  lemma FewerConflictFree(env: Env, r: nat, d: set<Gossip>, d': set<Gossip>)
    requires d <= d' && ConflictFree(env, r, d')
    ensures ConflictFree(env, r, d)
  {
    forall m, m' | Offers(env, r, d, m) && Offers(env, r, d, m') && m.id.hash == m'.id.hash ensures m == m' {
      assert Offers(env, r, d', m) && Offers(env, r, d', m');
    }
  }

  // ----- When counting once is counting all -----

  ghost predicate DistinctHashes(events: seq<Event>) {
    forall i, j :: 0 <= i < j < |events| ==> events[i].hash != events[j].hash
  }

  lemma {:induction false} DistinctOnce(events: seq<Event>, e: Event)
    requires DistinctHashes(events)
    ensures multiset(events)[e] == if e in events then 1 else 0
  {
    if events != [] {
      var n := |events| - 1;
      DistinctOnce(events[..n], e);
      assert events == events[..n] + [events[n]];
      assert events[n] == e ==> e !in events[..n];
    }
  }

  lemma DistinctSum(incs: seq<Includer>, events: seq<Event>)
    requires DistinctHashes(events)
    ensures OnceSum(incs, set e | e in events) == EventSum(incs, events)
  {
    forall e ensures multiset(events)[e] == if e in (set x | x in events) then 1 else 0 {
      DistinctOnce(events, e);
    }
    ListedOnceSum(incs, events, set e | e in events);
  }

  /** A final round in which no hash completed twice carries the threshold on what it completed,
      so all that got its gossip follow. */
  lemma FinalCountedOnce(env: Env, r: nat, s: State)
    requires ValidSet((env.incs)(r)) && Inv(env, r, s) && s.round.final && DistinctHashes(s.round.quorum.events)
    ensures CountedOnceCarries(env, r, s) && Carries(env, r, s.delivered)
  {
    var incs, events := (env.incs)(r), s.round.quorum.events;
    var es := set e | e in events;
    RequiredBounds(incs);
    DistinctSum(incs, events);
    forall e | e in es ensures e in CompletedBy(env, r, s.delivered) {
      CompletionsSupported(env, r, s, e);
    }
    OnceSumMonotone(incs, es, CompletedBy(env, r, s.delivered));
  }

  /** In a clean run no hash completes twice. */
  lemma CleanCompletesOnce(env: Env, r: nat, s: State)
    requires Inv(env, r, s) && CleanInv(env, r, s)
    ensures DistinctHashes(s.round.quorum.events)
  {
    var q := s.round.quorum;
    forall i, j | 0 <= i < j < |q.events| ensures q.events[i].hash != q.events[j].hash {
      assert q.events[i] in multiset(q.events) && q.events[j] in multiset(q.events);
      assert multiset(q.dropped) == multiset{};
      if q.events[i].hash == q.events[j].hash {
        assert Held(q, q.events[i]) == 1 == Held(q, q.events[j]);
        TwiceInMultiset(q.events, i, j);
      }
    }
  }

  lemma TwiceInMultiset(events: seq<Event>, i: nat, j: nat)
    requires i < j < |events| && events[i] == events[j]
    ensures multiset(events)[events[i]] >= 2
  {
    assert events == events[..j] + events[j..];
    assert events[i] in multiset(events[..j]) by { assert events[..j][i] == events[i]; }
    assert events[j] in multiset(events[j..]) by { assert events[j..][0] == events[j]; }
  }

  /** Whoever is final in a clean run is so on gossip that carries the threshold, so all clean
      nodes that get as much follow while messages do not share hashes. */
  lemma CleanFinalCarries(env: Env, r: nat, s: State)
    requires ValidSet((env.incs)(r)) && Reaches(env, r, s) && s.round.final
    ensures CountedOnceCarries(env, r, s) && Carries(env, r, s.delivered)
  {
    var states, labels :| IsCleanRun(env, r, states, labels) && states[|labels|] == s;
    CleanRunInv(env, r, states, labels, |labels|);
    CleanCompletesOnce(env, r, s);
    FinalCountedOnce(env, r, s);
  }
}
