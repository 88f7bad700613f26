/** How the stake that finalizes a round relates to the stake behind its listed certificates,
    which become the parents of the next block. */
module Parents {
  import opened Stake
  import opened QuorumSpec

  function EventProducers(events: seq<Event>): set<Key> {
    set i | 0 <= i < |events| :: events[i].producer
  }

  function Producers(certs: set<Cert>): set<Key> {
    set c | c in certs :: c.msg.id.signer
  }

  /** Stake counted again for producers that had already completed a certificate. */
  function Repeated(incs: seq<Includer>, events: seq<Event>): int {
    if events == [] then 0
    else
      var n := |events| - 1;
      Repeated(incs, events[..n]) +
      if events[n].producer in EventProducers(events[..n]) then StakeFor(incs, events[n].producer) else 0
  }

  /** Producers of completed certificates none of which is listed any more. */
  function Lost(q: Quorum): set<Key> {
    EventProducers(q.events) - Producers(Listed(q))
  }

  lemma {:induction false} RepeatedNonNegative(incs: seq<Includer>, events: seq<Event>)
    requires NonNegative(incs)
    ensures Repeated(incs, events) >= 0
  {
    if events != [] {
      RepeatedNonNegative(incs, events[..|events| - 1]);
      StakeForNonNegative(incs, events[|events| - 1].producer);
    }
  }

  lemma {:induction false} EventSumSplits(incs: seq<Includer>, events: seq<Event>)
    requires Distinct(incs)
    ensures EventSum(incs, events) == StakeOf(incs, EventProducers(events)) + Repeated(incs, events)
  {
    if events == [] {
      StakeOfNone(incs, EventProducers(events));
    } else {
      var n := |events| - 1;
      var p := events[n].producer;
      EventSumSplits(incs, events[..n]);
      assert EventProducers(events) == EventProducers(events[..n]) + {p} by {
        forall k | k in EventProducers(events[..n]) + {p} ensures k in EventProducers(events) {
          if k == p {
            assert events[n].producer == k;
          } else {
            var i :| 0 <= i < n && events[..n][i].producer == k;
            assert events[i].producer == k;
          }
        }
      }
      if p in EventProducers(events[..n]) {
        assert EventProducers(events) == EventProducers(events[..n]);
      } else {
        StakeOfInsert(incs, EventProducers(events[..n]), p);
      }
    }
  }

  lemma ListedAreEvents(incs: seq<Includer>, q: Quorum)
    requires Valid(incs, q)
    ensures Producers(Listed(q)) <= EventProducers(q.events)
  {
    forall c | c in Listed(q) ensures c.msg.id.signer in EventProducers(q.events) {
      var e := EventOf(c);
      assert Held(q, e) == 1;
      assert e in multiset(q.events);
      var i :| 0 <= i < |q.events| && q.events[i] == e;
      assert q.events[i].producer == c.msg.id.signer;
    }
  }

  /** The accumulated stake is the stake of the listed certificates' producers, plus that of
      producers whose certificates were all deleted, plus what was counted more than once. */
  lemma StakeBehindParents(incs: seq<Includer>, q: Quorum)
    requires ValidSet(incs) && Valid(incs, q)
    ensures q.activeStake == Clip(
              StakeOf(incs, Producers(Listed(q))) + StakeOf(incs, Lost(q)) + Repeated(incs, q.events))
  {
    EventSumSplits(incs, q.events);
    ListedAreEvents(incs, q);
    var listed := Producers(Listed(q));
    InclusionExclusion(incs, listed, Lost(q));
    assert listed + Lost(q) == EventProducers(q.events) && listed * Lost(q) == {};
    StakeOfNone(incs, {});
  }

  /** Nothing was lost or repeated: exactly then the parents carry the whole accumulated stake. */
  lemma ParentsCarryStake(incs: seq<Includer>, q: Quorum)
    requires ValidSet(incs) && Valid(incs, q)
    ensures q.activeStake == StakeOf(incs, Producers(Listed(q))) <==>
            StakeOf(incs, Lost(q)) == 0 && Repeated(incs, q.events) == 0
  {
    StakeBehindParents(incs, q);
    EventSumSplits(incs, q.events);
    ListedAreEvents(incs, q);
    InclusionExclusion(incs, Producers(Listed(q)), Lost(q));
    assert Producers(Listed(q)) + Lost(q) == EventProducers(q.events) && Producers(Listed(q)) * Lost(q) == {};
    StakeOfNone(incs, {});
    StakeOfBounds(incs, Lost(q));
    StakeOfBounds(incs, Producers(Listed(q)));
    RepeatedNonNegative(incs, q.events);
  }

  /** What the accumulated stake has beyond the threshold; negative before the round is final. */
  function Surplus(incs: seq<Includer>, q: Quorum): int {
    EventSum(incs, q.events) - Required(Total(incs))
  }

  /** The producers of the listed certificates are a quorum if and only if the surplus covers what
      was lost by deletions and what was counted again. */
  lemma ParentsAreQuorumExactly(incs: seq<Includer>, q: Quorum)
    requires ValidSet(incs) && Valid(incs, q)
    ensures Finalize(incs, q) <==> Surplus(incs, q) >= 0
    ensures IsQuorum(incs, Producers(Listed(q))) <==>
            Surplus(incs, q) >= StakeOf(incs, Lost(q)) + Repeated(incs, q.events)
  {
    RequiredBounds(incs);
    EventSumSplits(incs, q.events);
    ListedAreEvents(incs, q);
    InclusionExclusion(incs, Producers(Listed(q)), Lost(q));
    assert Producers(Listed(q)) + Lost(q) == EventProducers(q.events) && Producers(Listed(q)) * Lost(q) == {};
    StakeOfNone(incs, {});
  }

  /** Whether one more signature completes the certificate. */
  predicate Completes(incs: seq<Includer>, c: Cert, s: Signature) {
    !c.completed && SignCert(incs, c, s).0.completed
  }

  lemma EventProducersAppend(events: seq<Event>, e: Event)
    ensures EventProducers(events + [e]) == EventProducers(events) + {e.producer}
  {
    forall k | k in EventProducers(events) + {e.producer} ensures k in EventProducers(events + [e]) {
      if k == e.producer {
        assert (events + [e])[|events|].producer == k;
      } else {
        var i :| 0 <= i < |events| && events[i].producer == k;
        assert (events + [e])[i].producer == k;
      }
    }
  }

  lemma ProducersAfterSigning(incs: seq<Includer>, q: Quorum, h: Bytes, s: Signature)
    requires h in q.certs
    ensures var q' := AddSignature(incs, q, h, s).0;
            Producers(Listed(q')) ==
              Producers(Listed(q)) + if Completes(incs, q.certs[h], s) then {q.certs[h].msg.id.signer} else {}
  {
    var q' := AddSignature(incs, q, h, s).0;
    var more := if Completes(incs, q.certs[h], s) then {q.certs[h].msg.id.signer} else {};
    forall p | p in Producers(Listed(q)) + more ensures p in Producers(Listed(q')) {
      var k :| k in q.certs && q.certs[k].msg.id.signer == p && (q.certs[k].completed || (k == h && p in more));
      assert q'.certs[k] in Listed(q') && q'.certs[k].msg == q.certs[k].msg;
    }
    forall p | p in Producers(Listed(q')) ensures p in Producers(Listed(q)) + more {
      var k :| k in q'.certs && q'.certs[k].completed && q'.certs[k].msg.id.signer == p;
      assert q.certs[k].completed ==> q.certs[k] in Listed(q);
    }
  }

  /** A signature makes stake count again exactly when it completes a certificate whose producer,
      with stake, was credited before; and it takes from the lost exactly the producer it credits. */
  lemma SigningCountsAgain(incs: seq<Includer>, q: Quorum, h: Bytes, s: Signature)
    requires ValidSet(incs) && Valid(incs, q) && h in q.certs
    ensures var q', p := AddSignature(incs, q, h, s).0, q.certs[h].msg.id.signer;
            && (Repeated(incs, q'.events) > Repeated(incs, q.events) <==>
                  Completes(incs, q.certs[h], s) && p in EventProducers(q.events) && StakeFor(incs, p) > 0)
            && Repeated(incs, q'.events) >= Repeated(incs, q.events)
            && Lost(q') == Lost(q) - if Completes(incs, q.certs[h], s) then {p} else {}
  {
    var c := q.certs[h];
    assert CertOk(incs, c);
    StakeForNonNegative(incs, c.msg.id.signer);
    ProducersAfterSigning(incs, q, h, s);
    EventProducersAppend(q.events, EventOf(c));
    assert (q.events + [EventOf(c)])[..|q.events|] == q.events;
  }

  /** No other completed certificate of the same producer is there. */
  ghost predicate LastCompleted(q: Quorum, h: Bytes) {
    && h in q.certs && q.certs[h].completed
    && forall k :: k in q.certs && k != h && q.certs[k].completed ==>
         q.certs[k].msg.id.signer != q.certs[h].msg.id.signer
  }

  /** A deletion makes a producer lost exactly when it removes its last completed certificate;
      adding changes nothing. */
  lemma DeletingLoses(incs: seq<Includer>, q: Quorum, id: Id, msg: Message)
    requires Valid(incs, q)
    ensures var q' := Delete(q, id).0;
            && Lost(q') == Lost(q) + (if LastCompleted(q, id.hash) then {q.certs[id.hash].msg.id.signer} else {})
            && (LastCompleted(q, id.hash) ==> q.certs[id.hash].msg.id.signer !in Lost(q))
            && q'.events == q.events
    ensures Lost(Add(incs, q, msg).0) == Lost(q) && Add(incs, q, msg).0.events == q.events
  {
    ListedAreEvents(incs, q);
    if id.hash in q.certs {
      ProducersAfterDeletion(q, id);
    }
    var a := Add(incs, q, msg).0;
    forall c | c in Listed(q) ensures c in Listed(a) {
      assert a.certs[c.msg.id.hash] == c;
    }
    assert Listed(a) == Listed(q);
  }

  lemma ProducersAfterDeletion(q: Quorum, id: Id)
    requires id.hash in q.certs
    ensures var q' := Delete(q, id).0;
            Producers(Listed(q')) ==
              Producers(Listed(q)) - if LastCompleted(q, id.hash) then {q.certs[id.hash].msg.id.signer} else {}
  {
    var q' := Delete(q, id).0;
    forall p | p in Producers(Listed(q)) && !(LastCompleted(q, id.hash) && p == q.certs[id.hash].msg.id.signer)
      ensures p in Producers(Listed(q')) {
      var k :| k in q.certs && k != id.hash && q.certs[k].completed && q.certs[k].msg.id.signer == p;
      assert q'.certs[k] in Listed(q');
    }
    forall p | p in Producers(Listed(q'))
      ensures p in Producers(Listed(q)) && !(LastCompleted(q, id.hash) && p == q.certs[id.hash].msg.id.signer) {
      var k :| k in q'.certs && q'.certs[k].completed && q'.certs[k].msg.id.signer == p;
      assert q.certs[k] in Listed(q);
    }
  }

  ghost predicate DistinctProducers(events: seq<Event>) {
    forall i, j :: 0 <= i < j < |events| ==> events[i].producer != events[j].producer
  }

  lemma {:induction false} NothingRepeated(incs: seq<Includer>, events: seq<Event>)
    requires DistinctProducers(events)
    ensures Repeated(incs, events) == 0
  {
    if events != [] {
      NothingRepeated(incs, events[..|events| - 1]);
    }
  }

  /** With one completion per producer and no completed certificate deleted, the listed
      certificates have different producers, and once the round is final these form a quorum. */
  lemma ParentsAreQuorum(incs: seq<Includer>, q: Quorum)
    requires ValidSet(incs) && Valid(incs, q) && Finalize(incs, q)
    requires DistinctProducers(q.events) && q.dropped == []
    ensures IsQuorum(incs, Producers(Listed(q)))
    ensures forall c, d :: c in Listed(q) && d in Listed(q) && c.msg.id.signer == d.msg.id.signer ==> c == d
  {
    StakeBehindParents(incs, q);
    NothingRepeated(incs, q.events);
    NobodyLost(q);
    StakeOfNone(incs, {});
    RequiredBounds(incs);
    StakeOfBounds(incs, Producers(Listed(q)));
    forall c, d | c in Listed(q) && d in Listed(q) && c.msg.id.signer == d.msg.id.signer ensures c == d {
      ListedAreDistinct(q, c, d);
    }
  }

  lemma NobodyLost(q: Quorum)
    requires Conserved(q) && q.dropped == []
    ensures Lost(q) == {}
  {
    forall p | p in EventProducers(q.events) ensures p in Producers(Listed(q)) {
      var i :| 0 <= i < |q.events| && q.events[i].producer == p;
      assert q.events[i] in multiset(q.events);
      assert Held(q, q.events[i]) == 1;
      assert q.certs[q.events[i].hash] in Listed(q);
    }
  }

  lemma ListedAreDistinct(q: Quorum, c: Cert, d: Cert)
    requires Conserved(q) && (forall h :: h in q.certs ==> q.certs[h].msg.id.hash == h)
    requires DistinctProducers(q.events) && c in Listed(q) && d in Listed(q) && c.msg.id.signer == d.msg.id.signer
    ensures c == d
  {
    assert Held(q, EventOf(c)) == 1 && Held(q, EventOf(d)) == 1;
    assert EventOf(c) in multiset(q.events) && EventOf(d) in multiset(q.events);
    var i :| 0 <= i < |q.events| && q.events[i] == EventOf(c);
    var j :| 0 <= j < |q.events| && q.events[j] == EventOf(d);
    assert i == j;
  }
}
