/** The quorum as a value: what each operation does to the certificates and to the
    accumulated stake, and what every sequence of operations keeps. */
module QuorumSpec {
  import opened Wrappers
  import opened Stake

  datatype Id = Id(round: nat, signer: Key, hash: Bytes)
  datatype Message = Message(id: Id, data: Bytes)
  datatype Signature = Signature(signer: Key, body: Bytes)

  datatype Cert = Cert(msg: Message, sigs: seq<Signature>, activeStake: Int64, completed: bool)

  /** One completion of a certificate. */
  datatype Event = Event(hash: Bytes, producer: Key)

  /** `events` and `dropped` are history: every completion so far, and the completions
      whose certificate has since been deleted. */
  datatype Quorum = Quorum(
    certs: map<Bytes, Cert>, activeStake: Int64, events: seq<Event>, dropped: seq<Event>)

  datatype Error =
    | NotAnIncluder
    | CertificateExists
    | DuplicateSignature
    | NoCertificate
    | ClosedRound
    | Canceled

  const EmptyQuorum := Quorum(map[], 0, [], [])

  function EventOf(c: Cert): Event {
    Event(c.msg.id.hash, c.msg.id.signer)
  }

  function Signers(sigs: seq<Signature>): set<Key> {
    set i | 0 <= i < |sigs| :: sigs[i].signer
  }

  // ----- Operations -----

  function Add(incs: seq<Includer>, q: Quorum, msg: Message): (Quorum, Option<Error>) {
    if !Member(incs, msg.id.signer) then (q, Some(NotAnIncluder))
    else if msg.id.hash in q.certs then (q, Some(CertificateExists))
    else (q.(certs := q.certs[msg.id.hash := Cert(msg, [], 0, false)]), None)
  }

  function Delete(q: Quorum, id: Id): (Quorum, bool) {
    if id.hash !in q.certs then (q, false)
    else
      var c := q.certs[id.hash];
      (q.(certs := q.certs - {id.hash},
          dropped := q.dropped + if c.completed then [EventOf(c)] else []),
       true)
  }

  predicate Finalize(incs: seq<Includer>, q: Quorum) {
    q.activeStake >= Required(Total(incs))
  }

  function Listed(q: Quorum): set<Cert> {
    set h | h in q.certs && q.certs[h].completed :: q.certs[h]
  }

  /** The certificate after one more signature, and whether it is complete. */
  function SignCert(incs: seq<Includer>, c: Cert, s: Signature): (Cert, Result<bool, Error>) {
    if !Member(incs, s.signer) then (c, Err(NotAnIncluder))
    else if s.signer in Signers(c.sigs) then (c, Err(DuplicateSignature))
    else
      var stake := SafeAddClip(c.activeStake, Lookup(incs, s.signer).value.stake);
      var done := c.completed || stake >= Required(Total(incs));
      (Cert(c.msg, c.sigs + [s], stake, done), Ok(done))
  }

  /** The quorum's stake and history after one of its certificates went from `c` to `c'`. */
  function Credit(incs: seq<Includer>, q: Quorum, c: Cert, c': Cert): Quorum {
    if !c.completed && c'.completed && Member(incs, c.msg.id.signer) then
      q.(activeStake := SafeAddClip(q.activeStake, Lookup(incs, c.msg.id.signer).value.stake),
         events := q.events + [EventOf(c)])
    else q
  }

  function AddSignature(incs: seq<Includer>, q: Quorum, h: Bytes, s: Signature): (Quorum, Result<bool, Error>)
    requires h in q.certs
  {
    var (c, r) := SignCert(incs, q.certs[h], s);
    (Credit(incs, q, q.certs[h], c).(certs := q.certs[h := c]), r)
  }

  /** The quorum after a signature on a certificate it no longer holds. */
  function CreditDeleted(incs: seq<Includer>, q: Quorum, c: Cert, c': Cert): Quorum {
    Credit(incs, q, c, c').(
      dropped := q.dropped + if !c.completed && c'.completed && Member(incs, c.msg.id.signer) then [EventOf(c)] else [])
  }

  // ----- Stake accounting -----

  function EventSum(incs: seq<Includer>, events: seq<Event>): int {
    if events == [] then 0
    else EventSum(incs, events[..|events| - 1]) + StakeFor(incs, events[|events| - 1].producer)
  }

  ghost predicate CertOk(incs: seq<Includer>, c: Cert) {
    && Member(incs, c.msg.id.signer)
    && (forall i, j :: 0 <= i < j < |c.sigs| ==> c.sigs[i].signer != c.sigs[j].signer)
    && (forall i :: 0 <= i < |c.sigs| ==> Member(incs, c.sigs[i].signer))
    && c.activeStake == StakeOf(incs, Signers(c.sigs))
    && (c.completed <==> IsQuorum(incs, Signers(c.sigs)))
  }

  /** How often `e` is the completion of a certificate still held. */
  function Held(q: Quorum, e: Event): nat {
    if e.hash in q.certs && q.certs[e.hash].completed && EventOf(q.certs[e.hash]) == e then 1 else 0
  }

  /** Every completion is accounted for exactly once: by a completed certificate that is
      still held, or by one that was deleted. */
  ghost predicate Conserved(q: Quorum) {
    forall e :: multiset(q.events)[e] == Held(q, e) + multiset(q.dropped)[e]
  }

  ghost predicate Valid(incs: seq<Includer>, q: Quorum) {
    && (forall h :: h in q.certs ==> q.certs[h].msg.id.hash == h && CertOk(incs, q.certs[h]))
    && q.activeStake == Clip(EventSum(incs, q.events))
    && Conserved(q)
  }

  lemma {:induction false} EventSumNonNegative(incs: seq<Includer>, events: seq<Event>)
    requires NonNegative(incs)
    ensures EventSum(incs, events) >= 0
  {
    if events != [] {
      EventSumNonNegative(incs, events[..|events| - 1]);
      StakeForNonNegative(incs, events[|events| - 1].producer);
    }
  }

  lemma StakeForNonNegative(incs: seq<Includer>, key: Key)
    requires NonNegative(incs)
    ensures StakeFor(incs, key) >= 0
  {
    LookupFound(incs, key);
  }

  lemma EmptyQuorumValid(incs: seq<Includer>)
    requires ValidSet(incs)
    ensures Valid(incs, EmptyQuorum) && !Finalize(incs, EmptyQuorum)
  {
    RequiredBounds(incs);
  }

  lemma AddKeepsValid(incs: seq<Includer>, q: Quorum, msg: Message)
    requires ValidSet(incs) && Valid(incs, q)
    ensures Valid(incs, Add(incs, q, msg).0)
  {
    RequiredBounds(incs);
    var q' := Add(incs, q, msg).0;
    if q' != q {
      assert Signers([]) == {};
      StakeOfBounds(incs, {});
      StakeOfNone(incs, {});
      forall e ensures Held(q', e) == Held(q, e) {}
    }
  }

  lemma DeleteKeepsValid(incs: seq<Includer>, q: Quorum, id: Id)
    requires Valid(incs, q)
    ensures Valid(incs, Delete(q, id).0)
    ensures Delete(q, id).0.activeStake == q.activeStake && Delete(q, id).0.events == q.events
  {
    var q' := Delete(q, id).0;
    if id.hash in q.certs {
      var c := q.certs[id.hash];
      forall e ensures Held(q, e) + multiset(q.dropped)[e] == Held(q', e) + multiset(q'.dropped)[e] {
        if e.hash == id.hash {
          assert Held(q', e) == 0;
        }
      }
    }
  }

  /** Signing keeps a certificate's stake the exact, never clipped, stake of its distinct signers. */
  lemma SignCertKeepsOk(incs: seq<Includer>, c: Cert, s: Signature)
    requires ValidSet(incs) && CertOk(incs, c)
    ensures CertOk(incs, SignCert(incs, c, s).0)
    ensures SignCert(incs, c, s).0.activeStake <= Total(incs)
    ensures c.completed ==> SignCert(incs, c, s).0.completed
  {
    RequiredBounds(incs);
    StakeOfBounds(incs, Signers(c.sigs));
    var c' := SignCert(incs, c, s).0;
    if c' != c {
      assert Signers(c'.sigs) == Signers(c.sigs) + {s.signer} by {
        forall k | k in Signers(c.sigs) + {s.signer} ensures k in Signers(c'.sigs) {
          if k == s.signer {
            assert c'.sigs[|c.sigs|].signer == k;
          } else {
            var i :| 0 <= i < |c.sigs| && c.sigs[i].signer == k;
            assert c'.sigs[i].signer == k;
          }
        }
      }
      StakeOfInsert(incs, Signers(c.sigs), s.signer);
      StakeForNonNegative(incs, s.signer);
      StakeOfBounds(incs, Signers(c'.sigs));
    }
  }

  /** A certificate can be added once; deleting it restores the quorum, so it can be added anew. */
  lemma DeleteUndoesAdd(incs: seq<Includer>, q: Quorum, msg: Message)
    requires Add(incs, q, msg).1 == None
    ensures var q' := Add(incs, q, msg).0;
            && Add(incs, q', msg) == (q', Some(CertificateExists))
            && Delete(q', msg.id) == (q, true) && Delete(q, msg.id) == (q, false)
  {
    assert (q.certs[msg.id.hash := Cert(msg, [], 0, false)]) - {msg.id.hash} == q.certs;
    assert q.dropped + [] == q.dropped;
  }

  lemma CreditKeepsSum(incs: seq<Includer>, q: Quorum, c: Cert, c': Cert)
    requires NonNegative(incs) && q.activeStake == Clip(EventSum(incs, q.events))
    ensures Credit(incs, q, c, c').activeStake == Clip(EventSum(incs, Credit(incs, q, c, c').events))
  {
    EventSumNonNegative(incs, q.events);
    StakeForNonNegative(incs, c.msg.id.signer);
    assert (q.events + [EventOf(c)])[..|q.events|] == q.events;
  }

  lemma CreditKeepsConserved(incs: seq<Includer>, q: Quorum, h: Bytes, c': Cert)
    requires Conserved(q) && h in q.certs && q.certs[h].msg == c'.msg && h == c'.msg.id.hash
    requires Member(incs, c'.msg.id.signer) && (q.certs[h].completed ==> c'.completed)
    ensures Conserved(Credit(incs, q, q.certs[h], c').(certs := q.certs[h := c']))
  {
    var c := q.certs[h];
    var q' := Credit(incs, q, c, c').(certs := q.certs[h := c']);
    forall e ensures multiset(q'.events)[e] == Held(q', e) + multiset(q'.dropped)[e] {
      assert multiset(q.events)[e] == Held(q, e) + multiset(q.dropped)[e];
      if !c.completed && c'.completed {
        assert multiset(q'.events) == multiset(q.events) + multiset{EventOf(c)};
      }
    }
  }

  lemma AddSignatureKeepsValid(incs: seq<Includer>, q: Quorum, h: Bytes, s: Signature)
    requires ValidSet(incs) && Valid(incs, q) && h in q.certs
    ensures Valid(incs, AddSignature(incs, q, h, s).0)
  {
    var c := q.certs[h];
    SignCertKeepsOk(incs, c, s);
    var c' := SignCert(incs, c, s).0;
    CreditKeepsSum(incs, q, c, c');
    CreditKeepsConserved(incs, q, h, c');
  }

  lemma CreditDeletedKeepsConserved(incs: seq<Includer>, q: Quorum, c: Cert, c': Cert)
    requires Conserved(q)
    ensures Conserved(CreditDeleted(incs, q, c, c'))
  {
    var q' := CreditDeleted(incs, q, c, c');
    forall e ensures multiset(q'.events)[e] == Held(q', e) + multiset(q'.dropped)[e] {
      assert multiset(q.events)[e] == Held(q, e) + multiset(q.dropped)[e];
      assert Held(q', e) == Held(q, e);
    }
  }

  lemma CreditDeletedCredits(incs: seq<Includer>, q: Quorum, c: Cert, c': Cert)
    requires NonNegative(incs) && q.activeStake == Clip(EventSum(incs, q.events))
    requires !c.completed && c'.completed && Member(incs, c.msg.id.signer)
    ensures var q' := CreditDeleted(incs, q, c, c');
            && q'.activeStake == Clip(EventSum(incs, q.events) + StakeFor(incs, c.msg.id.signer))
            && multiset(q'.events) == multiset(q.events) + multiset{Event(c.msg.id.hash, c.msg.id.signer)}
  {
    EventSumNonNegative(incs, q.events);
    StakeForNonNegative(incs, c.msg.id.signer);
  }

  /** Completing a deleted certificate credits its producer's stake to the quorum, which keeps its
      accounting; signing it further does nothing. */
  lemma CreditDeletedKeepsValid(incs: seq<Includer>, q: Quorum, c: Cert, c': Cert)
    requires ValidSet(incs) && Valid(incs, q)
    ensures var q' := CreditDeleted(incs, q, c, c');
            && Valid(incs, q') && q'.certs == q.certs && (c.completed ==> q' == q)
            && (!c.completed && c'.completed && Member(incs, c.msg.id.signer) ==>
                  && q'.activeStake == Clip(EventSum(incs, q.events) + StakeFor(incs, c.msg.id.signer))
                  && multiset(q'.events) == multiset(q.events) + multiset{Event(c.msg.id.hash, c.msg.id.signer)})
  {
    CreditKeepsSum(incs, q, c, c');
    CreditDeletedKeepsConserved(incs, q, c, c');
    assert q.dropped + [] == q.dropped;
    if !c.completed && c'.completed && Member(incs, c.msg.id.signer) { CreditDeletedCredits(incs, q, c, c'); }
  }

  /** Accumulated stake never decreases, so finalization is never undone, not even by a deletion. */
  lemma ActiveStakeMonotone(incs: seq<Includer>, q: Quorum, h: Bytes, s: Signature)
    requires ValidSet(incs) && h in q.certs && q.activeStake >= 0
    ensures AddSignature(incs, q, h, s).0.activeStake >= q.activeStake
  {
    var c := q.certs[h];
    StakeForNonNegative(incs, c.msg.id.signer);
  }

  // ----- Sums over histories -----

  lemma {:induction false} EventSumRemove(incs: seq<Includer>, events: seq<Event>, i: nat)
    requires i < |events|
    ensures EventSum(incs, events) == EventSum(incs, events[..i] + events[i + 1..]) + StakeFor(incs, events[i].producer)
  {
    var n := |events| - 1;
    if i < n {
      EventSumRemove(incs, events[..n], i);
      var rest := events[..i] + events[i + 1..];
      assert rest[..n - 1] == events[..n][..i] + events[..n][i + 1..];
    } else {
      assert events[..i] + events[i + 1..] == events[..n];
    }
  }

  /** More completions weigh at least as much, whatever order they came in. */
  lemma {:induction false} EventSumMonotone(incs: seq<Includer>, a: seq<Event>, b: seq<Event>)
    requires NonNegative(incs) && multiset(a) <= multiset(b)
    ensures EventSum(incs, a) <= EventSum(incs, b)
    decreases |a|
  {
    if a == [] {
      EventSumNonNegative(incs, b);
    } else {
      var n := |a| - 1;
      var e := a[n];
      assert a == a[..n] + [e];
      assert multiset(a) == multiset(a[..n]) + multiset{e};
      assert multiset(a)[e] >= 1;
      assert e in multiset(b);
      var i :| 0 <= i < |b| && b[i] == e;
      var rest := b[..i] + b[i + 1..];
      assert b == b[..i] + [e] + b[i + 1..];
      assert multiset(b) == multiset(rest) + multiset{e};
      forall x ensures multiset(a[..n])[x] <= multiset(rest)[x] {
        assert multiset(a)[x] <= multiset(b)[x];
      }
      EventSumMonotone(incs, a[..n], rest);
      EventSumRemove(incs, b, i);
    }
  }
}
