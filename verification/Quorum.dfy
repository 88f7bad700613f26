/** The mutable quorum and its certificates, each method proved against `QuorumSpec`. */
module DagQuorum {
  import opened Wrappers
  import opened Stake
  import opened IncluderSet
  import Spec = QuorumSpec

  const FAULT_NUMERATOR: Int64 := 2
  const FAULT_DENOMINATOR: Int64 := 3

  class Certificate {
    const quorum: Quorum
    const msg: Spec.Message
    var signatures: seq<Spec.Signature>
    var activeStake: Int64
    var completed: bool

    constructor (quorum: Quorum, msg: Spec.Message)
      ensures this.quorum == quorum && Model() == Spec.Cert(msg, [], 0, false)
    {
      this.quorum := quorum;
      this.msg := msg;
      signatures := [];
      activeStake := 0;
      completed := false;
    }

    ghost function Model(): Spec.Cert
      reads this
    {
      Spec.Cert(msg, signatures, activeStake, completed)
    }

    /** Signs the certificate and reports whether it is complete. A certificate that was
        deleted from its quorum can still be signed and still adds to the quorum's stake. */
    method AddSignature(s: Spec.Signature) returns (r: Result<bool, Spec.Error>)
      requires quorum.Valid() && Member(quorum.Incs(), msg.id.signer)
      modifies this, quorum`activeStake, quorum`model, quorum.includers`totalStake
      ensures quorum.Valid()
      ensures (Model(), r) == Spec.SignCert(quorum.Incs(), old(Model()), s)
      ensures old(quorum.Holds(this)) ==>
                (quorum.model, r) == Spec.AddSignature(quorum.Incs(), old(quorum.model), msg.id.hash, s)
      ensures !old(quorum.Holds(this)) ==>
                quorum.model == Spec.CreditDeleted(quorum.Incs(), old(quorum.model), old(Model()), Model())
    {
      r := quorum.AddSignatureTo(s, this);
    }
  }

  class Quorum {
    const includers: Includers
    var certificates: map<Bytes, Certificate>
    var activeStake: Int64
    /** The quorum as a value, with its history; `Valid` ties it to the fields above. */
    ghost var model: Spec.Quorum

    constructor (includers: Includers)
      requires includers.Valid()
      ensures this.includers == includers
      ensures Valid() && model == Spec.EmptyQuorum
    {
      this.includers := includers;
      certificates := map[];
      activeStake := 0;
      model := Spec.EmptyQuorum;
    }

    ghost function Incs(): seq<Includer>
      reads includers`includers, includers.includers
    {
      includers.Contents()
    }

    /** Whether a certificate object is the one the quorum holds under its hash. */
    ghost predicate Holds(cert: Certificate)
      reads this
    {
      cert.msg.id.hash in certificates && certificates[cert.msg.id.hash] == cert
    }

    /** Certificates sit under their own hash, so different keys hold different objects, and
        come from includers. The stake accounting is `Spec.Valid`, kept because every method
        does to `model` what the operation of `QuorumSpec` does. */
    ghost predicate Valid()
      reads this, certificates.Values, includers, includers.includers
    {
      && includers.Valid()
      && model.activeStake == activeStake
      && model.certs.Keys == certificates.Keys
      && (forall h :: h in certificates ==>
            && certificates[h].quorum == this && certificates[h].msg.id.hash == h
            && Member(Incs(), certificates[h].msg.id.signer)
            && certificates[h].Model() == model.certs[h])
    }

    method Add(msg: Spec.Message) returns (err: Option<Spec.Error>)
      requires Valid()
      modifies this`certificates, this`model
      ensures Valid() && fresh(certificates.Values - old(certificates.Values))
      ensures (model, err) == Spec.Add(Incs(), old(model), msg)
    {
      var signer := includers.GetByPubKey(msg.id.signer);
      if signer.None? {
        return Some(Spec.NotAnIncluder);
      }
      if msg.id.hash in certificates {
        return Some(Spec.CertificateExists);
      }
      var cert := new Certificate(this, msg);
      certificates := certificates[msg.id.hash := cert];
      model := Spec.Add(Incs(), model, msg).0;
      return None;
    }

    method Get(id: Spec.Id) returns (cert: Certificate?)
      requires Valid()
      ensures cert == null <==> id.hash !in model.certs
      ensures cert != null ==> Holds(cert) && cert.quorum == this && cert.msg.id.hash == id.hash
      ensures cert != null ==> Member(Incs(), cert.msg.id.signer) && cert.Model() == model.certs[id.hash]
    {
      if id.hash in certificates {
        cert := certificates[id.hash];
      } else {
        cert := null;
      }
    }

    method Delete(id: Spec.Id) returns (ok: bool)
      requires Valid()
      modifies this`certificates, this`model
      ensures Valid() && certificates.Values <= old(certificates.Values)
      ensures (model, ok) == Spec.Delete(old(model), id)
    {
      if id.hash !in certificates {
        return false;
      }
      certificates := certificates - {id.hash};
      model := Spec.Delete(model, id).0;
      return true;
    }

    /** The completed certificates, each once, in no particular order. */
    method List() returns (certs: seq<Certificate>)
      requires Valid()
      ensures forall i, j :: 0 <= i < j < |certs| ==> certs[i] != certs[j]
      ensures forall c :: c in certs <==> c in certificates.Values && c.completed
      ensures (set i | 0 <= i < |certs| :: certs[i].Model()) == Spec.Listed(model)
    {
      certs := [];
      var keys := certificates.Keys;
      while keys != {}
        invariant keys <= certificates.Keys
        invariant forall c :: c in certs <==> Holds(c) && c.completed && c.msg.id.hash !in keys
        invariant forall i, j :: 0 <= i < j < |certs| ==> certs[i] != certs[j]
        decreases keys
      {
        var h :| h in keys;
        keys := keys - {h};
        if certificates[h].completed {
          certs := certs + [certificates[h]];
        }
      }
      forall c | c in Spec.Listed(model) ensures exists i :: 0 <= i < |certs| && certs[i].Model() == c {
        var h :| h in certificates && certificates[h].completed && certificates[h].Model() == c;
        assert certificates[h] in certs;
      }
      forall i | 0 <= i < |certs| ensures certs[i].Model() in Spec.Listed(model) {
        assert certs[i] in certs;
      }
    }

    method Finalize() returns (ok: bool)
      requires Valid()
      modifies includers`totalStake
      ensures Valid() && ok == Spec.Finalize(Incs(), model)
      ensures ok <==> 3 * activeStake > 2 * Total(Incs())
    {
      var required := StakeRequired();
      ok := activeStake >= required;
    }

    method AddSignatureTo(s: Spec.Signature, cert: Certificate) returns (r: Result<bool, Spec.Error>)
      requires Valid() && cert.quorum == this && Member(Incs(), cert.msg.id.signer)
      modifies this`activeStake, this`model, cert, includers`totalStake
      ensures Valid()
      ensures (cert.Model(), r) == Spec.SignCert(Incs(), old(cert.Model()), s)
      ensures Holds(cert) ==>
                (model, r) == Spec.AddSignature(Incs(), old(model), cert.msg.id.hash, s)
      ensures !Holds(cert) ==>
                model == Spec.CreditDeleted(Incs(), old(model), old(cert.Model()), cert.Model())
    {
      ghost var c := cert.Model();
      r := SignAndCredit(s, cert);
      if Holds(cert) {
        model := Spec.AddSignature(Incs(), model, cert.msg.id.hash, s).0;
      } else {
        model := Spec.CreditDeleted(Incs(), model, c, cert.Model());
      }
    }

    /** Signs `cert` and, when this completes it, credits its producer's stake. */
    method SignAndCredit(s: Spec.Signature, cert: Certificate) returns (r: Result<bool, Spec.Error>)
      requires includers.Valid() && Member(Incs(), cert.msg.id.signer) && model.activeStake == activeStake
      modifies this`activeStake, cert, includers`totalStake
      ensures includers.Valid()
      ensures (cert.Model(), r) == Spec.SignCert(Incs(), old(cert.Model()), s)
      ensures activeStake == Spec.Credit(Incs(), model, old(cert.Model()), cert.Model()).activeStake
    {
      var signer := includers.GetByPubKey(s.signer);
      if signer.None? {
        return Err(Spec.NotAnIncluder);
      }
      var i := 0;
      while i < |cert.signatures|
        invariant 0 <= i <= |cert.signatures|
        invariant forall j :: 0 <= j < i ==> cert.signatures[j].signer != s.signer
      {
        if cert.signatures[i].signer == s.signer {
          return Err(Spec.DuplicateSignature);
        }
        i := i + 1;
      }
      cert.signatures := cert.signatures + [s];
      cert.activeStake := SafeAddClip(cert.activeStake, signer.value.stake);
      if cert.completed {
        return Ok(true);
      }
      var required := StakeRequired();
      cert.completed := cert.activeStake >= required;
      if !cert.completed {
        return Ok(false);
      }
      var includer := includers.GetByPubKey(cert.msg.id.signer);
      activeStake := SafeAddClip(activeStake, includer.value.stake);
      return Ok(true);
    }

    /** Two thirds of the total stake, rounded down, plus one; no step overflows. */
    method StakeRequired() returns (r: Int64)
      requires includers.Valid()
      modifies includers`totalStake
      ensures includers.Valid() && r == Required(Total(Incs()))
    {
      RequiredBounds(Incs());
      var total := includers.TotalStake();
      var product: Int64 := total.value * FAULT_NUMERATOR;
      r := product / FAULT_DENOMINATOR + 1;
    }
  }
}
