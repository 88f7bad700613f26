/** Handlers of data are started by what their add operation is told, in every run of a node. */
module Handlers {
  import opened Wrappers
  import opened Stake
  import opened RoundSpec
  import opened NodeRound
  import opened RoundLaws

  /** The operation that a step has the round execute, if any. */
  function Executes(env: Env, r: nat, s: State, l: Label): Option<(OpId, Op)> {
    match l
    case RecvData(g, _) => if GoodData(env, r, g) then Some((s.nextOp, AddOp(MessageOf(env, g)))) else None
    case DeleteData(t) => if t in s.data then Some((s.nextOp, DeleteOp(s.data[t].msg.id))) else None
    case RecvSig(g) => if IsSig(env, r, g) then Some((s.nextOp, GetOp(IdOf(env, g).value))) else None
    case AddSig(op) =>
      if op in s.sigs && IsSig(env, r, s.sigs[op]) then
        Some((s.nextOp, AddSignOp(IdOf(env, s.sigs[op]).value, s.sigs[op].sig)))
      else None
    case CancelSig(op) =>
      if op in s.sigs && IsSig(env, r, s.sigs[op]) then Some((op, GetOp(IdOf(env, s.sigs[op]).value))) else None
    case _ => None
  }

  lemma StepExecutes(env: Env, r: nat, s: State, l: Label, s': State)
    requires Step(env, r, s, l, s')
    ensures s.nextOp <= s'.nextOp
    ensures match Executes(env, r, s, l)
            case Some((i, op)) =>
              s'.round == DoOp((env.incs)(r), s.round, i, op) && (i == s.nextOp < s'.nextOp || (i in s.sigs && op.GetOp?))
            case None => s'.round == s.round
  {
  }

  /** Nothing was sent to the operation, and it waits for nothing. */
  ghost predicate Unknown(rd: Round, i: OpId) {
    SentTo(rd, i) == [] && forall h :: !WaitsAt(rd, i, h)
  }

  /** The add operation of a handler has had its one completion, and that was success. */
  ghost predicate Accepted(s: State, t: nat) {
    && t < s.nextOp && t !in s.sigs
    && SentTo(s.round, t) == [Done(None)] && forall h :: !WaitsAt(s.round, t, h)
  }

  ghost predicate HandlersOk(s: State) {
    && (forall i :: i >= s.nextOp ==> Unknown(s.round, i))
    && (forall i :: i in s.sigs ==> i < s.nextOp)
    && (forall t :: t in s.data ==> Accepted(s, t))
  }

  /** An operation touches no other that does not wait. */
  lemma NotInvolved(incs: seq<Includer>, rd: Round, i: OpId, op: Op, j: OpId)
    requires j != i && forall h :: !WaitsAt(rd, j, h)
    ensures SentTo(DoOp(incs, rd, i, op), j) == SentTo(rd, j)
    ensures forall h :: !WaitsAt(DoOp(incs, rd, i, op), j, h)
  {
    forall h ensures !WaitsAt(DoOp(incs, rd, i, op), j, h) {
      DoOpOnOthers(incs, rd, i, op, j, h);
    }
    if op.AddOp? { assert !WaitsAt(rd, j, op.msg.id.hash); }
  }

  /** What the add operation of arriving data is told: its handler is started exactly if that is
      success and its caller is still there. */
  lemma HandlerStarts(env: Env, r: nat, s: State, g: Gossip, abandoned: bool, s': State)
    requires Step(env, r, s, RecvData(g, abandoned), s') && Unknown(s.round, s.nextOp) && s.nextOp !in s.data
    ensures var told := SentTo(s'.round, s.nextOp);
            && |told| == 1 && told[0].Done?
            && (s.nextOp in s'.data <==> told == [Done(None)] && !abandoned)
            && (s.nextOp !in s'.data ==> s'.data == s.data)
            && (told != [Done(None)] ==> s'.added == s.added && s'.round.quorum == s.round.quorum)
  {
    var incs, msg := (env.incs)(r), MessageOf(env, g);
    assert !WaitsAt(s.round, s.nextOp, msg.id.hash);
    if !Member(incs, msg.id.signer) || msg.id.hash in s.round.quorum.certs {
      RefusedAdd(incs, s.round, s.nextOp, msg);
    } else {
      AcceptedAdd(incs, s.round, s.nextOp, msg, s.nextOp, []);
    }
  }

  lemma NewHandlers(env: Env, r: nat, s: State, l: Label, s': State)
    requires Step(env, r, s, l, s') && (forall t :: t in s.data ==> t < s.nextOp)
    ensures forall t :: t in s'.data && t !in s.data ==> l.RecvData? && t == s.nextOp
    ensures forall i :: i in s'.sigs && i !in s.sigs ==> l.RecvSig? && i == s.nextOp < s'.nextOp
  {
  }

  lemma UnknownStays(env: Env, r: nat, s: State, l: Label, s': State, i: OpId)
    requires HandlersOk(s) && Step(env, r, s, l, s') && i >= s'.nextOp
    ensures Unknown(s'.round, i)
  {
    StepExecutes(env, r, s, l, s');
    assert Unknown(s.round, i);
    if Executes(env, r, s, l).Some? {
      var (x, op) := Executes(env, r, s, l).value;
      NotInvolved((env.incs)(r), s.round, x, op, i);
    }
  }

  lemma AcceptedStays(env: Env, r: nat, s: State, l: Label, s': State, t: nat)
    requires HandlersOk(s) && Step(env, r, s, l, s') && t in s'.data
    ensures Accepted(s', t)
  {
    StepExecutes(env, r, s, l, s');
    NewHandlers(env, r, s, l, s');
    if t in s.data {
      assert Accepted(s, t);
      if Executes(env, r, s, l).Some? {
        var (x, op) := Executes(env, r, s, l).value;
        NotInvolved((env.incs)(r), s.round, x, op, t);
      }
    } else {
      assert Unknown(s.round, t);
      HandlerStarts(env, r, s, l.g, l.abandoned, s');
      forall h ensures !WaitsAt(s'.round, t, h) {
        assert !WaitsAt(s.round, t, h);
      }
    }
  }

  lemma {:induction false} RunKeepsHandlers(env: Env, r: nat, states: seq<State>, labels: seq<Label>, i: nat)
    requires IsRun(env, r, states, labels) && i < |states|
    ensures HandlersOk(states[i])
  {
    if i > 0 {
      RunKeepsHandlers(env, r, states, labels, i - 1);
      var s, l, s' := states[i - 1], labels[i - 1], states[i];
      assert Step(env, r, s, l, s');
      NewHandlers(env, r, s, l, s');
      StepExecutes(env, r, s, l, s');
      forall j | j >= s'.nextOp ensures Unknown(s'.round, j) {
        UnknownStays(env, r, s, l, s', j);
      }
      forall t | t in s'.data ensures Accepted(s', t) {
        AcceptedStays(env, r, s, l, s', t);
      }
    }
  }

  /** In every run of a node: who may certify, sign or delete a certificate was told that its add
      succeeded, and nothing else; and data that arrives starts a handler exactly if its add is told
      so and its caller is still there, so data that was refused is never certified or signed. */
  lemma HandlersWereAccepted(env: Env, r: nat, states: seq<State>, labels: seq<Label>, i: nat)
    requires IsRun(env, r, states, labels) && i < |labels|
    ensures forall t :: t in states[i].data ==> SentTo(states[i].round, t) == [Done(None)]
    ensures labels[i].RecvData? ==>
              var op := states[i].nextOp;
              && op !in states[i].data
              && (op in states[i + 1].data <==> SentTo(states[i + 1].round, op) == [Done(None)] && !labels[i].abandoned)
              && (SentTo(states[i + 1].round, op) != [Done(None)] ==> states[i + 1].added == states[i].added)
  {
    RunKeepsHandlers(env, r, states, labels, i);
    var s := states[i];
    assert Step(env, r, s, labels[i], states[i + 1]);
    assert forall t :: t in s.data ==> Accepted(s, t);
    if labels[i].RecvData? {
      assert Unknown(s.round, s.nextOp);
      HandlerStarts(env, r, s, labels[i].g, labels[i].abandoned, states[i + 1]);
    }
  }

  /** A handler of a signature that is canceled is forgotten, and if it was parked, its operation
      waits no more and is told so; nobody else notices. */
  lemma CanceledHandler(env: Env, r: nat, s: State, op: OpId, s': State)
    requires Step(env, r, s, CancelSig(op), s')
    ensures var h := IdOf(env, s.sigs[op]).value.hash;
            && op !in s'.sigs && s'.round.quorum == s.round.quorum && s'.round.final == s.round.final
            && (h !in s.round.quorum.certs && WaitsAt(s.round, op, h) ==>
                  !WaitsAt(s'.round, op, h) && OnlyTold(s.round, s'.round, op, Done(None)))
            && (forall j, x :: j != op ==>
                  SentTo(s'.round, j) == SentTo(s.round, j) && (WaitsAt(s'.round, j, x) <==> WaitsAt(s.round, j, x)))
  {
    var incs, id := (env.incs)(r), IdOf(env, s.sigs[op]).value;
    if id.hash in s.round.quorum.certs {
      FoundGet(incs, s.round, op, id);
    } else {
      MissedGet(incs, s.round, op, id);
    }
    forall j | j != op ensures SentTo(s'.round, j) == SentTo(s.round, j) {
      assert SentTo(s.round, j) + [] == SentTo(s.round, j);
    }
  }
}
