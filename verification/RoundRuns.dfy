/** Every interleaving of submitters, the event loop and the stopper of one round, as a
    machine over explicit state. The operations themselves are those of `RoundSpec`. */
module RoundRuns {
  import opened Stake
  import opened QuorumSpec
  import opened RoundSpec

  const CHANNEL_SIZE := 32

  /** Where the event loop is: in its main loop, in the drain, between the drain's last look
      at the empty channel and the close of `closedCh`, or gone. */
  datatype Phase = Serving | Draining | Exiting | Exited

  /** One call of `execOp`. `pos` is the place of its operation among all submissions, `at` how
      many operations had been executed when the call returned, and `nth` which of the
      operation's completions it took. */
  datatype Status =
    | Calling
    | Waiting(pos: nat)
    | Completed(pos: nat, at: nat, nth: nat, c: Completion)
    | Refused(err: Error)

  datatype Call = Call(op: OpId, status: Status)

  datatype Stopper = NotStopped | Stopping | StopOk | StopCanceled

  /** `log` and `submitted` are history: the operations executed and submitted so far; `cut` is
      how many had been submitted when the loop last saw its channel empty. */
  datatype Sys = Sys(
    round: Round, queue: seq<OpId>, phase: Phase, stopper: Stopper,
    calls: map<nat, Call>, taken: map<OpId, nat>,
    log: seq<OpId>, submitted: seq<OpId>, cut: nat)

  datatype Label =
    | Invoke(call: nat, op: OpId)
    | Submit(call: nat)
    | RefuseSubmit(call: nat, err: Error)
    | TakeCompletion(call: nat)
    | RefuseWait(call: nat, err: Error)
    | Receive
    | SeeClose
    | SeeEmpty
    | Exit
    | Stop
    | StopReturn(result: Stopper)

  const Initial := Sys(NewRound, [], Serving, NotStopped, map[], map[], [], [], 0)

  function Taken(s: Sys, i: OpId): nat {
    if i in s.taken then s.taken[i] else 0
  }

  function SetStatus(s: Sys, call: nat, status: Status): Sys
    requires call in s.calls
  {
    s.(calls := s.calls[call := s.calls[call].(status := status)])
  }

  /** The round after the loop executes the operation at the head of the channel. */
  function Executed(incs: seq<Includer>, ops: OpId -> Op, s: Sys): Round
    requires s.queue != []
  {
    DoOp(incs, s.round, s.queue[0], ops(s.queue[0]))
  }

  /** Completion channels hold one element, so a send waits until the last one was taken. */
  ghost predicate HasRoom(s: Sys, r: Round) {
    forall i :: |SentTo(r, i)| <= Taken(s, i) + 1
  }

  /** Closed by the stop, or by the caller's context at any time. */
  /** Operations that can be under way: the channel's, and one more while the loop is there to have
      it in hand. */
  function Capacity(s: Sys): nat {
    CHANNEL_SIZE + if s.phase in {Serving, Draining} then 1 else 0
  }

  predicate MayRefuse(s: Sys, err: Error) {
    err == Canceled || (err == ClosedRound && s.phase == Exited)
  }

  /** The state after the loop executes the operation at the head of the channel. */
  function ExecuteNext(incs: seq<Includer>, ops: OpId -> Op, s: Sys): Sys
    requires s.queue != []
  {
    s.(round := Executed(incs, ops, s), queue := s.queue[1..], log := s.log + [s.queue[0]])
  }

  /** The loop receives and executes an operation. */
  ghost predicate Receives(incs: seq<Includer>, ops: OpId -> Op, s: Sys, s': Sys) {
    && s.phase in {Serving, Draining} && s.queue != []
    && HasRoom(s, Executed(incs, ops, s)) && s' == ExecuteNext(incs, ops, s)
  }

  /** All other steps; they leave the round alone. */
  ghost predicate Moves(s: Sys, l: Label, s': Sys)
    requires l != Receive
  {
    match l
    case Invoke(c, op) =>
      c !in s.calls && s' == s.(calls := s.calls[c := Call(op, Calling)])
    case Submit(c) =>
      && c in s.calls && s.calls[c].status == Calling && |s.queue| < Capacity(s)
      && s' == SetStatus(s, c, Waiting(|s.submitted|)).(
                 queue := s.queue + [s.calls[c].op], submitted := s.submitted + [s.calls[c].op])
    case RefuseSubmit(c, err) =>
      && c in s.calls && s.calls[c].status == Calling && MayRefuse(s, err)
      && s' == SetStatus(s, c, Refused(err))
    case TakeCompletion(c) =>
      && c in s.calls && s.calls[c].status.Waiting?
      && var op, nth := s.calls[c].op, Taken(s, s.calls[c].op);
      && nth < |SentTo(s.round, op)|
      && s' == SetStatus(s, c, Completed(s.calls[c].status.pos, |s.log|, nth, SentTo(s.round, op)[nth])).(
                 taken := s.taken[op := nth + 1])
    case RefuseWait(c, err) =>
      && c in s.calls && s.calls[c].status.Waiting? && MayRefuse(s, err)
      && s' == SetStatus(s, c, Refused(err))
    case SeeClose =>
      s.phase == Serving && s.stopper != NotStopped && s' == s.(phase := Draining)
    case SeeEmpty =>
      s.phase == Draining && s.queue == [] && s' == s.(phase := Exiting, cut := |s.submitted|)
    case Exit =>
      s.phase == Exiting && s' == s.(phase := Exited)
    case Stop =>
      s.stopper == NotStopped && s' == s.(stopper := Stopping)
    case StopReturn(result) =>
      && s.stopper == Stopping && s' == s.(stopper := result)
      && (result == StopCanceled || (result == StopOk && s.phase == Exited))
  }

  ghost predicate Step(incs: seq<Includer>, ops: OpId -> Op, s: Sys, l: Label, s': Sys) {
    if l == Receive then Receives(incs, ops, s, s') else Moves(s, l, s')
  }

  ghost predicate IsRun(incs: seq<Includer>, ops: OpId -> Op, states: seq<Sys>, labels: seq<Label>) {
    && |states| == |labels| + 1 && states[0] == Initial
    && forall i :: 0 <= i < |labels| ==> Step(incs, ops, states[i], labels[i], states[i + 1])
  }

  // ----- The invariant -----

  ghost predicate CallOk(s: Sys, call: Call) {
    match call.status
    case Waiting(pos) => pos < |s.submitted| && s.submitted[pos] == call.op
    case Completed(pos, at, nth, c) =>
      && pos < |s.submitted| && s.submitted[pos] == call.op && at <= |s.log|
      && nth < |SentTo(s.round, call.op)| && SentTo(s.round, call.op)[nth] == c
      && (Count(s.submitted, call.op) == 1 ==> pos < at)
    case _ => true
  }

  ghost predicate Inv(incs: seq<Includer>, ops: OpId -> Op, s: Sys) {
    && s.round == Run(incs, ops, s.log)
    && s.submitted == s.log + s.queue
    && (s.phase in {Exiting, Exited} ==> s.cut == |s.log|)
    && (s.stopper == StopOk ==> s.phase == Exited)
    && (forall c :: c in s.calls ==> CallOk(s, s.calls[c]))
  }

  lemma {:induction false} CountAppend(a: seq<OpId>, b: seq<OpId>, i: OpId)
    ensures Count(a + b, i) == Count(a, i) + Count(b, i)
  {
    if b == [] {
      assert a + b == a;
    } else {
      CountAppend(a, b[..|b| - 1], i);
      assert (a + b)[..|a + b| - 1] == a + b[..|b| - 1];
    }
  }

  lemma {:induction false} CountPositive(a: seq<OpId>, i: OpId)
    ensures Count(a, i) > 0 <==> i in a
  {
    if a != [] {
      CountPositive(a[..|a| - 1], i);
      assert a == a[..|a| - 1] + [a[|a| - 1]];
    }
  }

  /** An operation submitted once and already executed was executed at its own position. */
  lemma ExecutedAtPosition(log: seq<OpId>, queue: seq<OpId>, pos: nat)
    requires pos < |log + queue| && Count(log + queue, (log + queue)[pos]) == 1
    requires Count(log, (log + queue)[pos]) > 0
    ensures pos < |log|
  {
    var op := (log + queue)[pos];
    if |log| <= pos { InQueue(log, queue, pos); }
    CountAppend(log, queue, op);
    CountPositive(queue, op);
  }

  lemma InQueue(log: seq<OpId>, queue: seq<OpId>, pos: nat)
    requires |log| <= pos < |log + queue|
    ensures (log + queue)[pos] in queue
  {
    assert (log + queue)[pos] == queue[pos - |log|];
  }

  /** Completions are only ever appended. */
  lemma SentGrows(incs: seq<Includer>, r: Round, i: OpId, op: Op, j: OpId)
    ensures SentTo(r, j) <= SentTo(DoOp(incs, r, i, op), j)
  {
  }

  lemma ExecutedIsRun(incs: seq<Includer>, ops: OpId -> Op, s: Sys)
    requires s.queue != [] && s.round == Run(incs, ops, s.log)
    ensures Executed(incs, ops, s) == Run(incs, ops, s.log + [s.queue[0]])
  {
    RunAppend(incs, ops, s.log, s.queue[0]);
  }

  lemma RunAppend(incs: seq<Includer>, ops: OpId -> Op, log: seq<OpId>, i: OpId)
    ensures Run(incs, ops, log + [i]) == DoOp(incs, Run(incs, ops, log), i, ops(i))
  {
    assert (log + [i])[..|log|] == log;
  }

  lemma ReceiveKeepsCall(incs: seq<Includer>, ops: OpId -> Op, s: Sys, s': Sys, call: Call)
    requires CallOk(s, call) && Step(incs, ops, s, Receive, s') && s'.submitted == s.submitted
    ensures CallOk(s', call)
  {
    SentGrows(incs, s.round, s.queue[0], ops(s.queue[0]), call.op);
  }

  lemma ReceiveKeepsRun(incs: seq<Includer>, ops: OpId -> Op, s: Sys)
    requires s.queue != [] && s.round == Run(incs, ops, s.log) && s.submitted == s.log + s.queue
    ensures var s' := ExecuteNext(incs, ops, s);
            s'.round == Run(incs, ops, s'.log) && s'.submitted == s'.log + s'.queue
  {
    ExecutedIsRun(incs, ops, s);
    NextInQueue(s.log, s.queue);
  }

  lemma NextInQueue(log: seq<OpId>, queue: seq<OpId>)
    requires queue != []
    ensures log + queue == log + [queue[0]] + queue[1..]
  {
  }

  lemma ReceiveKeepsInv(incs: seq<Includer>, ops: OpId -> Op, s: Sys, s': Sys)
    requires Inv(incs, ops, s) && Step(incs, ops, s, Receive, s')
    ensures Inv(incs, ops, s')
  {
    ReceiveKeepsRun(incs, ops, s);
    forall c | c in s'.calls ensures CallOk(s', s'.calls[c]) {
      ReceiveKeepsCall(incs, ops, s, s', s.calls[c]);
    }
  }

  lemma SubmitKeepsInv(incs: seq<Includer>, ops: OpId -> Op, s: Sys, c: nat, s': Sys)
    requires Inv(incs, ops, s) && Step(incs, ops, s, Submit(c), s')
    ensures Inv(incs, ops, s')
  {
    forall d | d in s'.calls ensures CallOk(s', s'.calls[d]) {
      assert CallOk(s, s.calls[d]);
      CountAppend(s.submitted, [s.calls[c].op], s.calls[d].op);
      if d != c && s.calls[d].status.Completed? {
        CountPositive(s.submitted, s.calls[d].op);
      }
    }
  }

  lemma TakeKeepsInv(incs: seq<Includer>, ops: OpId -> Op, s: Sys, c: nat, s': Sys)
    requires Inv(incs, ops, s) && Step(incs, ops, s, TakeCompletion(c), s')
    ensures Inv(incs, ops, s')
  {
    var op := s.calls[c].op;
    assert CallOk(s, s.calls[c]);
    OpConservation(incs, ops, s.log, op);
    if Count(s.submitted, op) == 1 {
      ExecutedAtPosition(s.log, s.queue, s.calls[c].status.pos);
    }
    forall d | d in s'.calls ensures CallOk(s', s'.calls[d]) {
      assert d != c ==> CallOk(s, s.calls[d]);
    }
  }

  lemma OthersKeepInv(incs: seq<Includer>, ops: OpId -> Op, s: Sys, l: Label, s': Sys)
    requires Inv(incs, ops, s) && l != Receive && Moves(s, l, s') && !l.Submit? && !l.TakeCompletion?
    ensures Inv(incs, ops, s')
  {
    forall d | d in s'.calls ensures CallOk(s', s'.calls[d]) {
      assert d in s.calls ==> CallOk(s, s.calls[d]);
    }
  }

  lemma StepKeepsInv(incs: seq<Includer>, ops: OpId -> Op, s: Sys, l: Label, s': Sys)
    requires Inv(incs, ops, s) && Step(incs, ops, s, l, s')
    ensures Inv(incs, ops, s')
  {
    match l
    case Receive => ReceiveKeepsInv(incs, ops, s, s');
    case Submit(c) => SubmitKeepsInv(incs, ops, s, c, s');
    case TakeCompletion(c) => TakeKeepsInv(incs, ops, s, c, s');
    case _ => OthersKeepInv(incs, ops, s, l, s');
  }

  lemma {:induction false} RunKeepsInv(incs: seq<Includer>, ops: OpId -> Op, states: seq<Sys>, labels: seq<Label>, i: nat)
    requires IsRun(incs, ops, states, labels) && i < |states|
    ensures Inv(incs, ops, states[i])
  {
    if i > 0 {
      RunKeepsInv(incs, ops, states, labels, i - 1);
      StepKeepsInv(incs, ops, states[i - 1], labels[i - 1], states[i]);
    }
  }

  // ----- Theorems -----

  /** At every point of every interleaving the round is what running the executed operations
      one at a time gives, they are the submitted ones in channel order, each once, a call that
      returned with a completion got one of its operation's sequential completions, and if the
      operation was submitted once, the only one, from an execution that lies between its
      submission and its return. */
  lemma Linearizable(incs: seq<Includer>, ops: OpId -> Op, states: seq<Sys>, labels: seq<Label>, i: nat, c: nat)
    requires IsRun(incs, ops, states, labels) && i < |states|
    ensures var s := states[i];
            && s.round == Run(incs, ops, s.log) && s.log <= s.submitted
            && (c in s.calls && s.calls[c].status.Completed? && Count(s.submitted, s.calls[c].op) == 1 ==>
                  var st := s.calls[c].status;
                  && st.pos < st.at <= |s.log| && s.log[st.pos] == s.calls[c].op
                  && SentTo(Run(incs, ops, s.log), s.calls[c].op) == [st.c])
            && (c in s.calls && s.calls[c].status.Completed? ==>
                  var st := s.calls[c].status;
                  st.nth < |SentTo(Run(incs, ops, s.log), s.calls[c].op)| &&
                  SentTo(Run(incs, ops, s.log), s.calls[c].op)[st.nth] == st.c)
  {
    RunKeepsInv(incs, ops, states, labels, i);
    var s := states[i];
    if c in s.calls && s.calls[c].status.Completed? && Count(s.submitted, s.calls[c].op) == 1 {
      OpConservation(incs, ops, s.log, s.calls[c].op);
      CompletedOnce(s, s.calls[c]);
    }
  }

  lemma CompletedOnce(s: Sys, call: Call)
    requires s.submitted == s.log + s.queue && |SentTo(s.round, call.op)| <= Count(s.log, call.op)
    requires CallOk(s, call) && call.status.Completed? && Count(s.submitted, call.op) == 1
    ensures call.status.pos < call.status.at <= |s.log| && s.log[call.status.pos] == call.op
    ensures SentTo(s.round, call.op) == [call.status.c]
  {
    CountAppend(s.log, s.queue, call.op);
  }

  /** Channel order respects real time: what had returned before a submission was executed before it. */
  lemma RealTimeOrder(incs: seq<Includer>, ops: OpId -> Op, states: seq<Sys>, labels: seq<Label>, i: nat, c: nat, d: nat)
    requires IsRun(incs, ops, states, labels) && i < |labels| && labels[i] == Submit(c)
    requires d in states[i].calls && states[i].calls[d].status.Completed?
    requires Count(states[i].submitted, states[i].calls[d].op) == 1
    ensures states[i + 1].calls[c].status == Waiting(|states[i].submitted|)
    ensures states[i].calls[d].status.pos < |states[i].log| <= |states[i].submitted|
  {
    RunKeepsInv(incs, ops, states, labels, i);
    assert CallOk(states[i], states[i].calls[d]);
    assert Step(incs, ops, states[i], labels[i], states[i + 1]);
  }

  /** If the loop is stuck on a completion channel, some operation was submitted more than once
      and its last completion was never taken; so operations submitted once never block it. */
  lemma LoopBlocksOnlyOnResubmission(incs: seq<Includer>, ops: OpId -> Op, s: Sys)
    requires Inv(incs, ops, s) && s.queue != [] && !HasRoom(s, Executed(incs, ops, s))
    ensures exists i :: Count(s.submitted, i) >= 2 && Taken(s, i) < |SentTo(Executed(incs, ops, s), i)|
  {
    var i :| |SentTo(Executed(incs, ops, s), i)| > Taken(s, i) + 1;
    CompletionsBounded(incs, ops, s, i);
  }

  lemma CompletionsBounded(incs: seq<Includer>, ops: OpId -> Op, s: Sys, i: OpId)
    requires Inv(incs, ops, s) && s.queue != []
    ensures |SentTo(Executed(incs, ops, s), i)| <= Count(s.submitted, i)
  {
    ExecutedIsRun(incs, ops, s);
    CompletionsOfRun(incs, ops, s.log + [s.queue[0]], s.queue[1..], i);
    NextInQueue(s.log, s.queue);
  }

  lemma CompletionsOfRun(incs: seq<Includer>, ops: OpId -> Op, log: seq<OpId>, rest: seq<OpId>, i: OpId)
    ensures |SentTo(Run(incs, ops, log), i)| <= Count(log + rest, i)
  {
    OpConservation(incs, ops, log, i);
    CountAppend(log, rest, i);
  }

  /** Once the drain has seen the channel empty, everything submitted until then was executed in
      order exactly once, and no step of anyone changes the round any more; a stop reports
      success only after that, so its caller owns the quorum again. */
  lemma GracefulStop(incs: seq<Includer>, ops: OpId -> Op, states: seq<Sys>, labels: seq<Label>, i: nat)
    requires IsRun(incs, ops, states, labels) && i < |labels|
    requires states[i].phase in {Exiting, Exited} || states[i].stopper == StopOk
    ensures states[i].cut <= |states[i].submitted| && states[i].log == states[i].submitted[..states[i].cut]
    ensures states[i + 1].round == states[i].round && states[i + 1].log == states[i].log
    ensures states[i + 1].phase in {Exiting, Exited} && states[i + 1].cut == states[i].cut
  {
    RunKeepsInv(incs, ops, states, labels, i);
    assert Step(incs, ops, states[i], labels[i], states[i + 1]);
  }

  /** A caller can submit exactly while fewer than 32 operations are in the channel; the loop, while
      it is there, may have one more in hand. */
  lemma CanSubmit(incs: seq<Includer>, ops: OpId -> Op, s: Sys, c: nat)
    requires c in s.calls && s.calls[c].status == Calling
    ensures (exists s' :: Step(incs, ops, s, Submit(c), s')) <==>
            |s.queue| < if s.phase in {Serving, Draining} then 33 else 32
  {
    var s' := SetStatus(s, c, Waiting(|s.submitted|)).(
      queue := s.queue + [s.calls[c].op], submitted := s.submitted + [s.calls[c].op]);
    assert |s.queue| < Capacity(s) ==> Step(incs, ops, s, Submit(c), s');
  }

  /** No call is left hanging by a stopped round. */
  lemma StoppedCallsCanReturn(incs: seq<Includer>, ops: OpId -> Op, s: Sys, c: nat)
    requires s.phase == Exited && c in s.calls && (s.calls[c].status.Calling? || s.calls[c].status.Waiting?)
    ensures exists l, s' :: Step(incs, ops, s, l, s') && c in s'.calls && s'.calls[c].status == Refused(ClosedRound)
  {
    var s' := SetStatus(s, c, Refused(ClosedRound));
    var l := if s.calls[c].status == Calling then RefuseSubmit(c, ClosedRound) else RefuseWait(c, ClosedRound);
    assert Step(incs, ops, s, l, s');
  }
}
