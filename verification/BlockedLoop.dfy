/** When the event loop blocks on a completion channel, and when it can ever go on. */
module BlockedLoop {
  import opened Wrappers
  import opened Stake
  import opened QuorumSpec
  import opened RoundSpec
  import opened RoundRuns

  /** The loop has an operation in hand, and some completion channel has no room for what it sends. */
  ghost predicate Blocked(incs: seq<Includer>, ops: OpId -> Op, s: Sys) {
    s.phase in {Serving, Draining} && s.queue != [] && !HasRoom(s, Executed(incs, ops, s))
  }

  /** The operations whose channels have no room for what `r` sends, the round that the loop would
      leave. */
  ghost function Full(s: Sys, r: Round): set<OpId> {
    set i | i in r.sent && |SentTo(r, i)| > Taken(s, i) + 1
  }

  /** Some caller of the operation is waiting for a completion. */
  ghost predicate SomeoneWaits(s: Sys, i: OpId) {
    exists c :: c in s.calls && s.calls[c].op == i && s.calls[c].status.Waiting?
  }

  /** Some caller of the operation is about to submit it. */
  ghost predicate SomeoneCalls(s: Sys, i: OpId) {
    exists c :: c in s.calls && s.calls[c].op == i && s.calls[c].status == Calling
  }

  /** The full channels that nobody waits at. */
  ghost function Deserted(s: Sys, r: Round): set<OpId> {
    set i | i in Full(s, r) && !SomeoneWaits(s, i)
  }

  /** Every full channel has a caller that waits at it, or one that can still submit its operation. */
  ghost predicate CanGoOn(s: Sys, r: Round) {
    && (forall i :: i in Deserted(s, r) ==> SomeoneCalls(s, i))
    && |s.queue| + |Deserted(s, r)| <= Capacity(s)
  }

  /** A step that calls one of these operations anew. */
  predicate Renews(l: Label, full: set<OpId>) {
    l.Invoke? && l.op in full
  }

  /** Steps from `states[0]` in which none of these operations is called anew. */
  ghost predicate Continues(incs: seq<Includer>, ops: OpId -> Op, states: seq<Sys>, labels: seq<Label>, full: set<OpId>) {
    && |states| == |labels| + 1
    && forall i :: 0 <= i < |labels| ==> Step(incs, ops, states[i], labels[i], states[i + 1]) && !Renews(labels[i], full)
  }

  /** Completions were sent only where there was room, and operations submitted where there was. */
  ghost predicate RoomOk(s: Sys) {
    HasRoom(s, s.round) && |s.queue| <= Capacity(s)
  }

  lemma MoveKeepsRoom(s: Sys, l: Label, s': Sys)
    requires RoomOk(s) && l != Receive && Moves(s, l, s')
    ensures RoomOk(s')
  {
    forall i ensures |SentTo(s'.round, i)| <= Taken(s', i) + 1 {
      assert |SentTo(s.round, i)| <= Taken(s, i) + 1;
    }
  }

  lemma {:induction false} RunKeepsRoom(incs: seq<Includer>, ops: OpId -> Op, states: seq<Sys>, labels: seq<Label>, i: nat)
    requires IsRun(incs, ops, states, labels) && i < |states|
    ensures RoomOk(states[i])
  {
    if i > 0 {
      RunKeepsRoom(incs, ops, states, labels, i - 1);
      assert Step(incs, ops, states[i - 1], labels[i - 1], states[i]);
      if labels[i - 1] != Receive { MoveKeepsRoom(states[i - 1], labels[i - 1], states[i]); }
    }
  }

  lemma FullHasNoRoom(s: Sys, r: Round)
    ensures HasRoom(s, r) <==> Full(s, r) == {}
  {
    if i :| |SentTo(r, i)| > Taken(s, i) + 1 {
      assert i in Full(s, r);
    }
  }

  // ----- Being stuck -----

  /** A blocked loop stays at its operation. */
  lemma StaysBlocked(incs: seq<Includer>, ops: OpId -> Op, s: Sys, l: Label, s': Sys)
    requires Blocked(incs, ops, s) && Step(incs, ops, s, l, s')
    ensures l != Receive && Moves(s, l, s') && s'.queue != [] && s'.phase in {Serving, Draining}
    ensures s'.log == s.log && s'.round == s.round && (s'.stopper == StopOk ==> s.stopper == StopOk)
    ensures Executed(incs, ops, s') == Executed(incs, ops, s)
  {
  }

  /** The operation that a step submits, if any. */
  function Submits(s: Sys, l: Label): set<OpId> {
    if l.Submit? && l.call in s.calls then {s.calls[l.call].op} else {}
  }

  lemma WhoCallsAndWaits(s: Sys, l: Label, s': Sys, i: OpId)
    requires l != Receive && Moves(s, l, s') && !Renews(l, {i})
    ensures SomeoneCalls(s', i) ==> SomeoneCalls(s, i)
    ensures SomeoneWaits(s', i) ==> SomeoneWaits(s, i) || i in Submits(s, l)
    ensures i in Submits(s, l) ==> SomeoneCalls(s, i)
    ensures Taken(s', i) != Taken(s, i) ==> SomeoneWaits(s, i)
  {
    if c :| c in s'.calls && s'.calls[c].op == i && s'.calls[c].status == Calling {
      assert c in s.calls && s.calls[c] == s'.calls[c];
    }
    if c :| c in s'.calls && s'.calls[c].op == i && s'.calls[c].status.Waiting? && i !in Submits(s, l) {
      assert c in s.calls && s.calls[c] == s'.calls[c];
    }
  }

  lemma WhatGrows(s: Sys, l: Label, s': Sys, i: OpId)
    requires l != Receive && Moves(s, l, s')
    ensures Taken(s, i) <= Taken(s', i)
    ensures |s.queue| + |Submits(s, l)| == |s'.queue|
    ensures s.phase in {Serving, Draining} && s'.phase in {Serving, Draining} ==> Capacity(s') == Capacity(s)
  {
  }

  /** A deserted channel stays deserted until its operation is submitted. */
  lemma StaysDeserted(s: Sys, l: Label, s': Sys, r: Round, i: OpId)
    requires l != Receive && Moves(s, l, s') && !Renews(l, {i})
    requires i in Deserted(s, r) && i !in Submits(s, l)
    ensures i in Deserted(s', r)
  {
    WhoCallsAndWaits(s, l, s', i);
  }

  /** No step makes it possible for a blocked loop to go on, unless it calls anew for a full channel. */
  lemma StaysStuck(s: Sys, l: Label, s': Sys, r: Round)
    requires l != Receive && Moves(s, l, s') && !Renews(l, Full(s, r)) && Capacity(s') == Capacity(s)
    ensures Full(s', r) <= Full(s, r)
    ensures CanGoOn(s', r) ==> CanGoOn(s, r)
  {
    forall i ensures Taken(s, i) <= Taken(s', i) && |s.queue| + |Submits(s, l)| == |s'.queue| {
      WhatGrows(s, l, s', i);
    }
    forall i | i in Deserted(s, r)
      ensures i in Deserted(s', r) || i in Submits(s, l)
      ensures SomeoneCalls(s', i) || i in Submits(s, l) ==> SomeoneCalls(s, i) {
      WhoCallsAndWaits(s, l, s', i);
      if i !in Submits(s, l) { StaysDeserted(s, l, s', r, i); }
    }
    AtMostOneMore(Deserted(s, r), Deserted(s', r), Submits(s, l));
  }

  lemma AtMostOneMore(a: set<OpId>, b: set<OpId>, c: set<OpId>)
    requires a <= b + c
    ensures |a| <= |b| + |c|
  {
    var d := b + c;
    assert |d| <= |b| + |c|;
    assert |a| + |d - a| == |d| by { assert a + (d - a) == d; }
  }

  /** Where nothing blocks, the loop can go on. */
  lemma RoomCanGoOn(s: Sys, r: Round)
    requires RoomOk(s) && HasRoom(s, r)
    ensures CanGoOn(s, r)
  {
    FullHasNoRoom(s, r);
    assert Deserted(s, r) == {};
  }

  /** Stuck at leaving the round as `r`. */
  ghost predicate Stuck(incs: seq<Includer>, ops: OpId -> Op, s: Sys, r: Round) {
    && RoomOk(s) && s.phase in {Serving, Draining} && s.queue != [] && Executed(incs, ops, s) == r
    && !CanGoOn(s, r)
  }

  lemma StuckStep(incs: seq<Includer>, ops: OpId -> Op, s: Sys, l: Label, s': Sys, r: Round)
    requires Stuck(incs, ops, s, r) && Step(incs, ops, s, l, s') && !Renews(l, Full(s, r))
    ensures l != Receive && Stuck(incs, ops, s', r) && Full(s', r) <= Full(s, r)
    ensures s'.log == s.log && (s'.stopper == StopOk ==> s.stopper == StopOk)
  {
    if HasRoom(s, r) { RoomCanGoOn(s, r); }
    StaysBlocked(incs, ops, s, l, s');
    WhatGrows(s, l, s', 0);
    StaysStuck(s, l, s', r);
    MoveKeepsRoom(s, l, s');
  }

  /** A loop that is stuck never executes anything again, and no stop ever succeeds, as long as no
      operation with a full channel is called anew. */
  lemma {:induction false} StuckForGood(incs: seq<Includer>, ops: OpId -> Op, states: seq<Sys>, labels: seq<Label>, r: Round)
    requires |states| > 0 && Stuck(incs, ops, states[0], r) && Continues(incs, ops, states, labels, Full(states[0], r))
    ensures Stuck(incs, ops, states[|labels|], r) && Full(states[|labels|], r) <= Full(states[0], r)
    ensures states[|labels|].log == states[0].log
    ensures states[|labels|].stopper == StopOk ==> states[0].stopper == StopOk
    decreases |labels|
  {
    if labels != [] {
      var n := |labels| - 1;
      StuckForGood(incs, ops, states[..n + 1], labels[..n], r);
      assert Step(incs, ops, states[n], labels[n], states[n + 1]);
      StuckStep(incs, ops, states[n], labels[n], states[n + 1], r);
    }
  }

  // ----- Going on -----

  /** An execution sends at most one completion to each operation. */
  lemma OneCompletionEach(incs: seq<Includer>, ops: OpId -> Op, r: Round, i: OpId, j: OpId)
    requires WaitersOk(ops, r)
    ensures |SentTo(DoOp(incs, r, i, ops(i)), j)| <= |SentTo(r, j)| + 1
  {
  }

  /** At a full channel there is exactly one completion to take. */
  ghost predicate OneToTake(s: Sys, r: Round) {
    forall i :: i in Full(s, r) ==> |SentTo(s.round, i)| == Taken(s, i) + 1 == |SentTo(r, i)| - 1
  }

  lemma FullHasOneToTake(incs: seq<Includer>, ops: OpId -> Op, s: Sys)
    requires Inv(incs, ops, s) && RoomOk(s) && s.queue != []
    ensures OneToTake(s, Executed(incs, ops, s))
  {
    OpConservation(incs, ops, s.log, 0);
    var r := Executed(incs, ops, s);
    forall i | i in Full(s, r) ensures |SentTo(s.round, i)| == Taken(s, i) + 1 == |SentTo(r, i)| - 1 {
      OneCompletionEach(incs, ops, s.round, s.queue[0], i);
    }
  }

  /** Who waits at a full channel can take a completion from it, and then it has room. */
  lemma TakingMakesRoom(s: Sys, r: Round, c: nat) returns (s': Sys)
    requires OneToTake(s, r) && c in s.calls && s.calls[c].status.Waiting? && s.calls[c].op in Full(s, r)
    ensures Moves(s, TakeCompletion(c), s') && s'.queue == s.queue && s'.phase == s.phase && s'.round == s.round
    ensures Full(s', r) == Full(s, r) - {s.calls[c].op}
    ensures forall i :: i != s.calls[c].op ==>
              (SomeoneWaits(s, i) ==> SomeoneWaits(s', i)) && (SomeoneCalls(s, i) ==> SomeoneCalls(s', i))
  {
    var op := s.calls[c].op;
    var nth := Taken(s, op);
    s' := SetStatus(s, c, Completed(s.calls[c].status.pos, |s.log|, nth, SentTo(s.round, op)[nth])).(
      taken := s.taken[op := nth + 1]);
    forall i | i != op ensures
        (SomeoneWaits(s, i) ==> SomeoneWaits(s', i)) && (SomeoneCalls(s, i) ==> SomeoneCalls(s', i)) {
      OthersStay(s, s', c, i);
    }
  }

  lemma OthersStay(s: Sys, s': Sys, c: nat, i: OpId)
    requires c in s.calls && s.calls[c].op != i && c in s'.calls && s'.calls == s.calls[c := s'.calls[c]]
    ensures SomeoneWaits(s, i) ==> SomeoneWaits(s', i)
    ensures SomeoneCalls(s, i) ==> SomeoneCalls(s', i)
  {
    if d :| d in s.calls && s.calls[d].op == i && s.calls[d].status.Waiting? {
      assert s'.calls[d] == s.calls[d];
    }
    if d :| d in s.calls && s.calls[d].op == i && s.calls[d].status == Calling {
      assert s'.calls[d] == s.calls[d];
    }
  }

  /** A caller at a deserted channel can submit, and then waits there. */
  lemma SubmittingWaits(s: Sys, r: Round, c: nat) returns (s': Sys)
    requires s.queue != [] && c in s.calls && s.calls[c].status == Calling && |s.queue| < Capacity(s)
    requires s.calls[c].op in Deserted(s, r)
    ensures Moves(s, Submit(c), s') && |s'.queue| == |s.queue| + 1 && s'.queue[0] == s.queue[0]
    ensures s'.phase == s.phase && s'.round == s.round && Full(s', r) == Full(s, r)
    ensures Deserted(s', r) == Deserted(s, r) - {s.calls[c].op}
    ensures forall i :: i != s.calls[c].op && SomeoneCalls(s, i) ==> SomeoneCalls(s', i)
  {
    var op := s.calls[c].op;
    s' := SetStatus(s, c, Waiting(|s.submitted|)).(queue := s.queue + [op], submitted := s.submitted + [op]);
    assert SomeoneWaits(s', op) by { assert s'.calls[c].status.Waiting?; }
    forall i | i != op ensures SomeoneWaits(s', i) <==> SomeoneWaits(s, i)
      ensures SomeoneCalls(s, i) ==> SomeoneCalls(s', i) {
      OthersStay(s, s', c, i);
      OthersStay(s', s, c, i);
    }
  }

  /** Closer to room: fewer full channels, or fewer of them deserted. */
  ghost predicate Closer(s: Sys, s': Sys, r: Round) {
    |Full(s', r)| < |Full(s, r)| || (|Full(s', r)| == |Full(s, r)| && |Deserted(s', r)| < |Deserted(s, r)|)
  }

  lemma TakeOne(s: Sys, r: Round, i: OpId) returns (c: nat, s': Sys)
    requires OneToTake(s, r) && CanGoOn(s, r) && i in Full(s, r) && SomeoneWaits(s, i)
    ensures Moves(s, TakeCompletion(c), s') && CanGoOn(s', r) && Closer(s, s', r)
    ensures s'.queue == s.queue && s'.phase == s.phase && s'.round == s.round
  {
    c :| c in s.calls && s.calls[c].op == i && s.calls[c].status.Waiting?;
    s' := TakingMakesRoom(s, r, c);
    AtMostOneMore(Deserted(s', r), Deserted(s, r), {});
  }

  lemma SubmitOne(s: Sys, r: Round, i: OpId) returns (c: nat, s': Sys)
    requires s.queue != [] && CanGoOn(s, r) && i in Deserted(s, r)
    ensures Moves(s, Submit(c), s') && CanGoOn(s', r) && Closer(s, s', r)
    ensures s'.queue != [] && s'.queue[0] == s.queue[0] && s'.phase == s.phase && s'.round == s.round
  {
    c :| c in s.calls && s.calls[c].op == i && s.calls[c].status == Calling;
    s' := SubmittingWaits(s, r, c);
  }

  /** One step towards room: a caller that waits takes its completion, or one that does not yet wait
      submits. */
  lemma OneStepOn(s: Sys, r: Round) returns (l: Label, s': Sys)
    requires OneToTake(s, r) && s.queue != [] && Full(s, r) != {} && CanGoOn(s, r)
    ensures l != Receive && !l.Invoke? && Moves(s, l, s') && CanGoOn(s', r) && Closer(s, s', r)
    ensures s'.queue != [] && s'.queue[0] == s.queue[0] && s'.phase == s.phase && s'.round == s.round
  {
    var i :| i in Full(s, r);
    var c;
    if SomeoneWaits(s, i) {
      c, s' := TakeOne(s, r, i);
      l := TakeCompletion(c);
    } else {
      c, s' := SubmitOne(s, r, i);
      l := Submit(c);
    }
  }

  /** A run from `states[0]` that ends with the loop executing an operation. */
  ghost predicate GoesOn(incs: seq<Includer>, ops: OpId -> Op, states: seq<Sys>, labels: seq<Label>, full: set<OpId>) {
    Continues(incs, ops, states, labels, full) && labels != [] && labels[|labels| - 1] == Receive
  }

  lemma Prepend(incs: seq<Includer>, ops: OpId -> Op, s: Sys, l: Label,
    states: seq<Sys>, labels: seq<Label>, full: set<OpId>)
    requires GoesOn(incs, ops, states, labels, full) && Step(incs, ops, s, l, states[0]) && !Renews(l, full)
    ensures GoesOn(incs, ops, [s] + states, [l] + labels, full)
  {
    var all, more := [s] + states, [l] + labels;
    forall i | 0 <= i < |more| ensures Step(incs, ops, all[i], more[i], all[i + 1]) && !Renews(more[i], full) {
      if i > 0 { assert more[i] == labels[i - 1] && all[i] == states[i - 1] && all[i + 1] == states[i]; }
    }
  }

  /** The callers of the full channels can make room. */
  lemma {:induction false} GoOn(incs: seq<Includer>, ops: OpId -> Op, s: Sys, r: Round, full: set<OpId>)
    returns (states: seq<Sys>, labels: seq<Label>)
    requires Inv(incs, ops, s) && RoomOk(s) && s.phase in {Serving, Draining} && s.queue != []
    requires r == Executed(incs, ops, s) && CanGoOn(s, r)
    ensures GoesOn(incs, ops, states, labels, full) && states[0] == s
    decreases |Full(s, r)|, |Deserted(s, r)|
  {
    FullHasNoRoom(s, r);
    if Full(s, r) == {} {
      states, labels := [s, ExecuteNext(incs, ops, s)], [Receive];
    } else {
      FullHasOneToTake(incs, ops, s);
      var l, s' := OneStepOn(s, r);
      StepKeepsInv(incs, ops, s, l, s');
      MoveKeepsRoom(s, l, s');
      states, labels := GoOn(incs, ops, s', r, full);
      Prepend(incs, ops, s, l, states, labels, full);
      states, labels := [s] + states, [l] + labels;
    }
  }

  /** A blocked loop can ever execute anything again, without an operation with a full channel being
      called anew, if and only if each full channel has a caller that waits at it, or one that can
      still submit its operation. So once all callers of one of them have returned, it never does,
      and no stop succeeds. */
  lemma BlockedGoesOnExactly(incs: seq<Includer>, ops: OpId -> Op, states: seq<Sys>, labels: seq<Label>, k: nat)
    requires IsRun(incs, ops, states, labels) && k < |states| && Blocked(incs, ops, states[k])
    ensures var s, r := states[k], Executed(incs, ops, states[k]);
            (exists more, moreLabels :: GoesOn(incs, ops, more, moreLabels, Full(s, r)) && more[0] == s) <==> CanGoOn(s, r)
  {
    var s, r := states[k], Executed(incs, ops, states[k]);
    RunKeepsRoom(incs, ops, states, labels, k);
    if CanGoOn(s, r) {
      RunKeepsInv(incs, ops, states, labels, k);
      var more, moreLabels := GoOn(incs, ops, s, r, Full(s, r));
    } else if more, moreLabels :| GoesOn(incs, ops, more, moreLabels, Full(s, r)) && more[0] == s {
      StuckNeverReceives(incs, ops, more, moreLabels, r);
    }
  }

  lemma StuckNeverReceives(incs: seq<Includer>, ops: OpId -> Op, states: seq<Sys>, labels: seq<Label>, r: Round)
    requires |states| > 0 && Stuck(incs, ops, states[0], r)
    ensures !GoesOn(incs, ops, states, labels, Full(states[0], r))
  {
    if GoesOn(incs, ops, states, labels, Full(states[0], r)) {
      var n := |labels| - 1;
      StuckForGood(incs, ops, states[..n + 1], labels[..n], r);
      assert Step(incs, ops, states[n], labels[n], states[n + 1]);
      StuckStep(incs, ops, states[n], labels[n], states[n + 1], r);
    }
  }

  // ----- Stopping -----

  /** Steps from `s` to a successful stop. */
  ghost predicate StopsFrom(incs: seq<Includer>, ops: OpId -> Op, s: Sys, states: seq<Sys>, labels: seq<Label>) {
    && Continues(incs, ops, states, labels, {}) && states[0] == s
    && states[|labels|].stopper == StopOk && states[|labels|].log == s.log + s.queue
  }

  lemma StopsFromNext(incs: seq<Includer>, ops: OpId -> Op, s: Sys, l: Label, s': Sys, states: seq<Sys>, labels: seq<Label>)
    requires Step(incs, ops, s, l, s') && StopsFrom(incs, ops, s', states, labels)
    requires s'.log + s'.queue == s.log + s.queue
    ensures StopsFrom(incs, ops, s, [s] + states, [l] + labels)
  {
    var all, more := [s] + states, [l] + labels;
    forall i | 0 <= i < |more| ensures Step(incs, ops, all[i], more[i], all[i + 1]) && !Renews(more[i], {}) {
      if i > 0 { assert more[i] == labels[i - 1] && all[i] == states[i - 1] && all[i + 1] == states[i]; }
    }
    assert all[|more|] == states[|labels|];
  }

  /** An empty channel is left behind at once. */
  lemma EmptyStops(incs: seq<Includer>, ops: OpId -> Op, s: Sys) returns (states: seq<Sys>, labels: seq<Label>)
    requires s.stopper == Stopping && s.queue == []
    ensures StopsFrom(incs, ops, s, states, labels)
    decreases match s.phase case Serving => 3 case Draining => 2 case Exiting => 1 case Exited => 0
  {
    if s.phase == Exited {
      states, labels := [s, s.(stopper := StopOk)], [StopReturn(StopOk)];
      assert s.log + s.queue == s.log;
    } else {
      var (l, s') :=
        match s.phase
        case Serving => (SeeClose, s.(phase := Draining))
        case Draining => (SeeEmpty, s.(phase := Exiting, cut := |s.submitted|))
        case _ => (Exit, s.(phase := Exited));
      states, labels := EmptyStops(incs, ops, s');
      StopsFromNext(incs, ops, s, l, s', states, labels);
      states, labels := [s] + states, [l] + labels;
    }
  }

  /** From every point of a run in which no operation was submitted twice, as long as the loop is
      there, a stop can succeed without anybody's help: the loop executes what is in the channel, in
      order, and leaves. */
  lemma {:induction false} StopCanSucceed(incs: seq<Includer>, ops: OpId -> Op, s: Sys)
    returns (states: seq<Sys>, labels: seq<Label>)
    requires Inv(incs, ops, s) && s.stopper == Stopping && (s.queue != [] ==> s.phase in {Serving, Draining})
    requires forall i :: Count(s.submitted, i) <= 1
    ensures StopsFrom(incs, ops, s, states, labels)
    decreases |s.queue|
  {
    if s.queue == [] {
      states, labels := EmptyStops(incs, ops, s);
    } else {
      if !HasRoom(s, Executed(incs, ops, s)) {
        LoopBlocksOnlyOnResubmission(incs, ops, s);
      }
      var s' := ExecuteNext(incs, ops, s);
      StepKeepsInv(incs, ops, s, Receive, s');
      NextInQueue(s.log, s.queue);
      states, labels := StopCanSucceed(incs, ops, s');
      StopsFromNext(incs, ops, s, Receive, s', states, labels);
      states, labels := [s] + states, [Receive] + labels;
    }
  }

  // ----- It happens -----

  function Asking(msg: Message): OpId -> Op {
    i => if i == 0 then GetOp(msg.id) else AddOp(msg)
  }

  ghost predicate SysReached(incs: seq<Includer>, ops: OpId -> Op, s: Sys) {
    exists states, labels :: IsRun(incs, ops, states, labels) && states[|labels|] == s
  }

  lemma SysInitial(incs: seq<Includer>, ops: OpId -> Op)
    ensures SysReached(incs, ops, Initial)
  {
    assert IsRun(incs, ops, [Initial], []) && [Initial][0] == Initial;
  }

  lemma SysNext(incs: seq<Includer>, ops: OpId -> Op, s: Sys, l: Label, s': Sys)
    requires SysReached(incs, ops, s) && Step(incs, ops, s, l, s')
    ensures SysReached(incs, ops, s')
  {
    var states, labels :| IsRun(incs, ops, states, labels) && states[|labels|] == s;
    assert IsRun(incs, ops, states + [s'], labels + [l]);
    assert (states + [s'])[|labels + [l]|] == s';
  }

  /** A new caller submits an operation to an idle loop. */
  lemma CallAndSubmit(incs: seq<Includer>, ops: OpId -> Op, s: Sys, c: nat, op: OpId) returns (s': Sys)
    requires SysReached(incs, ops, s) && c !in s.calls && s.queue == [] && s.phase == Serving
    ensures SysReached(incs, ops, s') && s'.calls == s.calls[c := Call(op, Waiting(|s.submitted|))]
    ensures s' == s.(calls := s'.calls, queue := [op], submitted := s.submitted + [op])
  {
    var m := s.(calls := s.calls[c := Call(op, Calling)]);
    SysNext(incs, ops, s, Invoke(c, op), m);
    s' := SetStatus(m, c, Waiting(|s.submitted|)).(queue := m.queue + [op], submitted := s.submitted + [op]);
    SysNext(incs, ops, m, Submit(c), s');
  }

  lemma GiveUp(incs: seq<Includer>, ops: OpId -> Op, s: Sys, c: nat) returns (s': Sys)
    requires SysReached(incs, ops, s) && c in s.calls && s.calls[c].status.Waiting?
    ensures SysReached(incs, ops, s') && s' == SetStatus(s, c, Refused(Canceled))
  {
    s' := SetStatus(s, c, Refused(Canceled));
    SysNext(incs, ops, s, RefuseWait(c, Canceled), s');
  }

  /** The round after the get, after the add, and after the get again. */
  function RoundsOf(incs: seq<Includer>, msg: Message): (Round, Round, Round) {
    var r1 := StateGet(NewRound, 0, msg.id);
    var r2 := StateAdd(incs, r1, 1, msg);
    (r1, r2, StateGet(r2, 0, msg.id))
  }

  lemma CanceledGetCompletesTwice(incs: seq<Includer>, msg: Message)
    requires Member(incs, msg.id.signer)
    ensures var (r1, r2, r3) := RoundsOf(incs, msg);
            && r1.sent == map[]
            && r2.sent == map[0 := [GotCertificate(msg)], 1 := [Done(None)]]
            && r3.sent == map[0 := [GotCertificate(msg), GotCertificate(msg)], 1 := [Done(None)]]
  {
    var (r1, r2, r3) := RoundsOf(incs, msg);
    assert r1.subs[msg.id.hash] == {0};
    assert r2.sent.Keys == {0, 1} && SentTo(r2, 0) == [GotCertificate(msg)] && SentTo(r2, 1) == [Done(None)];
    assert r2.quorum.certs[msg.id.hash].msg == msg;
    assert r3.sent.Keys == {0, 1} && SentTo(r3, 0) == [GotCertificate(msg), GotCertificate(msg)];
  }

  /** The idle loop receives and executes what was submitted. */
  lemma Serve(incs: seq<Includer>, ops: OpId -> Op, s: Sys) returns (s': Sys)
    requires SysReached(incs, ops, s) && s.phase == Serving && |s.queue| == 1 && HasRoom(s, Executed(incs, ops, s))
    ensures SysReached(incs, ops, s') && s' == ExecuteNext(incs, ops, s)
  {
    s' := ExecuteNext(incs, ops, s);
    SysNext(incs, ops, s, Receive, s');
  }

  /** The state at the end: both calls of the get were given up, nobody took anything. */
  ghost predicate GaveUpTwice(msg: Message, s: Sys) {
    && s.phase == Serving && s.queue == [0] && s.taken == map[]
    && forall c :: c in s.calls && s.calls[c].op == 0 ==> s.calls[c].status == Refused(Canceled)
  }

  lemma GaveUpTwiceIsStuck(incs: seq<Includer>, msg: Message, s: Sys)
    requires Member(incs, msg.id.signer) && GaveUpTwice(msg, s) && s.round == RoundsOf(incs, msg).1
    ensures Blocked(incs, Asking(msg), s) && !CanGoOn(s, Executed(incs, Asking(msg), s))
  {
    CanceledGetCompletesTwice(incs, msg);
    var r := RoundsOf(incs, msg).2;
    assert Executed(incs, Asking(msg), s) == r && |SentTo(r, 0)| == 2;
    assert 0 in Deserted(s, r);
  }

  /** The get is parked, and its caller gives up. */
  lemma RunParkedGet(incs: seq<Includer>, msg: Message) returns (s: Sys)
    requires Member(incs, msg.id.signer)
    ensures SysReached(incs, Asking(msg), s) && GaveUpOnce(s) && s.round == RoundsOf(incs, msg).0
  {
    var ops := Asking(msg);
    CanceledGetCompletesTwice(incs, msg);
    SysInitial(incs, ops);
    var s1 := CallAndSubmit(incs, ops, Initial, 0, 0);
    assert Executed(incs, ops, s1) == RoundsOf(incs, msg).0;
    var s2 := Serve(incs, ops, s1);
    s := GiveUp(incs, ops, s2, 0);
  }

  ghost predicate GaveUpOnce(s: Sys) {
    s.phase == Serving && s.queue == [] && s.taken == map[] && s.calls == map[0 := Call(0, Refused(Canceled))]
  }

  /** The add completes it, and nobody takes that. */
  lemma RunAdd(incs: seq<Includer>, msg: Message, s: Sys) returns (s': Sys)
    requires Member(incs, msg.id.signer) && SysReached(incs, Asking(msg), s)
    requires GaveUpOnce(s) && s.round == RoundsOf(incs, msg).0
    ensures SysReached(incs, Asking(msg), s') && s'.round == RoundsOf(incs, msg).1
    ensures s'.phase == Serving && s'.queue == [] && s'.taken == map[]
    ensures s'.calls == s.calls[1 := Call(1, Waiting(|s.submitted|))]
  {
    CanceledGetCompletesTwice(incs, msg);
    var m := CallAndSubmit(incs, Asking(msg), s, 1, 1);
    assert Executed(incs, Asking(msg), m) == RoundsOf(incs, msg).1;
    s' := Serve(incs, Asking(msg), m);
  }

  lemma RunCanceledGet(incs: seq<Includer>, msg: Message) returns (s: Sys)
    requires Member(incs, msg.id.signer)
    ensures SysReached(incs, Asking(msg), s) && GaveUpTwice(msg, s) && s.round == RoundsOf(incs, msg).1
  {
    var s3 := RunParkedGet(incs, msg);
    var s5 := RunAdd(incs, msg, s3);
    var s6 := CallAndSubmit(incs, Asking(msg), s5, 2, 0);
    s := GiveUp(incs, Asking(msg), s6, 2);
  }

  /** A get is canceled after it was parked, an add completes it, its cancellation is executed as a
      second get, and its caller gives that up too: the loop is stuck for good. */
  lemma CanceledGetBlocksLoop(incs: seq<Includer>, msg: Message) returns (s: Sys)
    requires Member(incs, msg.id.signer)
    ensures SysReached(incs, Asking(msg), s)
    ensures Blocked(incs, Asking(msg), s) && !CanGoOn(s, Executed(incs, Asking(msg), s))
  {
    s := RunCanceledGet(incs, msg);
    GaveUpTwiceIsStuck(incs, msg, s);
  }
}
