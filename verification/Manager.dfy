/** The round manager: which rounds exist, and who waits for rounds to come. */
module DagManager {
  import opened Wrappers
  import opened Waiters
  import opened WaiterTables
  import Rounds = DagRound
  import Quorums = DagQuorum

  type Round = Rounds.Round

  /** The manager as a value; `started` is the history of started rounds. */
  datatype Mgr = Mgr(rounds: map<nat, Round>, latest: nat, subs: Table<nat, Round>, started: seq<nat>)

  datatype GetOutcome = Elapsed | Found(round: Round) | Parked(sub: nat)

  predicate MayStart(m: Mgr, n: nat) {
    n > m.latest
  }

  function Start(m: Mgr, n: nat, r: Round): Mgr {
    Mgr(m.rounds[n := r], n, Notify(m.subs, n, Value(r)), m.started + [n])
  }

  /** The end of a stop, after the round itself has stopped. */
  function Remove(m: Mgr, n: nat): Mgr {
    m.(rounds := m.rounds - {n}, subs := Notify(m.subs, n, Closed))
  }

  function Get(m: Mgr, n: nat): (Mgr, GetOutcome) {
    if m.latest > n then (m, Elapsed)
    else if n in m.rounds then (m, Found(m.rounds[n]))
    else (m.(subs := Join(m.subs, n)), Parked(m.subs.next))
  }

  function Cancel(m: Mgr, s: nat): Mgr
    requires s in m.subs.home
  {
    m.(subs := Leave(m.subs, s))
  }

  // ----- Runs -----

  datatype Label =
    | StartRound(n: nat, r: Round)
    | RemoveRound(n: nat)
    | GetRound(n: nat)
    | CancelGet(s: nat)

  /** The critical sections of all callers, in any order. */
  ghost predicate Step(m: Mgr, l: Label, m': Mgr) {
    match l
    case StartRound(n, r) => MayStart(m, n) && r.roundNum == n && m' == Start(m, n, r)
    case RemoveRound(n) => n in m.rounds && m' == Remove(m, n)
    case GetRound(n) => m' == Get(m, n).0
    case CancelGet(s) => s in m.subs.home && s !in m.subs.gone && m' == Cancel(m, s)
  }

  ghost predicate IsRun(ms: seq<Mgr>, labels: seq<Label>) {
    && |ms| == |labels| + 1 && ms[0] == Mgr(map[], 0, Empty(), [])
    && forall i :: 0 <= i < |labels| ==> Step(ms[i], labels[i], ms[i + 1])
  }

  /** A waiter's event, if it is a round, is the round it asked for. */
  ghost predicate EventMatches(m: Mgr, s: nat) {
    s in m.subs.home && EventsOf(m.subs, s) != [] && EventsOf(m.subs, s)[0].Value? ==>
      EventsOf(m.subs, s)[0].v.roundNum == m.subs.home[s].0
  }

  ghost predicate MgrOk(m: Mgr) {
    && TableOk(m.subs)
    && (forall n :: n in m.rounds ==> n <= m.latest && m.rounds[n].roundNum == n)
    && m.rounds.Keys !! m.subs.heads.Keys
    && (forall s :: EventMatches(m, s))
    && (forall i, j :: 0 <= i < j < |m.started| ==> m.started[i] < m.started[j])
    && (forall i :: 0 <= i < |m.started| ==> m.started[i] <= m.latest)
  }

  lemma StepKeepsOk(m: Mgr, l: Label, m': Mgr)
    requires MgrOk(m) && Step(m, l, m')
    ensures MgrOk(m') && m.started <= m'.started && m.latest <= m'.latest
  {
    match l
    case StartRound(n, r) => NotifyKeepsOk(m.subs, n, Value(r)); EventsKept(m, l, m');
    case RemoveRound(n) => NotifyKeepsOk(m.subs, n, Closed); EventsKept(m, l, m');
    case GetRound(n) => JoinKeepsOk(m.subs, n); EventsKept(m, l, m');
    case CancelGet(s) => LeaveKeepsOk(m.subs, s); EventsKept(m, l, m');
  }

  lemma EventsKept(m: Mgr, l: Label, m': Mgr)
    requires MgrOk(m) && Step(m, l, m')
    ensures forall s :: EventMatches(m', s)
  {
    forall s ensures EventMatches(m', s) {
      assert EventMatches(m, s);
      if l.StartRound? { NotifyKeepsOk(m.subs, l.n, Value(l.r)); }
      if l.RemoveRound? { NotifyKeepsOk(m.subs, l.n, Closed); }
      if l.GetRound? { JoinKeepsOk(m.subs, l.n); }
    }
  }

  /** In every run of the manager: rounds are started in strictly increasing order, so each
      number at most once; every round sits under its own number, at most the latest; nobody is
      parked for a round that is there; and every waiter's channel gets at most one event, which
      if it is a round is the one asked for. */
  lemma {:induction false} RunsKeepOk(ms: seq<Mgr>, labels: seq<Label>, i: nat)
    requires IsRun(ms, labels) && i < |ms|
    ensures MgrOk(ms[i])
    ensures forall s :: s in ms[i].subs.home ==> |EventsOf(ms[i].subs, s)| <= 1
  {
    if i > 0 {
      RunsKeepOk(ms, labels, i - 1);
      StepKeepsOk(ms[i - 1], labels[i - 1], ms[i]);
    }
    assert forall s :: s in ms[i].subs.home ==> Waiters.WaiterOk(ms[i].subs, s);
  }

  /** Whoever waits for a round still to come is in the table; whoever waited for a round that
      is there has been given it. Callers that gave up are left out. */
  ghost predicate WaitersServed(m: Mgr) {
    forall s :: s in m.subs.home && s !in m.subs.gone ==> WaiterServed(m, s)
  }

  ghost predicate WaiterServed(m: Mgr, s: nat)
    requires s in m.subs.home
  {
    var n := m.subs.home[s].0;
    && (n > m.latest ==> s in Attached(m.subs, n))
    && (n in m.rounds ==> EventsOf(m.subs, s) == [Value(m.rounds[n])])
  }

  lemma NotifiedStaysServed(m: Mgr, l: Label, m': Mgr, s: nat)
    requires MgrOk(m) && Step(m, l, m') && s in m.subs.home && WaiterServed(m, s)
    requires l.StartRound? || l.RemoveRound?
    ensures s in m'.subs.home && WaiterServed(m', s)
  {
    NotifyOnEvents(m.subs, l.n, if l.StartRound? then Value(l.r) else Closed, s);
  }

  /** Somebody else gives up; who waits for a round to come is in the same inner map as they are. */
  lemma OthersStayServed(m: Mgr, x: nat, s: nat)
    requires MgrOk(m) && x in m.subs.home && s in m.subs.home && x != s
    requires x !in m.subs.gone && s !in m.subs.gone && WaiterServed(m, x) && WaiterServed(m, s)
    ensures WaiterServed(Cancel(m, x), s)
  {
    assert Waiters.WaiterOk(m.subs, s) && Waiters.WaiterOk(m.subs, x);
  }

  lemma WaiterStaysServed(m: Mgr, l: Label, m': Mgr, s: nat)
    requires MgrOk(m) && WaitersServed(m) && Step(m, l, m') && s in m.subs.home && s !in m'.subs.gone
    ensures s in m'.subs.home && WaiterServed(m', s)
  {
    assert WaiterServed(m, s);
    match l
    case GetRound(n) => JoinedWaiters(m.subs, n, m.subs.home[s].0); assert Waiters.WaiterOk(m.subs, s);
    case CancelGet(x) => OthersStayServed(m, x, s);
    case _ => NotifiedStaysServed(m, l, m', s);
  }

  lemma StepKeepsServed(m: Mgr, l: Label, m': Mgr)
    requires MgrOk(m) && WaitersServed(m) && Step(m, l, m')
    ensures WaitersServed(m')
  {
    forall s | s in m'.subs.home && s !in m'.subs.gone ensures WaiterServed(m', s) {
      if s in m.subs.home {
        WaiterStaysServed(m, l, m', s);
      } else {
        JoinedWaiters(m.subs, l.n, l.n);
      }
    }
  }

  /** In every run, whatever callers give up and when: a caller that waits for a round still to
      come will be reached by its start, and whoever waited for a round that was started, and
      did not give up, has been given exactly that round while it is there. A caller that gives
      up after it was notified takes the wake-up from nobody here, because a round number is
      started once. */
  lemma EveryWaiterIsServed(ms: seq<Mgr>, labels: seq<Label>, i: nat, s: nat)
    requires IsRun(ms, labels) && i < |ms| && s in ms[i].subs.home && s !in ms[i].subs.gone
    ensures var n := ms[i].subs.home[s].0;
            && (n > ms[i].latest ==> s in Attached(ms[i].subs, n))
            && (n in ms[i].rounds ==> EventsOf(ms[i].subs, s) == [Value(ms[i].rounds[n])])
  {
    RunKeepsServed(ms, labels, i);
    assert WaiterServed(ms[i], s);
  }

  lemma {:induction false} RunKeepsServed(ms: seq<Mgr>, labels: seq<Label>, i: nat)
    requires IsRun(ms, labels) && i < |ms|
    ensures WaitersServed(ms[i])
  {
    if i > 0 {
      RunKeepsServed(ms, labels, i - 1);
      RunsKeepOk(ms, labels, i - 1);
      StepKeepsServed(ms[i - 1], labels[i - 1], ms[i]);
    }
  }

  // ----- The rounds that are there, by history -----

  predicate Starts(l: Label, n: nat) {
    l.StartRound? && l.n == n
  }

  /** No removal of `n` comes after step `j` and before step `i`. */
  ghost predicate NotRemoved(labels: seq<Label>, j: nat, i: nat, n: nat)
    requires i <= |labels|
  {
    forall k :: j < k < i ==> labels[k] != RemoveRound(n)
  }

  /** The latest round is the greatest number started so far, or zero. */
  lemma {:induction false} LatestIsHistory(ms: seq<Mgr>, labels: seq<Label>, i: nat)
    requires IsRun(ms, labels) && i < |ms|
    ensures forall j :: 0 <= j < i && labels[j].StartRound? ==> labels[j].n <= ms[i].latest
    ensures ms[i].latest == 0 || exists j :: 0 <= j < i && Starts(labels[j], ms[i].latest)
  {
    if i > 0 {
      LatestIsHistory(ms, labels, i - 1);
      assert Step(ms[i - 1], labels[i - 1], ms[i]);
    }
  }

  /** A round may be started exactly if its number is above zero and above all started before. */
  lemma StartableExactly(ms: seq<Mgr>, labels: seq<Label>, i: nat, n: nat)
    requires IsRun(ms, labels) && i < |ms|
    ensures MayStart(ms[i], n) <==> n > 0 && forall j :: 0 <= j < i && labels[j].StartRound? ==> labels[j].n < n
  {
    LatestIsHistory(ms, labels, i);
  }

  /** A round is there exactly if it was started and not removed since, and then it is the very
      round of that start. */
  lemma {:induction false} RoundsAreHistory(ms: seq<Mgr>, labels: seq<Label>, i: nat, n: nat)
    requires IsRun(ms, labels) && i < |ms|
    ensures n in ms[i].rounds <==> exists j :: 0 <= j < i && Starts(labels[j], n) && NotRemoved(labels, j, i, n)
    ensures forall j :: 0 <= j < i && Starts(labels[j], n) && NotRemoved(labels, j, i, n) ==>
              n in ms[i].rounds && ms[i].rounds[n] == labels[j].r
  {
    if i > 0 {
      RoundsAreHistory(ms, labels, i - 1, n);
      LatestIsHistory(ms, labels, i - 1);
      var l := labels[i - 1];
      assert Step(ms[i - 1], l, ms[i]);
      forall j | 0 <= j < i - 1
        ensures NotRemoved(labels, j, i, n) <==> NotRemoved(labels, j, i - 1, n) && l != RemoveRound(n) {
      }
      if Starts(l, n) { assert NotRemoved(labels, i - 1, i, n); }
    }
  }

  /** A lookup is refused exactly if a later round was started; otherwise it finds the round that
      was started and not removed since, or its caller waits. */
  lemma GetByHistory(ms: seq<Mgr>, labels: seq<Label>, i: nat, n: nat)
    requires IsRun(ms, labels) && i < |ms|
    ensures Get(ms[i], n).1.Elapsed? <==> exists j :: 0 <= j < i && labels[j].StartRound? && labels[j].n > n
    ensures forall j :: 0 <= j < i && Starts(labels[j], n) && NotRemoved(labels, j, i, n) ==>
              Get(ms[i], n).1 in {Elapsed, Found(labels[j].r)}
    ensures Get(ms[i], n).1.Found? ==> exists j :: 0 <= j < i && Starts(labels[j], n) && NotRemoved(labels, j, i, n)
  {
    LatestIsHistory(ms, labels, i);
    RoundsAreHistory(ms, labels, i, n);
    if ms[i].latest > n {
      var j :| 0 <= j < i && Starts(labels[j], ms[i].latest);
      assert labels[j].n > n;
    }
  }

  /** A round that is started is found from then on, and whoever is parked for it gets it; if the
      round is removed instead, the parked caller is told so. */
  lemma ParkedIsAnswered(m: Mgr, n: nat, r: Round)
    requires MgrOk(m)
    ensures MayStart(m, n) ==> Get(Start(m, n, r), n).1 == Found(r)
    ensures Get(m, n).1.Elapsed? <==> n < m.latest
    ensures Get(m, n).1.Found? ==> Get(m, n).1.round.roundNum == n && Get(m, n).0 == m
    ensures Get(m, n).1.Parked? ==>
              var m', s := Get(m, n).0, Get(m, n).1.sub;
              EventsOf(Start(m', n, r).subs, s) == [Value(r)] && EventsOf(Remove(m', n).subs, s) == [Closed]
  {
    JoinedWaiters(m.subs, n, n);
    assert m.subs.next in Attached(Join(m.subs, n), n);
  }

  class Manager {
    var rounds: map<nat, Round>
    var latestRound: nat
    const roundSubs: WaiterTable<nat, Round>
    ghost var started: seq<nat>

    constructor ()
      ensures Model() == Mgr(map[], 0, Empty(), []) && fresh(roundSubs)
    {
      rounds := map[];
      latestRound := 0;
      started := [];
      roundSubs := new WaiterTable<nat, Round>();
    }

    ghost function Model(): Mgr
      reads this, roundSubs
    {
      Mgr(rounds, latestRound, roundSubs.t, started)
    }

    method StartRound(n: nat, quorum: Quorums.Quorum) returns (r: Result<Round, ()>)
      modifies this, roundSubs
      ensures r.Ok? <==> old(MayStart(Model(), n))
      ensures r.Err? ==> Model() == old(Model())
      ensures r.Ok? ==> fresh(r.value) && r.value.roundNum == n && r.value.quorum == quorum
      ensures r.Ok? ==> Model() == Start(old(Model()), n, r.value)
      ensures r.Ok? <==> n > old(latestRound)
      ensures r.Ok? ==> latestRound == n && rounds == old(rounds)[n := r.value]
    {
      if latestRound >= n {
        return Err(());
      }
      latestRound := n;
      var round := new Rounds.Round(n, quorum);
      roundSubs.Notify(n, Value(round));
      rounds := rounds[n := round];
      started := started + [n];
      return Ok(round);
    }

    /** The part of a stop that follows the round's own stop. */
    method RemoveRound(n: nat)
      modifies this, roundSubs
      ensures Model() == Remove(old(Model()), n)
      ensures n !in rounds && rounds == old(rounds) - {n} && latestRound == old(latestRound)
    {
      rounds := rounds - {n};
      roundSubs.Notify(n, Closed);
    }

    method GetRound(n: nat) returns (outcome: GetOutcome)
      modifies roundSubs
      ensures (Model(), outcome) == Get(old(Model()), n)
      ensures outcome.Elapsed? <==> latestRound > n
      ensures outcome.Found? <==> latestRound <= n && n in rounds
      ensures outcome.Found? ==> outcome.round == rounds[n]
    {
      if latestRound > n {
        return Elapsed;
      }
      if n in rounds {
        return Found(rounds[n]);
      }
      var sub := roundSubs.Join(n);
      return Parked(sub);
    }

    method CancelGet(s: nat)
      requires s in Model().subs.home
      modifies roundSubs
      ensures Model() == Cancel(old(Model()), s)
    {
      roundSubs.Leave(s);
    }
  }
}
