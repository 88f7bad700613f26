/** Stake arithmetic: the clipped int64 addition of the includer set, the stake of a
    set of keys, and the facts about quorums that the rest of the project rests on. */
module Stake {
  import opened Wrappers

  const MIN_INT64 := -0x8000_0000_0000_0000
  const MAX_INT64 := 0x7FFF_FFFF_FFFF_FFFF
  const MAX_STAKE: Int64 := MAX_INT64 / 8

  type Int64 = x: int | MIN_INT64 <= x <= MAX_INT64

  type Byte = x: int | 0 <= x < 256
  type Bytes = seq<Byte>
  type Key = Bytes

  datatype Includer = Includer(key: Key, stake: Int64)

  /** The nearest int64 to an exact sum. */
  function Clip(x: int): Int64 {
    if x < MIN_INT64 then MIN_INT64 else if x > MAX_INT64 then MAX_INT64 else x
  }

  /** No int64 is nearer to a number than its clipped value. */
  lemma ClipIsNearest(x: int, y: Int64)
    ensures (if Clip(x) <= x then x - Clip(x) else Clip(x) - x) <= if y <= x then x - y else y - x
  {
  }

  /** Overflow is reported exactly when the exact sum leaves the int64 range. */
  function SafeAdd(a: Int64, b: Int64): (r: (Int64, bool))
    ensures r.1 <==> !(MIN_INT64 <= a + b <= MAX_INT64)
    ensures r.0 == if r.1 then -1 else a + b
  {
    if b > 0 && (var room: Int64 := MAX_INT64 - b; a > room) then (-1, true)
    else if b < 0 && (var room: Int64 := MIN_INT64 - b; a < room) then (-1, true)
    else (a + b, false)
  }

  /** The clipped sum is the int64 nearest to the exact sum. */
  function SafeAddClip(a: Int64, b: Int64): (r: Int64)
    ensures r == Clip(a + b)
  {
    var (c, overflow) := SafeAdd(a, b);
    if overflow then
      if b < 0 then MIN_INT64 else MAX_INT64
    else c
  }

  // ----- Includer sets as sequences -----

  ghost predicate Distinct(incs: seq<Includer>) {
    forall i, j :: 0 <= i < j < |incs| ==> incs[i].key != incs[j].key
  }

  ghost predicate NonNegative(incs: seq<Includer>) {
    forall i :: 0 <= i < |incs| ==> incs[i].stake >= 0
  }

  /** The standing hypotheses on an includer set. */
  ghost predicate ValidSet(incs: seq<Includer>) {
    Distinct(incs) && NonNegative(incs) && Total(incs) <= MAX_STAKE
  }

  function Total(incs: seq<Includer>): int {
    if incs == [] then 0 else Total(incs[..|incs| - 1]) + incs[|incs| - 1].stake
  }

  /** The stake held by the includers whose key is in `s`. */
  function StakeOf(incs: seq<Includer>, s: set<Key>): int {
    if incs == [] then 0
    else
      var last := incs[|incs| - 1];
      StakeOf(incs[..|incs| - 1], s) + if last.key in s then last.stake else 0
  }

  /** The first includer with the given key. */
  function Lookup(incs: seq<Includer>, key: Key): Option<Includer> {
    if incs == [] then None
    else
      var rest := Lookup(incs[..|incs| - 1], key);
      var last := incs[|incs| - 1];
      if rest.Some? then rest else if last.key == key then Some(last) else None
  }

  predicate Member(incs: seq<Includer>, key: Key) {
    Lookup(incs, key).Some?
  }

  function StakeFor(incs: seq<Includer>, key: Key): int {
    match Lookup(incs, key)
    case Some(i) => i.stake
    case None => 0
  }

  /** Signatures of this much stake complete a certificate. */
  function Required(total: int): int {
    total * 2 / 3 + 1
  }

  lemma {:induction false} LookupFound(incs: seq<Includer>, key: Key)
    ensures Member(incs, key) ==> Lookup(incs, key).value in incs && Lookup(incs, key).value.key == key
    ensures Member(incs, key) <==> exists i :: 0 <= i < |incs| && incs[i].key == key
  {
    if incs != [] {
      var n := |incs| - 1;
      LookupFound(incs[..n], key);
      assert incs == incs[..n] + [incs[n]];
      assert incs[n].key == key ==> Member(incs, key);
      forall i | 0 <= i < n && incs[i].key == key ensures Member(incs, key) {
        assert incs[..n][i].key == key;
      }
    }
  }

  lemma {:induction false} StakeOfBounds(incs: seq<Includer>, s: set<Key>)
    requires NonNegative(incs)
    ensures 0 <= StakeOf(incs, s) <= Total(incs)
  {
    if incs != [] { StakeOfBounds(incs[..|incs| - 1], s); }
  }

  /** Only the keys of includers count: sets that agree on them hold the same stake,
      and a set that has more of them holds at least as much. */
  lemma {:induction false} StakeOfMonotone(incs: seq<Includer>, s: set<Key>, t: set<Key>)
    requires NonNegative(incs)
    requires forall i :: 0 <= i < |incs| && incs[i].key in s ==> incs[i].key in t
    ensures StakeOf(incs, s) <= StakeOf(incs, t)
  {
    if incs != [] { StakeOfMonotone(incs[..|incs| - 1], s, t); }
  }

  lemma {:induction false} InclusionExclusion(incs: seq<Includer>, s: set<Key>, t: set<Key>)
    ensures StakeOf(incs, s) + StakeOf(incs, t) == StakeOf(incs, s + t) + StakeOf(incs, s * t)
  {
    if incs != [] { InclusionExclusion(incs[..|incs| - 1], s, t); }
  }

  lemma {:induction false} StakeOfNone(incs: seq<Includer>, s: set<Key>)
    requires forall i :: 0 <= i < |incs| ==> incs[i].key !in s
    ensures StakeOf(incs, s) == 0
  {
    if incs != [] { StakeOfNone(incs[..|incs| - 1], s); }
  }

  lemma {:induction false} StakeOfSingle(incs: seq<Includer>, key: Key)
    requires Distinct(incs)
    ensures StakeOf(incs, {key}) == StakeFor(incs, key)
  {
    if incs != [] {
      var rest := incs[..|incs| - 1];
      if incs[|incs| - 1].key == key {
        StakeOfNone(rest, {key});
        LookupFound(rest, key);
      } else {
        StakeOfSingle(rest, key);
      }
    }
  }

  /** A new key adds exactly its own stake, so a running total of distinct signers is exact. */
  lemma StakeOfInsert(incs: seq<Includer>, s: set<Key>, key: Key)
    requires Distinct(incs) && key !in s
    ensures StakeOf(incs, s + {key}) == StakeOf(incs, s) + StakeFor(incs, key)
  {
    InclusionExclusion(incs, s, {key});
    assert s * {key} == {};
    StakeOfNone(incs, {});
    StakeOfSingle(incs, key);
  }

  /** A set of positive stake contains an includer. */
  lemma PositiveStakeHasMember(incs: seq<Includer>, s: set<Key>)
    requires StakeOf(incs, s) > 0
    ensures exists k :: k in s && Member(incs, k)
  {
    if forall k :: k in s ==> !Member(incs, k) {
      forall i | 0 <= i < |incs| ensures incs[i].key !in s {
        LookupFound(incs, incs[i].key);
      }
      StakeOfNone(incs, s);
    }
  }

  // ----- Quorums -----

  /** The threshold needs no overflowing product, is attainable, and is never zero. */
  lemma RequiredBounds(incs: seq<Includer>)
    requires ValidSet(incs)
    ensures 0 <= Total(incs) && Total(incs) * 2 <= MAX_INT64
    ensures 1 <= Required(Total(incs)) <= MAX_INT64
    ensures Total(incs) >= 1 ==> Required(Total(incs)) <= Total(incs)
    ensures 2 * Total(incs) < 3 * Required(Total(incs)) <= 2 * Total(incs) + 3
  {
    StakeOfBounds(incs, {});
  }

  ghost predicate IsQuorum(incs: seq<Includer>, s: set<Key>) {
    StakeOf(incs, s) >= Required(Total(incs))
  }

  /** At most a third of the stake is outside `honest`. */
  ghost predicate FaultBound(incs: seq<Includer>, honest: set<Key>) {
    3 * (Total(incs) - StakeOf(incs, honest)) <= Total(incs)
  }

  /** Any two quorums overlap in more than a third of the total stake. */
  lemma QuorumIntersection(incs: seq<Includer>, s: set<Key>, t: set<Key>)
    requires ValidSet(incs) && IsQuorum(incs, s) && IsQuorum(incs, t)
    ensures 3 * StakeOf(incs, s * t) > Total(incs)
  {
    RequiredBounds(incs);
    InclusionExclusion(incs, s, t);
    StakeOfBounds(incs, s + t);
  }

  /** The honest part of any quorum holds more than a third of the total stake. */
  lemma HonestShare(incs: seq<Includer>, s: set<Key>, honest: set<Key>)
    requires ValidSet(incs) && IsQuorum(incs, s) && FaultBound(incs, honest)
    ensures 3 * StakeOf(incs, s * honest) > Total(incs)
  {
    RequiredBounds(incs);
    InclusionExclusion(incs, s, honest);
    StakeOfBounds(incs, s + honest);
  }

  /** Any two quorums share an honest includer. */
  lemma HonestIntersection(incs: seq<Includer>, s: set<Key>, t: set<Key>, honest: set<Key>)
    requires ValidSet(incs) && IsQuorum(incs, s) && IsQuorum(incs, t) && FaultBound(incs, honest)
    ensures exists k :: k in s && k in t && k in honest && Member(incs, k)
  {
    QuorumIntersection(incs, s, t);
    InclusionExclusion(incs, s * t, honest);
    StakeOfBounds(incs, s * t + honest);
    PositiveStakeHasMember(incs, s * t * honest);
  }
}
