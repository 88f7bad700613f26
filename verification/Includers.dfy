/** The sorted includer set: its order, its lookup and its cached total stake. */
module IncluderSet {
  import opened Wrappers
  import opened Stake

  /** Lexicographic comparison of byte strings: -1, 0 or 1. */
  function Compare(a: Bytes, b: Bytes): int {
    if a == [] then if b == [] then 0 else -1
    else if b == [] then 1
    else if a[0] != b[0] then if a[0] < b[0] then -1 else 1
    else Compare(a[1..], b[1..])
  }

  /** Larger stake first, ties by key. */
  predicate Before(a: Includer, b: Includer) {
    if a.stake == b.stake then Compare(a.key, b.key) == -1 else a.stake > b.stake
  }

  ghost predicate Sorted(s: seq<Includer>) {
    forall p, q :: 0 <= p < q < |s| ==> !Before(s[q], s[p])
  }

  lemma {:induction false} CompareTotal(a: Bytes, b: Bytes)
    ensures Compare(a, b) == 0 <==> a == b
    ensures Compare(a, b) == -Compare(b, a)
    ensures Compare(a, b) in {-1, 0, 1}
  {
    if a != [] && b != [] && a[0] == b[0] {
      CompareTotal(a[1..], b[1..]);
      assert a == [a[0]] + a[1..] && b == [b[0]] + b[1..];
    }
  }

  lemma {:induction false} CompareTransitive(a: Bytes, b: Bytes, c: Bytes)
    requires Compare(a, b) <= 0 && Compare(b, c) <= 0
    ensures Compare(a, c) <= 0
  {
    if a != [] && b != [] && c != [] && a[0] == b[0] == c[0] {
      CompareTransitive(a[1..], b[1..], c[1..]);
    }
  }

  /** `Before` is a strict total order on includers, whatever their keys and stakes. */
  lemma BeforeIsStrictTotal(a: Includer, b: Includer, c: Includer)
    ensures !(Before(a, b) && Before(b, a))
    ensures a == b || Before(a, b) || Before(b, a)
    ensures !Before(b, a) && !Before(c, b) ==> !Before(c, a)
  {
    CompareTotal(a.key, b.key);
    CompareTotal(b.key, c.key);
    CompareTotal(a.key, c.key);
    if !Before(b, a) && !Before(c, b) && a.stake == b.stake == c.stake {
      CompareTransitive(a.key, b.key, c.key);
    }
  }

  /** A sorted listing starts with the largest stakes; among equal stakes, keys ascend. */
  lemma SortedByStake(s: seq<Includer>, p: nat, q: nat)
    requires Sorted(s) && p < q < |s|
    ensures s[p].stake >= s[q].stake
    ensures s[p].stake == s[q].stake ==> Compare(s[p].key, s[q].key) <= 0
  {
    assert !Before(s[q], s[p]);
    CompareTotal(s[q].key, s[p].key);
  }

  /** One key is before another exactly if it is a proper prefix of it, or has the smaller byte at
      the first place where they differ. */
  lemma {:induction false} CompareIsLexicographic(a: Bytes, b: Bytes)
    ensures Compare(a, b) == -1 <==>
            exists k :: 0 <= k <= |a| && k < |b| && a[..k] == b[..k] && (k == |a| || a[k] < b[k])
  {
    if a != [] && b != [] && a[0] == b[0] {
      CompareIsLexicographic(a[1..], b[1..]);
      if k :| 0 <= k <= |a[1..]| && k < |b[1..]| && a[1..][..k] == b[1..][..k] && (k == |a[1..]| || a[1..][k] < b[1..][k]) {
        assert a[..k + 1] == [a[0]] + a[1..][..k] && b[..k + 1] == [b[0]] + b[1..][..k];
      }
      if k :| 0 <= k <= |a| && k < |b| && a[..k] == b[..k] && (k == |a| || a[k] < b[k]) {
        assert k > 0 && a[1..][..k - 1] == a[..k][1..] && b[1..][..k - 1] == b[..k][1..];
      }
    } else if a != [] && b != [] {
      assert forall k :: 0 < k <= |a| && k <= |b| ==> a[..k][0] == a[0] && b[..k][0] == b[0];
      if a[0] < b[0] { assert a[..0] == b[..0]; }
    } else if b != [] {
      assert a[..0] == b[..0];
    }
  }

  lemma SortedHead(s: seq<Includer>, x: Includer)
    requires Sorted(s) && x in s
    ensures !Before(x, s[0])
  {
    var i :| 0 <= i < |s| && s[i] == x;
    BeforeIsStrictTotal(x, x, x);
    if i > 0 { assert !Before(s[i], s[0]); }
  }

  /** Two sorted listings of the same includers are the same sequence, so nothing that is
      computed from the set depends on the order in which a node listed its peers. */
  lemma {:induction false} SortedIsCanonical(s: seq<Includer>, t: seq<Includer>)
    requires Sorted(s) && Sorted(t) && multiset(s) == multiset(t)
    ensures s == t
    decreases |s|
  {
    assert |t| == |multiset(t)| == |multiset(s)| == |s|;
    if s != [] {
      assert s[0] in multiset(t) && t[0] in multiset(s);
      SortedHead(t, s[0]);
      SortedHead(s, t[0]);
      BeforeIsStrictTotal(s[0], t[0], t[0]);
      assert s == [s[0]] + s[1..] && t == [s[0]] + t[1..];
      assert multiset(s[1..]) == multiset(s) - multiset{s[0]};
      assert multiset(t[1..]) == multiset(t) - multiset{s[0]};
      SortedIsCanonical(s[1..], t[1..]);
    }
  }

  /** The total as it is accumulated, every addition clipped. */
  function ClippedTotal(incs: seq<Includer>): Int64 {
    if incs == [] then 0
    else Clip(ClippedTotal(incs[..|incs| - 1]) + incs[|incs| - 1].stake)
  }

  /** Whether the accumulation ever passes the maximum, where it panics. */
  ghost predicate Exceeds(incs: seq<Includer>) {
    exists i :: 0 <= i <= |incs| && ClippedTotal(incs[..i]) > MAX_STAKE
  }

  lemma ExceedsNext(incs: seq<Includer>)
    requires incs != []
    ensures Exceeds(incs) <==> Exceeds(incs[..|incs| - 1]) || ClippedTotal(incs) > MAX_STAKE
  {
    var n := |incs| - 1;
    assert incs[..n + 1] == incs;
    assert forall i :: 0 <= i <= n ==> incs[..n][..i] == incs[..i];
    if Exceeds(incs[..n]) {
      var i :| 0 <= i <= n && ClippedTotal(incs[..n][..i]) > MAX_STAKE;
      assert ClippedTotal(incs[..i]) > MAX_STAKE;
    }
    if Exceeds(incs) {
      var i :| 0 <= i <= n + 1 && ClippedTotal(incs[..i]) > MAX_STAKE;
      assert i <= n ==> ClippedTotal(incs[..n][..i]) > MAX_STAKE;
    }
  }

  /** For stakes that are not negative, the maximum is passed exactly when the exact total is
      above it, and otherwise nothing was clipped. */
  lemma {:induction false} ClippedTotalExact(incs: seq<Includer>)
    requires NonNegative(incs)
    ensures Exceeds(incs) <==> Total(incs) > MAX_STAKE
    ensures !Exceeds(incs) ==> ClippedTotal(incs) == Total(incs)
  {
    if incs == [] {
      assert forall i :: 0 <= i <= |incs| ==> incs[..i] == [];
    } else {
      ExceedsNext(incs);
      ClippedTotalExact(incs[..|incs| - 1]);
      StakeOfBounds(incs[..|incs| - 1], {});
    }
  }

  class Includers {
    var includers: array<Includer>
    var totalStake: Int64

    ghost function Contents(): seq<Includer>
      reads this`includers, includers
    {
      includers[..]
    }

    /** The cached total, once computed, is the exact total. */
    ghost predicate Valid()
      reads this, includers
    {
      ValidSet(Contents()) && (totalStake != 0 ==> totalStake == Total(Contents()))
    }

    /** Sorts the given includers in place and takes them over. */
    constructor (v: array<Includer>)
      modifies v
      ensures includers == v && totalStake == 0
      ensures Sorted(v[..]) && multiset(v[..]) == old(multiset(v[..]))
    {
      includers := v;
      totalStake := 0;
      new;
      Sort();
    }

    predicate Less(i: nat, j: nat)
      requires i < includers.Length && j < includers.Length
      reads this, includers
    {
      Before(includers[i], includers[j])
    }

    method Swap(i: nat, j: nat)
      requires i < includers.Length && j < includers.Length
      modifies includers
      ensures includers[i] == old(includers[j]) && includers[j] == old(includers[i])
      ensures forall k :: 0 <= k < includers.Length && k != i && k != j ==> includers[k] == old(includers[k])
      ensures multiset(Contents()) == multiset(old(Contents()))
    {
      includers[i], includers[j] := includers[j], includers[i];
    }

    /** Any sort over `Less` and `Swap` has this contract and, by `SortedIsCanonical`, this result. */
    method Sort()
      modifies includers
      ensures Sorted(Contents()) && multiset(Contents()) == multiset(old(Contents()))
    {
      var i := 0;
      while i < includers.Length
        invariant 0 <= i <= includers.Length
        invariant multiset(Contents()) == multiset(old(Contents()))
        invariant Sorted(Contents()[..i])
      {
        SiftDown(i);
        i := i + 1;
      }
      assert Contents()[..i] == Contents();
    }

    /** Moves element `i` down into the sorted part before it. */
    method SiftDown(i: nat)
      requires i < includers.Length && Sorted(Contents()[..i])
      modifies includers
      ensures Sorted(Contents()[..i + 1]) && multiset(Contents()) == multiset(old(Contents()))
    {
      var j := i;
      assert forall k :: 0 <= k < i ==> Contents()[..i][k] == includers[k];
      while j > 0 && Less(j, j - 1)
        invariant 0 <= j <= i
        invariant multiset(Contents()) == multiset(old(Contents()))
        invariant forall p, q :: 0 <= p < q <= i && q != j ==> !Before(includers[q], includers[p])
      {
        BeforeIsStrictTotal(includers[j], includers[j - 1], includers[j]);
        Swap(j, j - 1);
        j := j - 1;
      }
      forall p | 0 <= p < j ensures !Before(includers[j], includers[p]) {
        BeforeIsStrictTotal(includers[p], includers[j - 1], includers[j]);
      }
    }

    method GetByPubKey(key: Key) returns (r: Option<Includer>)
      ensures r == Lookup(Contents(), key)
      ensures r.None? ==> forall j :: 0 <= j < includers.Length ==> includers[j].key != key
      ensures r.Some? ==>
                exists i :: 0 <= i < includers.Length && includers[i] == r.value && r.value.key == key
                            && forall j :: 0 <= j < i ==> includers[j].key != key
    {
      var i := 0;
      while i < includers.Length
        invariant 0 <= i <= includers.Length
        invariant Lookup(Contents()[..i], key) == None
        invariant forall j :: 0 <= j < i ==> includers[j].key != key
      {
        assert Contents()[..i + 1][..i] == Contents()[..i];
        if includers[i].key == key {
          LookupPrefix(Contents(), i + 1, key);
          return Some(includers[i]);
        }
        i := i + 1;
      }
      assert Contents()[..i] == Contents();
      return None;
    }

    static lemma {:induction false} LookupPrefix(incs: seq<Includer>, i: nat, key: Key)
      requires i <= |incs| && Lookup(incs[..i], key).Some?
      ensures Lookup(incs, key) == Lookup(incs[..i], key)
    {
      if i < |incs| {
        var n := |incs| - 1;
        assert incs[..n][..i] == incs[..i];
        LookupPrefix(incs[..n], i, key);
      } else {
        assert incs[..i] == incs;
      }
    }

    /** Recomputes the cached total. `panicked` stands for the panic on too much stake, which
        leaves the cache alone. */
    method UpdateTotalStake() returns (panicked: bool)
      modifies this`totalStake
      ensures panicked <==> Exceeds(Contents())
      ensures totalStake == if panicked then old(totalStake) else ClippedTotal(Contents())
      ensures NonNegative(Contents()) ==> (panicked <==> Total(Contents()) > MAX_STAKE)
      ensures NonNegative(Contents()) && !panicked ==> totalStake == Total(Contents())
    {
      var sum := Accumulate();
      if NonNegative(Contents()) { ClippedTotalExact(Contents()); }
      if sum.None? {
        return true;
      }
      totalStake := sum.value;
      return false;
    }

    /** The sum of the stakes, every addition clipped; nothing once it passes the maximum. */
    method Accumulate() returns (total: Option<Int64>)
      ensures total.None? <==> Exceeds(Contents())
      ensures total.Some? ==> total.value == ClippedTotal(Contents())
    {
      var sum: Int64 := 0;
      var i := 0;
      while i < includers.Length
        invariant 0 <= i <= includers.Length && sum == ClippedTotal(Contents()[..i])
        invariant forall j :: 0 <= j <= i ==> ClippedTotal(Contents()[..j]) <= MAX_STAKE
      {
        assert Contents()[..i + 1][..i] == Contents()[..i];
        sum := SafeAddClip(sum, includers[i].stake);
        i := i + 1;
        if sum > MAX_STAKE {
          return None;
        }
      }
      assert Contents()[..i] == Contents();
      return Some(sum);
    }

    /** The cached total, computed on first use; nothing if that panics. */
    method TotalStake() returns (r: Option<Int64>)
      modifies this`totalStake
      ensures r.None? <==> old(totalStake) == 0 && Exceeds(Contents())
      ensures r.Some? ==>
                r.value == totalStake == if old(totalStake) != 0 then old(totalStake) else ClippedTotal(Contents())
      ensures old(Valid()) ==> Valid() && r == Some(Total(Contents()))
    {
      if NonNegative(Contents()) { ClippedTotalExact(Contents()); }
      if totalStake == 0 {
        var panicked := UpdateTotalStake();
        if panicked {
          return None;
        }
      }
      return Some(totalStake);
    }
  }
}
