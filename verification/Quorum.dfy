/** The weighted two-thirds vote count on `uint64` accumulators. */
module Quorum {
  import opened Machine

  type FpKey = string
  type PowerMap = map<FpKey, U64>

  /** A Go `[]string`: nil is kept apart from the empty slice, because the code tests for it. */
  datatype VoteList = NilList | Voters(keys: seq<FpKey>)

  function Members(list: VoteList): set<FpKey> {
    if list.NilList? then {} else set k | k in list.keys
  }

  ghost predicate NoDup(keys: seq<FpKey>) {
    forall i, j :: 0 <= i < j < |keys| ==> keys[i] != keys[j]
  }

  ghost predicate Distinct(list: VoteList) {
    list.Voters? ==> NoDup(list.keys)
  }

  // ----- mathematical sums -----

  /** Power held by a set of finality providers. */
  ghost function Weight(power: PowerMap, keys: set<FpKey>): nat
    requires keys <= power.Keys
  {
    if keys == {} then 0
    else
      var k :| k in keys;
      power[k] + Weight(power, keys - {k})
  }

  ghost function Total(power: PowerMap): nat {
    Weight(power, power.Keys)
  }

  /** Sum over a vote list, one term an entry; keys without power add nothing. */
  ghost function Tally(power: PowerMap, keys: seq<FpKey>): nat {
    if keys == [] then 0
    else
      var k := keys[|keys| - 1];
      Tally(power, keys[..|keys| - 1]) + if k in power then power[k] else 0
  }

  /** What the check is for: the voters, as a set, hold two thirds of the power. */
  ghost predicate TwoThirds(power: PowerMap, voters: set<FpKey>) {
    Total(power) == 0 || 3 * Weight(power, voters * power.Keys) >= 2 * Total(power)
  }

  /** What the code decides, wrap-around included. */
  ghost predicate Decides(power: PowerMap, list: VoteList) {
    var total := Total(power) % MOD;
    total == 0 ||
    (list.Voters? && !(MulU64(Tally(power, list.keys) % MOD, 3) < MulU64(total, 2)))
  }

  // ----- the two accumulator loops -----

  /** `for _, power := range allFpPower`: Go visits the map in any order. */
  method TotalPower(power: PowerMap) returns (total: U64)
    ensures total == Total(power) % MOD
  {
    total := 0;
    var rest := power.Keys;
    while rest != {}
      invariant rest <= power.Keys
      invariant (total + Weight(power, rest)) % MOD == Total(power) % MOD
      decreases rest
    {
      var k :| k in rest;
      WeightPick(power, rest, k);
      total := AddU64(total, power[k]);
      rest := rest - {k};
    }
  }

  /** `for _, key := range votedFpPks`. */
  method VotedPower(power: PowerMap, keys: seq<FpKey>) returns (voted: U64)
    ensures voted == Tally(power, keys) % MOD
  {
    voted := 0;
    for i := 0 to |keys|
      invariant voted == Tally(power, keys[..i]) % MOD
    {
      assert keys[..i + 1][..i] == keys[..i];
      if keys[i] in power {
        voted := AddU64(voted, power[keys[i]]);
      }
    }
    assert keys[..|keys|] == keys;
  }

  // ----- sums do not depend on the order -----

  lemma {:induction false} WeightPick(power: PowerMap, keys: set<FpKey>, k: FpKey)
    requires k in keys && keys <= power.Keys
    ensures Weight(power, keys) == power[k] + Weight(power, keys - {k})
  {
    var c :| c in keys && Weight(power, keys) == power[c] + Weight(power, keys - {c});
    if c != k {
      WeightPick(power, keys - {c}, k);
      WeightPick(power, keys - {k}, c);
      assert keys - {c} - {k} == keys - {k} - {c};
    }
  }

  lemma {:induction false} WeightSplit(power: PowerMap, a: set<FpKey>, b: set<FpKey>)
    requires a <= power.Keys && b <= power.Keys && a !! b
    ensures Weight(power, a + b) == Weight(power, a) + Weight(power, b)
  {
    if a == {} {
      assert a + b == b;
    } else {
      var k :| k in a;
      WeightPick(power, a, k);
      WeightPick(power, a + b, k);
      assert a + b - {k} == (a - {k}) + b;
      WeightSplit(power, a - {k}, b);
    }
  }

  lemma WeightMonotone(power: PowerMap, a: set<FpKey>, b: set<FpKey>)
    requires a <= b <= power.Keys
    ensures Weight(power, a) <= Weight(power, b)
  {
    WeightSplit(power, a, b - a);
    assert a + (b - a) == b;
  }

  /** On a list without repeats the loop adds up exactly the power of the set of voters. */
  lemma {:induction false} TallyIsWeight(power: PowerMap, keys: seq<FpKey>)
    requires NoDup(keys)
    ensures Tally(power, keys) == Weight(power, Members(Voters(keys)) * power.Keys)
    ensures Tally(power, keys) <= Total(power)
  {
    var voters := Members(Voters(keys)) * power.Keys;
    if keys == [] {
      assert voters == {};
    } else {
      var rest, k := keys[..|keys| - 1], keys[|keys| - 1];
      TallyIsWeight(power, rest);
      var before := Members(Voters(rest)) * power.Keys;
      assert Members(Voters(keys)) == Members(Voters(rest)) + {k};
      assert k !in rest;
      if k in power {
        assert voters - {k} == before;
        WeightPick(power, voters, k);
      } else {
        assert voters == before;
      }
    }
    WeightMonotone(power, voters, power.Keys);
  }

  // ----- main results -----

  lemma NoWrap(voted: nat, total: nat)
    requires voted <= total && 3 * total < MOD
    ensures voted % MOD == voted && total % MOD == total
    ensures MulU64(voted, 3) == 3 * voted && MulU64(total, 2) == 2 * total
  {
  }

  /** Below the bound the machine arithmetic is exact, and nil and empty decide alike. */
  lemma QuorumExact(power: PowerMap, list: VoteList)
    requires 3 * Total(power) < MOD && Distinct(list)
    ensures Decides(power, list) <==> TwoThirds(power, Members(list))
    ensures Decides(power, NilList) == Decides(power, Voters([]))
    ensures list.Voters? ==> Tally(power, list.keys) <= Total(power)
  {
    hide Weight, NoDup;
    NoWrap(0, Total(power));
    if list.Voters? {
      TallyIsWeight(power, list.keys);
      NoWrap(Tally(power, list.keys), Total(power));
    } else {
      assert Members(list) * power.Keys == {};
      assert Weight(power, {}) == 0 by { WeightEmpty(power); }
    }
  }

  lemma WeightEmpty(power: PowerMap)
    ensures Weight(power, {}) == 0
  {
  }

  /** Any two quorums for the same power map share a third of the power. */
  lemma QuorumIntersection(power: PowerMap, one: VoteList, two: VoteList)
    requires 0 < Total(power) && 3 * Total(power) < MOD
    requires Distinct(one) && Distinct(two)
    requires Decides(power, one) && Decides(power, two)
    ensures 3 * Weight(power, Members(one) * Members(two) * power.Keys) >= Total(power)
  {
    QuorumExact(power, one);
    QuorumExact(power, two);
    var a, b := Members(one) * power.Keys, Members(two) * power.Keys;
    var both := Members(one) * Members(two) * power.Keys;
    WeightSplit(power, a - b, both);
    assert (a - b) + both == a;
    WeightSplit(power, a - b, b);
    WeightMonotone(power, (a - b) + b, power.Keys);
  }

  /** More voters never undo a quorum. Only voters with power matter. */
  lemma VotesMonotone(power: PowerMap, fewer: VoteList, more: VoteList)
    requires 3 * Total(power) < MOD
    requires Distinct(fewer) && Distinct(more)
    requires Members(fewer) * power.Keys <= Members(more)
    ensures Decides(power, fewer) ==> Decides(power, more)
  {
    QuorumExact(power, fewer);
    QuorumExact(power, more);
    WeightMonotone(power, Members(fewer) * power.Keys, Members(more) * power.Keys);
  }

  lemma PowerlessVotersIgnored(power: PowerMap, one: VoteList, two: VoteList)
    requires 3 * Total(power) < MOD
    requires Distinct(one) && Distinct(two)
    requires Members(one) * power.Keys == Members(two) * power.Keys
    ensures Decides(power, one) == Decides(power, two)
  {
    VotesMonotone(power, one, two);
    VotesMonotone(power, two, one);
  }

  // ----- exactly how far the arithmetic can be trusted -----

  ghost predicate TrustworthyTotal(total: nat) {
    forall power: PowerMap, list: VoteList
      | Total(power) == total && Distinct(list)
      :: Decides(power, list) <==> TwoThirds(power, Members(list))
  }

  /** `n` copies of one letter: as many different provider keys as a proof needs. */
  function Name(n: nat): (name: FpKey)
    ensures |name| == n
  {
    seq(n, _ => 'f')
  }

  /** Hands out `amount` of power to providers named `n`, `n+1`, ... */
  lemma {:induction false} Spread(n: nat, amount: nat) returns (power: PowerMap)
    ensures Total(power) == amount
    ensures forall k :: k in power ==> |k| >= n
    decreases amount
  {
    if amount == 0 {
      power := map[];
    } else {
      var part := if amount < MOD then amount else MOD - 1;
      var rest := Spread(n + 1, amount - part);
      power := rest[Name(n) := part];
      WeightPick(power, power.Keys, Name(n));
      assert power.Keys - {Name(n)} == rest.Keys;
      WeightSame(power, rest, rest.Keys);
    }
  }

  lemma {:induction false} WeightSame(p: PowerMap, q: PowerMap, keys: set<FpKey>)
    requires keys <= p.Keys && keys <= q.Keys
    requires forall k :: k in keys ==> p[k] == q[k]
    ensures Weight(p, keys) == Weight(q, keys)
  {
    if keys != {} {
      var k :| k in keys;
      WeightPick(p, keys, k);
      WeightPick(q, keys, k);
      WeightSame(p, q, keys - {k});
    }
  }

  /** A provider holding `share` out of `total` votes alone. */
  lemma LoneVoter(share: U64, total: nat) returns (power: PowerMap, list: VoteList)
    requires share <= total
    ensures Total(power) == total && Distinct(list) && list.Voters?
    ensures Tally(power, list.keys) == share == Weight(power, Members(list) * power.Keys)
  {
    var others := Spread(1, total - share);
    power := others[Name(0) := share];
    WeightPick(power, power.Keys, Name(0));
    assert power.Keys - {Name(0)} == others.Keys;
    WeightSame(power, others, others.Keys);
    list := Voters([Name(0)]);
    TallyIsWeight(power, list.keys);
    assert list.keys[..0] == [];
    assert Tally(power, list.keys) == Tally(power, []) + share;
  }

  /** A vote share the wrapped comparison judges wrongly. */
  function Misjudged(total: nat): (share: U64)
    requires 3 * total >= MOD
    ensures share <= total
    ensures 2 * total < MOD ==> share * 3 % MOD < 2 * total <= 3 * share
    ensures 2 * total >= MOD ==> 2 * total % MOD <= share * 3 == share * 3 % MOD && 3 * share < 2 * total
  {
    if 2 * total < MOD then total else (2 * total % MOD + 2) / 3
  }

  lemma MisjudgedCompare(total: nat)
    requires 3 * total >= MOD
    ensures
      var share, machine := Misjudged(total), total % MOD;
      (machine == 0 || !(MulU64(share, 3) < MulU64(machine, 2))) <==> !(3 * share >= 2 * total)
  {
    DoubleMod(total);
    var share, machine := Misjudged(total), total % MOD;
    assert MulU64(machine, 2) == 2 * total % MOD;
    assert MulU64(share, 3) == share * 3 % MOD;
    if 2 * total < MOD {
      assert machine == total;
    }
  }

  lemma WrongAbove(total: nat) returns (power: PowerMap, list: VoteList)
    requires 3 * total >= MOD
    ensures Total(power) == total && Distinct(list)
    ensures Decides(power, list) != TwoThirds(power, Members(list))
  {
    hide Weight, Tally, Total, NoDup, Misjudged, Members;
    var share := Misjudged(total);
    power, list := LoneVoter(share, total);
    MisjudgedCompare(total);
    assert share % MOD == share;
  }

  /** The largest total power for which the `uint64` check is right is exactly (2^64 - 1) / 3. */
  lemma TotalBoundIsExact(total: nat)
    ensures TrustworthyTotal(total) <==> 3 * total < MOD
  {
    if 3 * total < MOD {
      forall power: PowerMap, list: VoteList | Total(power) == total && Distinct(list)
        ensures Decides(power, list) <==> TwoThirds(power, Members(list))
      {
        QuorumExact(power, list);
      }
    } else {
      var power, list := WrongAbove(total);
    }
  }

  lemma DoubleMod(n: nat)
    ensures 2 * (n % MOD) % MOD == 2 * n % MOD
  {
    var q := n / MOD;
    assert 2 * n == 2 * (n % MOD) + 2 * q * MOD;
    ModShift(2 * (n % MOD), 2 * q);
  }

  lemma {:induction false} ModShift(a: nat, q: nat)
    ensures (a + q * MOD) % MOD == a % MOD
    decreases q
  {
    if q > 0 {
      ModShift(a, q - 1);
      assert a + q * MOD == (a + (q - 1) * MOD) + MOD;
    }
  }

  ghost predicate TrustworthyList(list: VoteList) {
    forall power: PowerMap
      | 3 * Total(power) < MOD
      :: Decides(power, list) <==> TwoThirds(power, Members(list))
  }

  /** A repeated key is counted twice: the check is right for every power map exactly when the
      list has no repeats. (A slice of strings has 16 bytes an entry, so it is shorter than 2^60.) */
  lemma RepeatsAreExactlyTheFlaw(list: VoteList)
    requires list.Voters? ==> |list.keys| < 0x1000_0000_0000_0000
    ensures TrustworthyList(list) <==> Distinct(list)
  {
    if Distinct(list) {
      forall power: PowerMap | 3 * Total(power) < MOD
        ensures Decides(power, list) <==> TwoThirds(power, Members(list))
      {
        QuorumExact(power, list);
      }
    } else {
      var power := WrongOnRepeats(list);
    }
  }

  lemma WrongOnRepeats(list: VoteList) returns (power: PowerMap)
    requires !Distinct(list) && |list.keys| < 0x1000_0000_0000_0000
    ensures 3 * Total(power) < MOD
    ensures Decides(power, list) && !TwoThirds(power, Members(list))
  {
    var keys := list.keys;
    var i, j :| 0 <= i < j < |keys| && keys[i] == keys[j];
    var twice, absent := keys[i], Name(LongestKey(keys) + 1);
    power := map[twice := 1, absent := 1];
    PairWeights(twice, absent);
    assert Members(list) * power.Keys == {twice};
    TallyCounts(power, keys, twice, absent);
    CountRepeat(keys, i, j);
    var voted := Tally(power, keys);
    assert voted % MOD == voted && MulU64(voted, 3) == 3 * voted;
  }

  lemma PairWeights(a: FpKey, b: FpKey)
    requires a != b
    ensures var power: PowerMap := map[a := 1, b := 1]; Total(power) == 2 && Weight(power, {a}) == 1
  {
    var power: PowerMap := map[a := 1, b := 1];
    WeightPick(power, power.Keys, a);
    assert power.Keys - {a} == {b};
    WeightPick(power, {b}, b);
    WeightPick(power, {a}, a);
    assert {b} - {b} == {} && {a} - {a} == {};
  }

  ghost function LongestKey(keys: seq<FpKey>): (n: nat)
    ensures forall k :: k in keys ==> |k| <= n
  {
    if keys == [] then 0
    else
      var n := LongestKey(keys[1..]);
      if n < |keys[0]| then |keys[0]| else n
  }

  lemma {:induction false} TallyCounts(power: PowerMap, keys: seq<FpKey>, twice: FpKey, absent: FpKey)
    requires power == map[twice := 1, absent := 1] && absent !in keys
    ensures Tally(power, keys) == multiset(keys)[twice]
    ensures Tally(power, keys) <= |keys|
  {
    if keys != [] {
      assert keys == keys[..|keys| - 1] + [keys[|keys| - 1]];
      TallyCounts(power, keys[..|keys| - 1], twice, absent);
    }
  }

  lemma CountRepeat(keys: seq<FpKey>, i: nat, j: nat)
    requires i < j < |keys| && keys[i] == keys[j]
    ensures multiset(keys)[keys[i]] >= 2
  {
    var a, b := keys[..j], keys[j..];
    assert keys == a + b;
    assert keys[i] == a[i] && a[i] in a;
    assert keys[j] == b[0] && b[0] in b;
    assert multiset(keys) == multiset(a) + multiset(b);
  }
}
