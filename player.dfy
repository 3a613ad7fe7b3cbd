/** `Player.bias` and `Player.affinity` of models/player.py: counters
    derived from the instances a player has passed on. */
module Players {
  import opened Errors
  import opened Cards

  /** Every instance names an existing card. */
  predicate CardsExist(instances: seq<CardInstance>, cards: seq<Card>)
  {
    forall j :: 0 <= j < |instances| ==> instances[j].card < |cards|
  }

  /** Whether instance `j` adds to the player's bias against colour `c`: it
      is the player's, its card is biased against `c`, and it is passed. */
  predicate BiasCounts(instances: seq<CardInstance>, cards: seq<Card>, p: nat, c: nat, j: nat)
    requires CardsExist(instances, cards) && j < |instances|
  {
    && instances[j].player == p
    && cards[instances[j].card].biasAgainst == Some(c)
    && StatusOf(instances, j) == Passed
  }

  /** Whether instance `j` adds to the player's affinity towards topic `t`. */
  predicate AffinityCounts(instances: seq<CardInstance>, cards: seq<Card>, p: nat, t: nat, j: nat)
    requires CardsExist(instances, cards) && j < |instances|
  {
    && instances[j].player == p
    && cards[instances[j].card].affinityTowards == Some(t)
    && StatusOf(instances, j) == Passed
  }

  /** The bias of player `p` against `c` over the first `n` instances. */
  function BiasOf(instances: seq<CardInstance>, cards: seq<Card>, p: nat, c: nat, n: nat): nat
    requires CardsExist(instances, cards) && n <= |instances|
  {
    if n == 0 then 0
    else BiasOf(instances, cards, p, c, n - 1) + (if BiasCounts(instances, cards, p, c, n - 1) then 1 else 0)
  }

  /** The affinity of player `p` towards `t` over the first `n` instances:
      the sum of the counts of the cards counted. A counted card without a
      count makes Python's `count += None` fail with TypeError. */
  function AffinityOf(instances: seq<CardInstance>, cards: seq<Card>, p: nat, t: nat, n: nat): Result<int>
    requires CardsExist(instances, cards) && n <= |instances|
  {
    if n == 0 then Ok(0)
    else
      AddCount(AffinityOf(instances, cards, p, t, n - 1), AffinityCounts(instances, cards, p, t, n - 1),
               cards[instances[n - 1].card].affinityCount)
  }

  /** One step of the sum: `count += card.affinity_count` when the instance
      counts. */
  function AddCount(before: Result<int>, counts: bool, count: Option<int>): Result<int>
  {
    if before.Err? || !counts then before
    else if count.None? then Err(TypeError)
    else Ok(before.value + count.value)
  }

  /** The number of instances of player `p` among the first `n`. */
  function InstanceCount(instances: seq<CardInstance>, p: nat, n: nat): nat
    requires n <= |instances|
  {
    if n == 0 then 0
    else InstanceCount(instances, p, n - 1) + (if instances[n - 1].player == p then 1 else 0)
  }

  /** The positions, among the first `n`, of the instances that count
      towards the player's bias against `c`. */
  function BiasIndices(instances: seq<CardInstance>, cards: seq<Card>, p: nat, c: nat, n: nat): (s: set<nat>)
    requires CardsExist(instances, cards) && n <= |instances|
    ensures forall j :: j in s ==> j < n
  {
    if n == 0 then {}
    else if BiasCounts(instances, cards, p, c, n - 1) then BiasIndices(instances, cards, p, c, n - 1) + {n - 1}
    else BiasIndices(instances, cards, p, c, n - 1)
  }

  /** BiasIndices holds exactly the positions that count. */
  lemma {:induction false} BiasIndicesMembers(instances: seq<CardInstance>, cards: seq<Card>, p: nat, c: nat, n: nat, j: nat)
    requires CardsExist(instances, cards) && n <= |instances|
    ensures j in BiasIndices(instances, cards, p, c, n) <==> j < n && BiasCounts(instances, cards, p, c, j)
  {
    if n > 0 {
      BiasIndicesMembers(instances, cards, p, c, n - 1, j);
    }
  }

  /** The bias is the number of the player's passed instances whose card is
      biased against the colour. */
  lemma {:induction false} BiasIsCount(instances: seq<CardInstance>, cards: seq<Card>, p: nat, c: nat, n: nat)
    requires CardsExist(instances, cards) && n <= |instances|
    ensures BiasOf(instances, cards, p, c, n) == |BiasIndices(instances, cards, p, c, n)|
  {
    if n > 0 {
      BiasIsCount(instances, cards, p, c, n - 1);
      var before := BiasIndices(instances, cards, p, c, n - 1);
      var hit := BiasCounts(instances, cards, p, c, n - 1);
      CardinalityStep(before, BiasIndices(instances, cards, p, c, n), n - 1, hit);
    }
  }

  lemma CardinalityStep(before: set<nat>, after: set<nat>, x: nat, hit: bool)
    requires x !in before
    requires after == if hit then before + {x} else before
    ensures |after| == |before| + if hit then 1 else 0
  {
  }

  /** The bias is never negative and never more than the number of the
      player's instances. */
  lemma {:induction false} BiasBounded(instances: seq<CardInstance>, cards: seq<Card>, p: nat, c: nat, n: nat)
    requires CardsExist(instances, cards) && n <= |instances|
    ensures 0 <= BiasOf(instances, cards, p, c, n) <= InstanceCount(instances, p, n)
  {
    if n > 0 {
      BiasBounded(instances, cards, p, c, n - 1);
    }
  }

  /** An instance still held adds nothing: giving it any other card leaves
      every bias and every affinity as it was. */
  lemma {:induction false} HoldingIgnored(instances: seq<CardInstance>, cards: seq<Card>, p: nat,
                                          c: nat, t: nat, i: nat, other: nat, n: nat)
    requires CardsExist(instances, cards) && n <= |instances|
    requires i < |instances| && StatusOf(instances, i) == Holding && other < |cards|
    ensures var changed := instances[i := instances[i].(card := other)];
            && BiasOf(changed, cards, p, c, n) == BiasOf(instances, cards, p, c, n)
            && AffinityOf(changed, cards, p, t, n) == AffinityOf(instances, cards, p, t, n)
  {
    var changed := instances[i := instances[i].(card := other)];
    if n > 0 {
      HoldingIgnored(instances, cards, p, c, t, i, other, n - 1);
      forall j | 0 <= j < |instances| ensures StatusOf(changed, j) == StatusOf(instances, j) {
        assert forall k :: 0 <= k < |instances| ==> changed[k].passedFrom == instances[k].passedFrom;
      }
      if n - 1 == i {
        assert !BiasCounts(changed, cards, p, c, i) && !BiasCounts(instances, cards, p, c, i);
        assert !AffinityCounts(changed, cards, p, t, i) && !AffinityCounts(instances, cards, p, t, i);
      } else {
        assert changed[n - 1] == instances[n - 1];
      }
    }
  }

  /** Passing one more instance on: appending an instance passed from `i`
      turns `i` from holding to passed, so the affinity of `i`'s player
      towards `i`'s topic moves by exactly the card's count (or fails when
      the card has none), and every other affinity stays as it was. */
  lemma AffinityStep(instances: seq<CardInstance>, cards: seq<Card>, p: nat, t: nat,
                     x: CardInstance, i: nat)
    requires CardsExist(instances, cards) && x.card < |cards|
    requires forall j :: 0 <= j < |instances| && instances[j].passedFrom.Some? ==>
               instances[j].passedFrom.value < |instances|
    requires i < |instances| && x.passedFrom == Some(i) && StatusOf(instances, i) == Holding
    ensures CardsExist(instances + [x], cards)
    ensures var grown := instances + [x];
            var hit := instances[i].player == p && cards[instances[i].card].affinityTowards == Some(t);
            var before := AffinityOf(instances, cards, p, t, |instances|);
            var after := AffinityOf(grown, cards, p, t, |grown|);
            var count := cards[instances[i].card].affinityCount;
            && (!hit ==> after == before)
            && (hit && before.Ok? && count.Some? ==> after == Ok(before.value + count.value))
            && (hit && (before.Err? || count.None?) ==> after.Err?)
  {
    var grown := instances + [x];
    AffinityPrefix(instances, cards, p, t, x, i, |instances|);
    assert StatusOf(grown, |instances|) == Holding by {
      assert forall j :: 0 <= j < |instances| ==> grown[j].passedFrom != Some(|instances|);
    }
    assert !AffinityCounts(grown, cards, p, t, |instances|);
  }

  /** Over the first `n` instances, appending `x` changes the affinity only
      through instance `i`. */
  lemma {:induction false} AffinityPrefix(instances: seq<CardInstance>, cards: seq<Card>, p: nat, t: nat,
                                          x: CardInstance, i: nat, n: nat)
    requires CardsExist(instances, cards) && x.card < |cards|
    requires i < |instances| && x.passedFrom == Some(i) && StatusOf(instances, i) == Holding
    requires n <= |instances|
    ensures CardsExist(instances + [x], cards)
    ensures var grown := instances + [x];
            var hit := n > i && instances[i].player == p && cards[instances[i].card].affinityTowards == Some(t);
            var before := AffinityOf(instances, cards, p, t, n);
            var after := AffinityOf(grown, cards, p, t, n);
            var count := cards[instances[i].card].affinityCount;
            && (!hit ==> after == before)
            && (hit && before.Ok? && count.Some? ==> after == Ok(before.value + count.value))
            && (hit && (before.Err? || count.None?) ==> after.Err?)
  {
    var grown := instances + [x];
    GrownCardsExist(instances, cards, x);
    if n > 0 {
      AffinityPrefix(instances, cards, p, t, x, i, n - 1);
      var j := n - 1;
      CountsAfterPass(instances, cards, p, t, x, i, j);
      var b0 := AffinityOf(instances, cards, p, t, j);
      var a0 := AffinityOf(grown, cards, p, t, j);
      assert grown[j] == instances[j];
      var cj := cards[instances[j].card].affinityCount;
      if j != i {
        var counts := AffinityCounts(instances, cards, p, t, j);
        if b0.Ok? && a0.Ok? && counts && cj.Some? {
          assert AffinityOf(grown, cards, p, t, n) == Ok(a0.value + cj.value);
          assert AffinityOf(instances, cards, p, t, n) == Ok(b0.value + cj.value);
        }
      }
    }
  }

  lemma GrownCardsExist(instances: seq<CardInstance>, cards: seq<Card>, x: CardInstance)
    requires CardsExist(instances, cards) && x.card < |cards|
    ensures CardsExist(instances + [x], cards)
  {
    var grown := instances + [x];
    forall j | 0 <= j < |grown| ensures grown[j].card < |cards| {
      if j < |instances| {
        assert grown[j] == instances[j];
      }
    }
  }

  /** After appending `x` passed from `i`, instance `i` counts towards the
      sum exactly when its player and topic match, and every other earlier
      instance counts as before. */
  lemma CountsAfterPass(instances: seq<CardInstance>, cards: seq<Card>, p: nat, t: nat,
                        x: CardInstance, i: nat, j: nat)
    requires CardsExist(instances, cards) && x.card < |cards|
    requires i < |instances| && x.passedFrom == Some(i) && StatusOf(instances, i) == Holding
    requires j < |instances|
    ensures CardsExist(instances + [x], cards)
    ensures j == i ==> !AffinityCounts(instances, cards, p, t, j)
    ensures j == i ==> (AffinityCounts(instances + [x], cards, p, t, j) <==>
                        instances[i].player == p && cards[instances[i].card].affinityTowards == Some(t))
    ensures j != i ==> AffinityCounts(instances + [x], cards, p, t, j) == AffinityCounts(instances, cards, p, t, j)
  {
    GrownCardsExist(instances, cards, x);
    StatusAfterCreate(instances, x, j);
    assert (instances + [x])[j] == instances[j];
  }

  /** `Player.bias(against)` for player `p`: counts, over the player's
      instances in table order, those whose card is biased against the
      colour and which are passed. */
  method Bias(tables: CardTables, p: nat, against: nat) returns (count: nat)
    requires tables.Valid()
    ensures CardsExist(tables.instances, tables.cards)
    ensures count == BiasOf(tables.instances, tables.cards, p, against, |tables.instances|)
  {
    var instances := tables.instances;
    count := 0;
    var j := 0;
    while j < |instances|
      invariant 0 <= j <= |instances|
      invariant count == BiasOf(instances, tables.cards, p, against, j)
    {
      var ci := instances[j];
      if ci.player == p && tables.cards[ci.card].biasAgainst == Some(against) {
        if StatusOf(instances, j) == Passed {
          count := count + 1;
        }
      }
      j := j + 1;
    }
  }

  /** `Player.affinity(towards)` for player `p`: sums the counts of the
      passed instances whose card is towards the topic; the first such card
      without a count fails with TypeError. */
  method Affinity(tables: CardTables, p: nat, towards: nat) returns (res: Result<int>)
    requires tables.Valid()
    ensures CardsExist(tables.instances, tables.cards)
    ensures res == AffinityOf(tables.instances, tables.cards, p, towards, |tables.instances|)
  {
    var instances := tables.instances;
    var count := 0;
    var j := 0;
    while j < |instances|
      invariant 0 <= j <= |instances|
      invariant AffinityOf(instances, tables.cards, p, towards, j) == Ok(count)
    {
      var ci := instances[j];
      if ci.player == p && tables.cards[ci.card].affinityTowards == Some(towards) {
        if StatusOf(instances, j) == Passed {
          var inc := tables.cards[ci.card].affinityCount;
          if inc.None? {
            AffinityErrStays(instances, tables.cards, p, towards, j + 1, |instances|);
            return Err(TypeError);
          }
          count := count + inc.value;
        }
      }
      j := j + 1;
    }
    res := Ok(count);
  }

  /** Once the sum has failed, it stays failed. */
  lemma {:induction false} AffinityErrStays(instances: seq<CardInstance>, cards: seq<Card>, p: nat, t: nat,
                                            n: nat, m: nat)
    requires CardsExist(instances, cards) && n <= m <= |instances|
    requires AffinityOf(instances, cards, p, t, n).Err?
    ensures AffinityOf(instances, cards, p, t, m) == AffinityOf(instances, cards, p, t, n)
    decreases m - n
  {
    if n < m {
      AffinityErrStays(instances, cards, p, t, n + 1, m);
    }
  }
}
