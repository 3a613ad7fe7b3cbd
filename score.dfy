/** The score table of models/score.py: one row per counter, updated in
    place by adding an increment to every row that matches. */
module Scores {
  import opened Errors

  /** One row; `player`, `affinityTowards` and `biasAgainst` are nullable
      foreign keys. */
  datatype Score = Score(
    game: nat,
    player: Option<nat>,
    affinityTowards: Option<nat>,
    affinityCount: int,
    biasAgainst: Option<nat>,
    biasCount: int,
    clout: int)

  /** The rows after `update_bias(color, inc)`: every row biased against
      `color`, of any player and any game, gains `inc`. */
  function BiasUpdated(rows: seq<Score>, color: nat, inc: int): (rs: seq<Score>)
    ensures |rs| == |rows|
  {
    seq(|rows|, j requires 0 <= j < |rows| =>
      if rows[j].biasAgainst == Some(color) then rows[j].(biasCount := rows[j].biasCount + inc) else rows[j])
  }

  /** The rows after `update_affinity(topic, inc)`. */
  function AffinityUpdated(rows: seq<Score>, topic: nat, inc: int): (rs: seq<Score>)
    ensures |rs| == |rows|
  {
    seq(|rows|, j requires 0 <= j < |rows| =>
      if rows[j].affinityTowards == Some(topic) then rows[j].(affinityCount := rows[j].affinityCount + inc) else rows[j])
  }

  /** Exactly the bias count of the matching rows moves, by `inc`; every
      other row and every other field stays. */
  lemma BiasUpdateChanges(rows: seq<Score>, color: nat, inc: int)
    ensures var rs := BiasUpdated(rows, color, inc);
            && (forall j :: 0 <= j < |rows| && rows[j].biasAgainst == Some(color) ==>
                  rs[j].biasCount == rows[j].biasCount + inc)
            && (forall j :: 0 <= j < |rows| && rows[j].biasAgainst != Some(color) ==> rs[j] == rows[j])
            && (forall j :: 0 <= j < |rows| ==> rs[j].(biasCount := rows[j].biasCount) == rows[j])
  {
  }

  lemma AffinityUpdateChanges(rows: seq<Score>, topic: nat, inc: int)
    ensures var rs := AffinityUpdated(rows, topic, inc);
            && (forall j :: 0 <= j < |rows| && rows[j].affinityTowards == Some(topic) ==>
                  rs[j].affinityCount == rows[j].affinityCount + inc)
            && (forall j :: 0 <= j < |rows| && rows[j].affinityTowards != Some(topic) ==> rs[j] == rows[j])
            && (forall j :: 0 <= j < |rows| ==> rs[j].(affinityCount := rows[j].affinityCount) == rows[j])
  {
  }

  /** Two updates are one update by their sum. */
  lemma BiasUpdatesCompose(rows: seq<Score>, color: nat, a: int, b: int)
    ensures BiasUpdated(BiasUpdated(rows, color, a), color, b) == BiasUpdated(rows, color, a + b)
  {
  }

  lemma AffinityUpdatesCompose(rows: seq<Score>, topic: nat, a: int, b: int)
    ensures AffinityUpdated(AffinityUpdated(rows, topic, a), topic, b) == AffinityUpdated(rows, topic, a + b)
  {
  }

  /** Updates of different counters commute. */
  lemma UpdatesCommute(rows: seq<Score>, color: nat, topic: nat, a: int, b: int)
    ensures BiasUpdated(AffinityUpdated(rows, topic, b), color, a)
            == AffinityUpdated(BiasUpdated(rows, color, a), topic, b)
  {
  }

  /** Nothing clamps a count: a fresh row decremented goes below zero. */
  lemma CountsGoNegative(game: nat, color: nat)
    ensures var row := Score(game, None, None, 0, Some(color), 0, 0);
            BiasUpdated([row], color, -1)[0].biasCount == -1
  {
  }

  /** The score table. */
  class ScoreTable {
    var rows: seq<Score>

    constructor ()
      ensures rows == []
    {
      rows := [];
    }

    /** Creates a row with the column defaults: both counts and the clout
        start at 0. */
    method Create(game: nat, player: Option<nat>, towards: Option<nat>, against: Option<nat>)
      returns (id: nat)
      modifies this
      ensures id == |old(rows)|
      ensures rows == old(rows) + [Score(game, player, towards, 0, against, 0, 0)]
    {
      id := |rows|;
      rows := rows + [Score(game, player, towards, 0, against, 0, 0)];
    }

    /** `Score.update_bias(color, inc)`; the row it is called on plays no
        part. */
    method UpdateBias(color: nat, inc: int)
      modifies this
      ensures rows == BiasUpdated(old(rows), color, inc)
    {
      rows := BiasUpdated(rows, color, inc);
    }

    /** `Score.update_affinity(topic, inc)`. */
    method UpdateAffinity(topic: nat, inc: int)
      modifies this
      ensures rows == AffinityUpdated(old(rows), topic, inc)
    {
      rows := AffinityUpdated(rows, topic, inc);
    }
  }
}
