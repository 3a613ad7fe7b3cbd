/** The card and card-instance tables of models/card.py.
    A card is a template in one game; an instance is one copy of it in the
    hands of one player, created either by drawing the card (a root
    instance) or by passing an instance on (an instance whose source is the
    instance it was passed from). */
module Cards {
  import opened Errors

  /** One row of the card table. Foreign keys (game, topic, colour, player,
      card) are row ids. */
  datatype Card = Card(
    game: nat,
    title: string,
    description: string,
    affinityTowards: Option<nat>,
    affinityCount: Option<int>,
    biasAgainst: Option<nat>,
    biasHistory: set<nat>,
    originalPlayer: Option<nat>,
    fake: bool,
    original: Option<nat>,
    fakedBy: Option<nat>,
    discarded: bool,
    tgb: Option<int>)

  /** One row of the card-instance table; `passedFrom` is the `from_` column. */
  datatype CardInstance = CardInstance(
    card: nat,
    passedFrom: Option<nat>,
    player: nat,
    game: nat,
    discarded: bool)

  datatype Status = Passed | Holding

  /** The (card, player, game) triple that the table's index keeps unique. */
  function Key(ci: CardInstance): (nat, nat, nat)
  {
    (ci.card, ci.player, ci.game)
  }

  /** The unique index on (card, player, game). */
  predicate UniqueKeys(instances: seq<CardInstance>)
  {
    forall i, j :: 0 <= i < |instances| && 0 <= j < |instances| && i != j ==>
      Key(instances[i]) != Key(instances[j])
  }

  /** Whether some instance already has the given key. */
  predicate KeyTaken(instances: seq<CardInstance>, key: (nat, nat, nat))
  {
    exists j | 0 <= j < |instances| :: Key(instances[j]) == key
  }

  /** `CardInstance.status`: an instance is passed once some instance points
      back at it through `from_`, and holding until then. */
  function StatusOf(instances: seq<CardInstance>, i: nat): (s: Status)
    ensures s == Passed <==> exists j :: 0 <= j < |instances| && instances[j].passedFrom == Some(i)
  {
    if exists j | 0 <= j < |instances| :: instances[j].passedFrom == Some(i) then Passed else Holding
  }

  /** Creating a row can only turn a holding instance into a passed one, and
      only the instance the new row was passed from. */
  lemma StatusAfterCreate(instances: seq<CardInstance>, x: CardInstance, i: nat)
    ensures StatusOf(instances + [x], i) == Passed <==>
            StatusOf(instances, i) == Passed || x.passedFrom == Some(i)
  {
    var t := instances + [x];
    if x.passedFrom == Some(i) {
      assert t[|instances|].passedFrom == Some(i);
    }
    if StatusOf(instances, i) == Passed {
      var j :| 0 <= j < |instances| && instances[j].passedFrom == Some(i);
      assert t[j].passedFrom == Some(i);
    }
  }

  /** The players who hold or have held an instance of card `c`. */
  function Holders(instances: seq<CardInstance>, c: nat): (hs: set<nat>)
    ensures forall p :: p in hs <==> exists j :: 0 <= j < |instances| && instances[j].card == c && instances[j].player == p
  {
    set j | 0 <= j < |instances| && instances[j].card == c :: instances[j].player
  }

  /** `CardInstance.allowed_recipients` for instance `i`: the players of its
      game (`gamePlayers`) except every player with an instance of the same
      card. */
  function AllowedRecipients(gamePlayers: set<nat>, instances: seq<CardInstance>, i: nat): (r: set<nat>)
    requires i < |instances|
    ensures r <= gamePlayers
    ensures forall p :: p in r <==>
      p in gamePlayers && forall j :: 0 <= j < |instances| && instances[j].card == instances[i].card ==> instances[j].player != p
  {
    gamePlayers - Holders(instances, instances[i].card)
  }

  /** The holder of an instance is never one of its recipients. */
  lemma HolderIsNoRecipient(gamePlayers: set<nat>, instances: seq<CardInstance>, i: nat)
    requires i < |instances|
    ensures instances[i].player !in AllowedRecipients(gamePlayers, instances, i)
  {
  }

  /** Creating one more instance never lets a new recipient in, and the
      player of a new instance of the same card drops out. */
  lemma RecipientsShrink(gamePlayers: set<nat>, instances: seq<CardInstance>, x: CardInstance, i: nat)
    requires i < |instances|
    ensures AllowedRecipients(gamePlayers, instances + [x], i) <= AllowedRecipients(gamePlayers, instances, i)
    ensures x.card == instances[i].card ==> x.player !in AllowedRecipients(gamePlayers, instances + [x], i)
  {
    var t := instances + [x];
    assert t[|instances|] == x;
    forall j | 0 <= j < |instances| ensures t[j] == instances[j] { }
  }

  /** The card and card-instance tables. */
  class CardTables {
    var cards: seq<Card>
    var instances: seq<CardInstance>

    /** Every foreign key of an instance names an existing row, and the
        unique index holds. */
    ghost predicate Valid()
      reads this
    {
      && UniqueKeys(instances)
      && (forall i :: 0 <= i < |instances| ==> instances[i].card < |cards|)
      && (forall i :: 0 <= i < |instances| && instances[i].passedFrom.Some? ==> instances[i].passedFrom.value < |instances|)
    }

    constructor (cards0: seq<Card>)
      ensures Valid()
      ensures cards == cards0 && instances == []
    {
      cards := cards0;
      instances := [];
    }

    /** `Card.draw`: creates a root instance of card `c` for `player` in the
        card's game and records `player` as the card's original player. When
        that player already has an instance of the card, the unique index
        refuses the row and nothing changes. */
    method Draw(c: nat, player: nat) returns (res: Result<nat>)
      requires Valid()
      requires c < |cards|
      modifies this
      ensures Valid()
      ensures var key := (c, player, old(cards[c].game));
              res.Err? <==> KeyTaken(old(instances), key)
      ensures res.Err? ==> res.error == IntegrityError && cards == old(cards) && instances == old(instances)
      ensures res.Ok? ==> res.value == |old(instances)|
      ensures res.Ok? ==> instances == old(instances) + [CardInstance(c, None, player, old(cards[c].game), false)]
      ensures res.Ok? ==> cards == old(cards)[c := old(cards[c]).(originalPlayer := Some(player))]
      ensures res.Ok? ==> StatusOf(instances, res.value) == Holding
      ensures res.Ok? ==> forall i :: 0 <= i < |old(instances)| ==> StatusOf(instances, i) == StatusOf(old(instances), i)
    {
      var card := cards[c];
      var row := CardInstance(c, None, player, card.game, false);
      if KeyTaken(instances, Key(row)) {
        return Err(IntegrityError);
      }
      var before := instances;
      instances := instances + [row];
      cards := cards[c := card.(originalPlayer := Some(player))];
      forall i | 0 <= i < |before| ensures StatusOf(instances, i) == StatusOf(before, i) {
        StatusAfterCreate(before, row, i);
      }
      assert instances[|before|] == row;
      assert forall j :: 0 <= j < |before| ==> instances[j] == before[j];
      res := Ok(|before|);
    }

    /** `Card.add_bias`: the card becomes biased against `against`, and the
        colour it was biased against before, if any, goes into its history.
        The history table keeps (card, colour) unique, so a colour already in
        the history is refused and nothing changes. */
    method AddBias(c: nat, against: nat) returns (res: Result<()>)
      requires Valid()
      requires c < |cards|
      modifies this
      ensures Valid() && instances == old(instances)
      ensures var was := old(cards[c]);
              res.Err? <==> was.biasAgainst.Some? && was.biasAgainst.value in was.biasHistory
      ensures res.Err? ==> res.error == IntegrityError && cards == old(cards)
      ensures res.Ok? ==> |cards| == |old(cards)| && forall k :: 0 <= k < |cards| && k != c ==> cards[k] == old(cards[k])
      ensures res.Ok? ==> cards[c].biasAgainst == Some(against)
      ensures res.Ok? ==>
                cards[c].biasHistory ==
                  if old(cards[c].biasAgainst).Some?
                  then old(cards[c].biasHistory) + {old(cards[c].biasAgainst).value}
                  else old(cards[c].biasHistory)
      ensures res.Ok? ==> cards[c] == old(cards[c]).(biasAgainst := cards[c].biasAgainst, biasHistory := cards[c].biasHistory)
    {
      var card := cards[c];
      var history := card.biasHistory;
      if card.biasAgainst.Some? {
        if card.biasAgainst.value in history {
          return Err(IntegrityError);
        }
        history := history + {card.biasAgainst.value};
      }
      cards := cards[c := card.(biasAgainst := Some(against), biasHistory := history)];
      res := Ok(());
    }

    /** `CardInstance.create_fake_news`: instance `i` now shows `fake`, one of
        the fakes of its card, and `fake` is marked as faked by the instance's
        player. A card that is not one of those fakes fails the assertion and
        changes nothing. The fake card is saved before the instance, so when
        the player already holds an instance of `fake` the unique index
        refuses the instance but the fake stays marked. */
    method CreateFakeNews(i: nat, fake: nat) returns (res: Result<()>)
      requires Valid()
      requires i < |instances| && fake < |cards|
      modifies this
      ensures Valid()
      ensures |cards| == |old(cards)| && |instances| == |old(instances)|
      ensures var ci := old(instances[i]);
              old(cards[fake].original) != Some(ci.card) ==>
                res == Err(AssertionError) && cards == old(cards) && instances == old(instances)
      ensures var ci := old(instances[i]);
              old(cards[fake].original) == Some(ci.card) ==>
                cards == old(cards)[fake := old(cards[fake]).(fakedBy := Some(ci.player))]
      ensures var ci := old(instances[i]);
              old(cards[fake].original) == Some(ci.card) ==>
                (res.Err? <==> exists j :: 0 <= j < |old(instances)| && j != i && Key(old(instances[j])) == (fake, ci.player, ci.game))
      ensures old(cards[fake].original) == Some(old(instances[i]).card) && res.Err? ==>
                res.error == IntegrityError && instances == old(instances)
      ensures res.Ok? ==> instances == old(instances)[i := old(instances[i]).(card := fake)]
    {
      var ci := instances[i];
      if cards[fake].original != Some(ci.card) {
        return Err(AssertionError);
      }
      cards := cards[fake := cards[fake].(fakedBy := Some(ci.player))];
      var row := ci.(card := fake);
      if exists j | 0 <= j < |instances| :: j != i && Key(instances[j]) == Key(row) {
        return Err(IntegrityError);
      }
      instances := instances[i := row];
      res := Ok(());
    }
  }
}
