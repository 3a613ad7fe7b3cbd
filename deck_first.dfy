/** The deck generator of deck_generators/first.py: the random draws pick a
    branch (bias, fake or true; affinity or topical), the branch's filter
    picks the first eligible card of the table, and a fallback filter is
    tried when the branch finds none. The draws, the game's total global
    bias `tgb` and the end score are inputs. */
module DeckFirst {
  import opened Errors
  import opened Cards

  datatype Branch = BiasCard | FakeAffinity | FakeTopical | TrueAffinity | TrueTopical

  predicate IsFake(b: Branch)
  {
    b == FakeAffinity || b == FakeTopical
  }

  /** The branch the three draws select: a bias card when the bias draw is
      at most 0.2; otherwise a fake card when the fake draw is below
      `tgb / endScore` and a true card when not, about an affinity when the
      affinity draw is below 0.5 and topical when not. */
  function ChooseBranch(biasDraw: real, fakeDraw: real, affinityDraw: real, tgb: int, endScore: real): (b: Branch)
    requires endScore > 0.0
    ensures b == BiasCard <==> biasDraw <= 0.2
    ensures IsFake(b) <==> biasDraw > 0.2 && fakeDraw < tgb as real / endScore
    ensures (b == FakeAffinity || b == TrueAffinity) <==> biasDraw > 0.2 && affinityDraw < 0.5
  {
    if biasDraw <= 0.2 then BiasCard
    else if fakeDraw < tgb as real / endScore then
      (if affinityDraw < 0.5 then FakeAffinity else FakeTopical)
    else
      (if affinityDraw < 0.5 then TrueAffinity else TrueTopical)
  }

  /** With no global bias yet and a fake draw in [0, 1], no fake branch is
      ever taken. */
  lemma NeverFakeWithoutBias(biasDraw: real, fakeDraw: real, affinityDraw: real, tgb: int, endScore: real)
    requires endScore > 0.0 && tgb <= 0 && 0.0 <= fakeDraw <= 1.0
    ensures !IsFake(ChooseBranch(biasDraw, fakeDraw, affinityDraw, tgb, endScore))
  {
    assert tgb as real / endScore <= 0.0 by {
      assert tgb as real <= 0.0;
    }
  }

  /** A card nobody has drawn yet, of the player's game. */
  predicate Undrawn(c: Card, game: nat)
  {
    c.game == game && c.originalPlayer.None?
  }

  /** The SQL comparison `Card.tgb <= bound`: a card without a threshold
      never matches. */
  predicate TgbAtMost(c: Card, bound: int)
  {
    c.tgb.Some? && c.tgb.value <= bound
  }

  /** The filter of each branch, for a player of `game` whose colour is
      `color`. */
  predicate Candidate(b: Branch, c: Card, game: nat, color: nat, tgb: int)
  {
    Undrawn(c, game) &&
    match b
    case BiasCard =>
      c.biasAgainst.Some? && c.biasAgainst.value != color && TgbAtMost(c, tgb + 2)
    case FakeAffinity =>
      c.affinityTowards.Some? && c.fake && c.fakedBy.None? && TgbAtMost(c, tgb)
    case FakeTopical =>
      c.affinityTowards.None? && c.biasAgainst.None? && c.fake && c.fakedBy.None? && TgbAtMost(c, tgb)
    case TrueAffinity =>
      c.affinityTowards.Some? && !c.fake && TgbAtMost(c, tgb)
    case TrueTopical =>
      c.affinityTowards.None? && c.biasAgainst.None? && !c.fake && TgbAtMost(c, tgb)
  }

  /** The fallback filter: any undrawn card whose threshold is strictly
      below `tgb`. */
  predicate FallbackCandidate(c: Card, game: nat, tgb: int)
  {
    Undrawn(c, game) && c.tgb.Some? && c.tgb.value < tgb
  }

  /** `.first()` of a branch's query: the first eligible card at or after
      position `k`, in table order. */
  function FirstCandidate(cards: seq<Card>, b: Branch, game: nat, color: nat, tgb: int, k: nat): (r: Option<nat>)
    requires k <= |cards|
    ensures r.Some? ==> k <= r.value < |cards| && Candidate(b, cards[r.value], game, color, tgb)
    ensures r.Some? ==> forall j :: k <= j < r.value ==> !Candidate(b, cards[j], game, color, tgb)
    ensures r.None? ==> forall j :: k <= j < |cards| ==> !Candidate(b, cards[j], game, color, tgb)
    decreases |cards| - k
  {
    if k == |cards| then None
    else if Candidate(b, cards[k], game, color, tgb) then Some(k)
    else FirstCandidate(cards, b, game, color, tgb, k + 1)
  }

  /** `.first()` of the fallback query. */
  function FirstFallback(cards: seq<Card>, game: nat, tgb: int, k: nat): (r: Option<nat>)
    requires k <= |cards|
    ensures r.Some? ==> k <= r.value < |cards| && FallbackCandidate(cards[r.value], game, tgb)
    ensures r.Some? ==> forall j :: k <= j < r.value ==> !FallbackCandidate(cards[j], game, tgb)
    ensures r.None? ==> forall j :: k <= j < |cards| ==> !FallbackCandidate(cards[j], game, tgb)
    decreases |cards| - k
  {
    if k == |cards| then None
    else if FallbackCandidate(cards[k], game, tgb) then Some(k)
    else FirstFallback(cards, game, tgb, k + 1)
  }

  /** The card `draw` settles on: the branch's first candidate, or else the
      first fallback candidate, or none. */
  function Select(cards: seq<Card>, b: Branch, game: nat, color: nat, tgb: int): (r: Option<nat>)
    ensures r.Some? ==> r.value < |cards| && Undrawn(cards[r.value], game)
    ensures r.Some? ==> Candidate(b, cards[r.value], game, color, tgb) ||
                        FallbackCandidate(cards[r.value], game, tgb)
    ensures r.None? <==> (forall j :: 0 <= j < |cards| ==> !Candidate(b, cards[j], game, color, tgb)) &&
                         (forall j :: 0 <= j < |cards| ==> !FallbackCandidate(cards[j], game, tgb))
    // The branch wins over the fallback: while the branch's query finds a
    // card, the result is its first one, whatever the fallback would find.
    ensures (exists j :: 0 <= j < |cards| && Candidate(b, cards[j], game, color, tgb)) ==>
              && r.Some? && Candidate(b, cards[r.value], game, color, tgb)
              && forall j :: 0 <= j < r.value ==> !Candidate(b, cards[j], game, color, tgb)
    // The fallback runs only when the branch finds nothing, and then gives
    // its own first card.
    ensures (forall j :: 0 <= j < |cards| ==> !Candidate(b, cards[j], game, color, tgb)) ==>
              r.Some? ==> && FallbackCandidate(cards[r.value], game, tgb)
                          && forall j :: 0 <= j < r.value ==> !FallbackCandidate(cards[j], game, tgb)
  {
    var first := FirstCandidate(cards, b, game, color, tgb, 0);
    if first.Some? then first else FirstFallback(cards, game, tgb, 0)
  }

  /** A bias draw gives a bias card against another colour than the
      player's, within two of the global bias, when the filter finds one. */
  lemma BiasBranchResult(cards: seq<Card>, game: nat, color: nat, tgb: int)
    requires FirstCandidate(cards, BiasCard, game, color, tgb, 0).Some?
    ensures var c := cards[Select(cards, BiasCard, game, color, tgb).value];
            c.biasAgainst.Some? && c.biasAgainst.value != color && c.tgb.Some? && c.tgb.value <= tgb + 2
  {
  }

  /** The fallback finds nothing while the global bias is 0 and no card
      has a negative threshold. */
  lemma FallbackEmptyWithoutBias(cards: seq<Card>, game: nat)
    requires forall j :: 0 <= j < |cards| && cards[j].tgb.Some? ==> cards[j].tgb.value >= 0
    ensures FirstFallback(cards, game, 0, 0).None?
  {
  }

  /** Once drawn, a card is never selected again. */
  lemma DrawnNeverAgain(cards: seq<Card>, c: nat, p: nat, b: Branch, game: nat, color: nat, tgb: int)
    requires c < |cards|
    ensures var drawn := cards[c := cards[c].(originalPlayer := Some(p))];
            Select(drawn, b, game, color, tgb) != Some(c)
  {
  }

  /** The selection is the first eligible card, not any eligible one: an
      eligible card after another eligible card is never chosen. */
  lemma SelectIsFirst(cards: seq<Card>, b: Branch, game: nat, color: nat, tgb: int, i: nat, j: nat)
    requires i < j < |cards|
    requires Candidate(b, cards[i], game, color, tgb)
    ensures Select(cards, b, game, color, tgb) != Some(j)
  {
  }

  /** `draw(player)`: the branch is chosen from the draws, the card is
      selected, and the player draws it. When no card is found `card` is
      None and `card.draw` fails with AttributeError; OutOfCards is never
      raised. */
  method Draw(tables: CardTables, player: nat, game: nat, color: nat, tgb: int, endScore: real,
              biasDraw: real, fakeDraw: real, affinityDraw: real)
    returns (res: Result<nat>)
    requires tables.Valid() && endScore > 0.0
    modifies tables
    ensures tables.Valid()
    ensures var sel := Select(old(tables.cards), ChooseBranch(biasDraw, fakeDraw, affinityDraw, tgb, endScore),
                              game, color, tgb);
            && (sel.None? ==> res == Err(AttributeError) && unchanged(tables))
            && (sel.Some? ==> var c := sel.value;
                 && (res.Err? <==> KeyTaken(old(tables.instances), (c, player, game)))
                 && (res.Err? ==> res.error == IntegrityError)
                 && (res.Err? ==> tables.cards == old(tables.cards) && tables.instances == old(tables.instances))
                 && (res.Ok? ==> res.value == |old(tables.instances)|)
                 && (res.Ok? ==> tables.instances == old(tables.instances) + [CardInstance(c, None, player, game, false)])
                 && (res.Ok? ==> tables.cards == old(tables.cards)[c := old(tables.cards[c]).(originalPlayer := Some(player))]))
  {
    var b := ChooseBranch(biasDraw, fakeDraw, affinityDraw, tgb, endScore);
    var sel := Select(tables.cards, b, game, color, tgb);
    if sel.None? {
      return Err(AttributeError);
    }
    res := tables.Draw(sel.value, player);
  }
}
