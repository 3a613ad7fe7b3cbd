/** deck_generators/deck-generator-alpha.py: the prototype generator. It
    splits the card records into bias and non-bias cards, then keeps
    drawing while the total global bias `tgb` is below 15: a bias card with
    probability 0.2, otherwise a non-bias card that is shown as its first
    fake when a second draw falls below `tgb / 15`. Every bias or fake draw
    raises `tgb` by one. The random numbers are inputs. */
module DeckAlpha {
  import opened Errors
  import opened Json
  import Records

  /** The bias at which the generator stops. */
  const EndTgb: int := 15

  /** `without_keys(d, keys)`: the entries of `d` whose key is not in
      `keys`. */
  function WithoutKeys(d: Record, keys: set<string>): (r: Record)
    ensures r.Keys == d.Keys - keys
    ensures forall x :: x in r ==> r[x] == d[x]
  {
    map x | x in d && x !in keys :: d[x]
  }

  /** Removing no key changes nothing. */
  lemma WithoutNoKeys(d: Record)
    ensures WithoutKeys(d, {}) == d
  {
  }

  /** Removing two sets of keys in turn is removing their union. */
  lemma WithoutKeysTwice(d: Record, a: set<string>, b: set<string>)
    ensures WithoutKeys(WithoutKeys(d, a), b) == WithoutKeys(d, a + b)
  {
  }

  /** `'bias_against' in card`. */
  predicate IsBias(card: Record)
  {
    "bias_against" in card
  }

  /** The cards of `data` that are bias cards (`bias`) or that are not,
      in their order in `data`. */
  function Filtered(data: seq<Record>, bias: bool): (r: seq<Record>)
    ensures |r| <= |data|
    ensures forall c :: c in r ==> c in data && IsBias(c) == bias
    decreases |data|
  {
    if data == [] then []
    else
      var last := data[|data| - 1];
      Filtered(data[..|data| - 1], bias) + (if IsBias(last) == bias then [last] else [])
  }

  /** Filtering keeps the order: the cards of `a + b` are those of `a`,
      then those of `b`. */
  lemma {:induction false} FilteredAppend(a: seq<Record>, b: seq<Record>, bias: bool)
    ensures Filtered(a + b, bias) == Filtered(a, bias) + Filtered(b, bias)
    decreases |b|
  {
    if b == [] {
      assert a + b == a;
      assert Filtered(a, bias) + [] == Filtered(a, bias);
    } else {
      var front := b[..|b| - 1];
      var last := b[|b| - 1];
      assert (a + b)[..|a + b| - 1] == a + front;
      assert (a + b)[|a + b| - 1] == last;
      FilteredAppend(a, front, bias);
      var tail := if IsBias(last) == bias then [last] else [];
      assert Filtered(a + b, bias) == Filtered(a + front, bias) + tail;
      assert Filtered(b, bias) == Filtered(front, bias) + tail;
      Records.AppendAssoc(Filtered(a, bias), Filtered(front, bias), tail);
    }
  }

  /** The two lists together hold every card of `data` as often as `data`
      does, so they cover it; their membership conditions exclude each
      other, so they are disjoint. */
  lemma {:induction false} PartitionCovers(data: seq<Record>)
    ensures multiset(Filtered(data, true)) + multiset(Filtered(data, false)) == multiset(data)
    ensures forall c :: c in Filtered(data, true) ==> c !in Filtered(data, false)
    decreases |data|
  {
    if data != [] {
      var front := data[..|data| - 1];
      var last := data[|data| - 1];
      PartitionCovers(front);
      assert data == front + [last];
    }
  }

  lemma FilteredStep(data: seq<Record>, i: nat, bias: bool)
    requires i < |data|
    ensures Filtered(data[..i + 1], bias) ==
            Filtered(data[..i], bias) + (if IsBias(data[i]) == bias then [data[i]] else [])
  {
    assert data[..i + 1][..i] == data[..i];
  }

  /** The partition loop: each card joins `biasCards` or `nonBiasCards`
      according to its `bias_against` key. */
  method Partition(data: seq<Record>) returns (biasCards: seq<Record>, nonBiasCards: seq<Record>)
    ensures biasCards == Filtered(data, true)
    ensures nonBiasCards == Filtered(data, false)
  {
    biasCards, nonBiasCards := [], [];
    var i := 0;
    while i < |data|
      invariant 0 <= i <= |data|
      invariant biasCards == Filtered(data[..i], true)
      invariant nonBiasCards == Filtered(data[..i], false)
    {
      var card := data[i];
      FilteredStep(data, i, true);
      FilteredStep(data, i, false);
      if IsBias(card) {
        biasCards := biasCards + [card];
      } else {
        nonBiasCards := nonBiasCards + [card];
      }
      i := i + 1;
    }
    assert data[..|data|] == data;
  }

  /** The random numbers of one draw: `bias_p`, `fake_p` and the index
      `random.choice` picks. `random.uniform(0, 1)` gives numbers in
      `[0, 1]`. */
  datatype Draw = Draw(biasP: real, fakeP: real, pick: nat)

  predicate ValidDraw(d: Draw)
  {
    0.0 <= d.biasP <= 1.0 && 0.0 <= d.fakeP <= 1.0
  }

  /** `random.choice(items)`: IndexError on an empty list, otherwise an
      element, chosen by `pick`. */
  function Choose<T>(items: seq<T>, pick: nat): (r: Result<T>)
    ensures r.Ok? <==> items != []
    ensures r.Ok? ==> r.value in items
    ensures r.Err? ==> r.error == IndexError
  {
    if items == [] then Err(IndexError) else Ok(items[pick % |items|])
  }

  /** `card['fakes'][0]`: KeyError without a "fakes" key; on a list or a
      string its first element, IndexError when it is empty; KeyError on a
      dict, whose keys are strings; TypeError on anything else. */
  function FirstFake(card: Record): (r: Result<Value>)
    ensures "fakes" !in card ==> r == Err(KeyError)
    ensures "fakes" in card && card["fakes"].List? ==>
              if card["fakes"].items == [] then r == Err(IndexError) else r == Ok(card["fakes"].items[0])
  {
    if "fakes" !in card then Err(KeyError)
    else
      match card["fakes"]
      case List(items) => if items == [] then Err(IndexError) else Ok(items[0])
      case Str(s) => if s == [] then Err(IndexError) else Ok(Str([s[0]]))
      case Dict(_) => Err(KeyError)
      case _ => Err(TypeError)
  }

  /** What one draw prints: a bias card, a card's first fake, or a
      non-bias card without its fakes. */
  datatype Drawn =
    | BiasDrawn(card: Record)
    | FakeDrawn(fake: Value)
    | TrueDrawn(card: Record)

  /** The number of draws that raise the bias: all but the true ones. */
  function Raising(ds: seq<Drawn>): (n: nat)
    ensures n <= |ds|
    decreases |ds|
  {
    if ds == [] then 0 else (if ds[0].TrueDrawn? then 0 else 1) + Raising(ds[1..])
  }

  /** The cards a run prints and the bias it ends with. */
  datatype Outcome = Outcome(drawn: seq<Drawn>, tgb: int)

  /** The recursion of `deck_generator_alpha` on the partitioned cards,
      one draw per call. The source recurses without end while `tgb` stays
      below 15; here the run also stops when the draws run out. */
  function Run(biasCards: seq<Record>, nonBiasCards: seq<Record>, tgb: int, draws: seq<Draw>): (r: Result<Outcome>)
    ensures tgb >= EndTgb ==> r == Ok(Outcome([], tgb))
    ensures r.Ok? ==> |r.value.drawn| <= |draws|
    ensures r.Ok? ==> r.value.tgb == tgb + Raising(r.value.drawn)
    ensures r.Ok? ==> r.value.tgb <= if tgb < EndTgb then EndTgb else tgb
    ensures r.Ok? && |r.value.drawn| < |draws| ==> r.value.tgb >= EndTgb
    ensures r.Ok? ==> forall e :: e in r.value.drawn && e.BiasDrawn? ==> e.card in biasCards
    ensures r.Ok? ==> forall e :: e in r.value.drawn && e.FakeDrawn? ==>
                        exists c :: c in nonBiasCards && FirstFake(c) == Ok(e.fake)
    ensures r.Ok? ==> forall e :: e in r.value.drawn && e.TrueDrawn? ==>
                        "fakes" !in e.card && exists c :: c in nonBiasCards && e.card == WithoutKeys(c, {"fakes"})
    decreases |draws|
  {
    if tgb >= EndTgb || draws == [] then Ok(Outcome([], tgb))
    else
      var d := draws[0];
      if d.biasP <= 0.2 then
        var card := Choose(biasCards, d.pick);
        if card.Err? then Err(card.error)
        else Then(BiasDrawn(card.value), Run(biasCards, nonBiasCards, tgb + 1, draws[1..]))
      else
        var card := Choose(nonBiasCards, d.pick);
        if card.Err? then Err(card.error)
        else if d.fakeP < (tgb as real) / 15.0 then
          var fake := FirstFake(card.value);
          if fake.Err? then Err(fake.error)
          else Then(FakeDrawn(fake.value), Run(biasCards, nonBiasCards, tgb + 1, draws[1..]))
        else
          Then(TrueDrawn(WithoutKeys(card.value, {"fakes"})), Run(biasCards, nonBiasCards, tgb, draws[1..]))
  }

  /** `e` printed before the rest of the run. */
  function Then(e: Drawn, rest: Result<Outcome>): (r: Result<Outcome>)
    ensures rest.Err? ==> r == Err(rest.error)
    ensures rest.Ok? ==> r == Ok(Outcome([e] + rest.value.drawn, rest.value.tgb))
  {
    if rest.Err? then Err(rest.error) else Ok(Outcome([e] + rest.value.drawn, rest.value.tgb))
  }

  /** A fake draw needs `fake_p < tgb / 15`, which no `fake_p` in `[0, 1]`
      meets at `tgb <= 0`: a run that starts with no bias never starts
      with a fake. */
  lemma NoFakeWithoutBias(biasCards: seq<Record>, nonBiasCards: seq<Record>, tgb: int, draws: seq<Draw>)
    requires tgb <= 0 && draws != [] && ValidDraw(draws[0])
    requires Run(biasCards, nonBiasCards, tgb, draws).Ok?
    ensures var ds := Run(biasCards, nonBiasCards, tgb, draws).value.drawn;
            ds != [] && !ds[0].FakeDrawn?
  {
    var d := draws[0];
    assert (tgb as real) / 15.0 <= 0.0;
  }

  /** The script's call `deck_generator_alpha(data, 0)`. */
  function Generate(data: seq<Record>, draws: seq<Draw>): (r: Result<Outcome>)
    ensures r.Ok? ==> 0 <= r.value.tgb <= EndTgb
  {
    Run(Filtered(data, true), Filtered(data, false), 0, draws)
  }
}
