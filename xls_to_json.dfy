/** scripts/xls_to_json.py: every row of the "Cards Master" sheet after the
    first becomes 14 card records, read from the row's cells 0 to 39 in
    order through a counter. Cell 0 carries the threshold `tgb` forward
    from row to row. An error stops the script before anything is
    written. */
module XlsToJson {
  import opened Errors
  import opened Text
  import opened Sheets
  import opened Records

  /** The three colours of the bias loop and the five topics of the topic
      loop, in the order the script visits them. */
  datatype Color = Red | Blue | Yellow
  datatype Topic = Cats | Socks | Skub | HighFives | Houseboats

  const Colors: seq<Color> := [Red, Blue, Yellow]
  const Topics: seq<Topic> := [Cats, Socks, Skub, HighFives, Houseboats]

  /** The string the script writes for a colour. */
  function ColorName(c: Color): string
  {
    match c
    case Red => "red"
    case Blue => "blue"
    case Yellow => "yellow"
  }

  /** The string the script writes for a topic. */
  function TopicName(t: Topic): string
  {
    match t
    case Cats => "cats"
    case Socks => "socks"
    case Skub => "skub"
    case HighFives => "high_fives"
    case Houseboats => "houseboats"
  }

  /** What a card is about; a fake copies the card's kind. */
  datatype Kind =
    | Factual
    | Bias(against: Color)
    | Topical(towards: Topic, count: int)

  /** A fake version: `{"title": "", "description": …}` plus, for a topical
      card, its topic and count. */
  datatype FakeRecord = FakeRecord(description: Cell, kind: Kind)

  /** One card record; its title is always empty. */
  datatype CardRecord = CardRecord(description: Cell, image: Cell, tgb: Option<int>, kind: Kind, fakes: seq<FakeRecord>)

  /** `is_valid_cell` returns rather than raises. */
  predicate Checkable(c: Cell)
  {
    c.Blank? || c.Text? || c == Num(0)
  }

  /** A cell `is_valid_cell` accepts: a string that is neither blank nor
      "null" once stripped. */
  predicate ValidFake(c: Cell)
  {
    c.Text? && Strip(c.s) != "" && Strip(c.s) != "null"
  }

  /** `is_valid_cell(text)`: `text and text.strip() and text.strip() !=
      "null"`. A falsy cell is invalid; a truthy cell that is not a string
      (a NaN or a non-zero number) has no `strip` and raises
      AttributeError. */
  function IsValidCell(c: Cell): (r: Result<bool>)
    ensures r.Ok? <==> Checkable(c)
    ensures r.Err? ==> r.error == AttributeError
    ensures r == Ok(true) <==> ValidFake(c)
    ensures !c.Text? && r.Ok? ==> r == Ok(false)
  {
    match c
    case Blank => Ok(false)
    case Nan => Err(AttributeError)
    case Num(n) => if n == 0 then Ok(false) else Err(AttributeError)
    case Text(s) => Ok(Strip(s) != "" && Strip(s) != "null")
  }

  /** A string that is only white space, or "null" with white space around
      it, is not a valid fake. */
  lemma BlankTextInvalid(pad: string)
    requires forall k :: 0 <= k < |pad| ==> IsSpace(pad[k])
    ensures IsValidCell(Text(pad)) == Ok(false)
    ensures IsValidCell(Text(pad + "null" + pad)) == Ok(false)
  {
    StripOfPadded(pad);
    assert StrippedAt(pad + "null" + pad, "null", |pad|) by {
      var t := pad + "null" + pad;
      assert t[|pad|..|pad| + 4] == "null";
      assert forall k :: 0 <= k < |pad| ==> t[k] == pad[k];
      assert forall k :: |pad| + 4 <= k < |t| ==> t[k] == pad[k - |pad| - 4];
    }
    StrippedUnique(pad + "null" + pad, "null", |pad|);
  }

  lemma StripOfPadded(pad: string)
    requires forall k :: 0 <= k < |pad| ==> IsSpace(pad[k])
    ensures Strip(pad) == ""
  {
    assert SkipSpaces(pad, 0) == |pad| by {
      SkipAllSpaces(pad, 0);
    }
  }

  lemma {:induction false} SkipAllSpaces(s: string, i: nat)
    requires i <= |s| && forall k :: i <= k < |s| ==> IsSpace(s[k])
    ensures SkipSpaces(s, i) == |s|
    decreases |s| - i
  {
    if i < |s| {
      SkipAllSpaces(s, i + 1);
    }
  }

  /** A non-empty slice surrounded by white space that neither starts nor
      ends with white space is what `strip` returns. */
  lemma StrippedUnique(s: string, r: string, i: nat)
    requires StrippedAt(s, r, i) && r != [] && !IsSpace(r[0]) && !IsSpace(r[|r| - 1])
    ensures Strip(s) == r
  {
    SkipTo(s, 0, i);
    assert s[i] == r[0];
    BackTo(s, i, |s|, i + |r|);
    assert s[i + |r| - 1] == r[|r| - 1];
  }

  lemma {:induction false} SkipTo(s: string, i: nat, n: nat)
    requires i <= n < |s| && !IsSpace(s[n])
    requires forall k :: i <= k < n ==> IsSpace(s[k])
    ensures SkipSpaces(s, i) == n
    decreases n - i
  {
    if i < n {
      SkipTo(s, i + 1, n);
    }
  }

  lemma {:induction false} BackTo(s: string, lo: nat, j: nat, m: nat)
    requires lo < m <= j <= |s| && !IsSpace(s[m - 1])
    requires forall k :: m <= k < j ==> IsSpace(s[k])
    ensures BackSpaces(s, lo, j) == m
    decreases j
  {
    if j > m {
      BackTo(s, lo, j - 1, m);
    }
  }

  /** `if not isnan(new_tgb): tgb = new_tgb`: a number replaces the
      threshold, a NaN keeps it, and anything else makes `isnan` raise
      TypeError. */
  function NewTgb(c: Cell, tgb: Option<int>): (r: Result<Option<int>>)
    ensures r.Ok? <==> c.Nan? || c.Num?
    ensures c.Num? ==> r == Ok(Some(c.n))
    ensures c.Nan? ==> r == Ok(tgb)
    ensures r.Err? ==> r.error == TypeError
  {
    match c
    case Nan => Ok(tgb)
    case Num(n) => Ok(Some(n))
    case _ => Err(TypeError)
  }


  /** The fakes of a card whose fake description is `fd`: the one fake when
      the cell is valid, none otherwise. */
  function FakesFor(fd: Cell, kind: Kind): (fs: seq<FakeRecord>)
    ensures fs == [] <==> !ValidFake(fd)
    ensures fs != [] ==> fs == [FakeRecord(fd, kind)]
  {
    if ValidFake(fd) then [FakeRecord(fd, kind)] else []
  }

  /** The factual card, from cells 1 to 3. */
  function FactualCard(row: Row, t: Option<int>): CardRecord
    requires 4 <= |row|
  {
    CardRecord(row[1], row[3], t, Factual, FakesFor(row[2], Factual))
  }

  /** The bias card against colour `i`, from cells `4 + 2i` and `5 + 2i`. */
  function BiasCard(row: Row, t: Option<int>, i: nat): CardRecord
    requires i < 3 && 6 + 2 * i <= |row|
  {
    CardRecord(row[4 + 2 * i], row[5 + 2 * i], t, Bias(Colors[i]), [])
  }

  /** The pro card (`pro`) or the against card of topic `i`, from the cells
      at `10 + 6i` on. */
  function TopicCard(row: Row, t: Option<int>, i: nat, pro: bool): CardRecord
    requires i < 5 && 16 + 6 * i <= |row|
  {
    var at := 10 + 6 * i + (if pro then 0 else 3);
    var kind := Topical(Topics[i], if pro then 1 else -1);
    CardRecord(row[at], row[at + 2], t, kind, FakesFor(row[at + 1], kind))
  }

  /** The pro and the against card of topic `i`, once both fake
      descriptions are checked, the pro one first. */
  function TopicPair(row: Row, t: Option<int>, i: nat): Result<seq<CardRecord>>
    requires i < 5 && 16 + 6 * i <= |row|
  {
    var proValid := IsValidCell(row[11 + 6 * i]);
    var againstValid := IsValidCell(row[14 + 6 * i]);
    if proValid.Err? then Err(proValid.error)
    else if againstValid.Err? then Err(againstValid.error)
    else Ok([TopicCard(row, t, i, true), TopicCard(row, t, i, false)])
  }

  /** The bias loop from colour `i` on, appending to `acc`. */
  function BiasAfter(acc: seq<CardRecord>, row: Row, t: Option<int>, i: nat): Result<seq<CardRecord>>
    requires i <= 3
    decreases 3 - i
  {
    if i == 3 then Ok(acc)
    else if |row| < 6 + 2 * i then Err(IndexError)
    else BiasAfter(acc + [BiasCard(row, t, i)], row, t, i + 1)
  }

  /** The topic loop from topic `i` on, appending to `acc`: the six cells of
      a topic are read before its two fake descriptions are checked. */
  function TopicsAfter(acc: seq<CardRecord>, row: Row, t: Option<int>, i: nat): Result<seq<CardRecord>>
    requires i <= 5
    decreases 5 - i
  {
    if i == 5 then Ok(acc)
    else if |row| < 16 + 6 * i then Err(IndexError)
    else
      var pair := TopicPair(row, t, i);
      if pair.Err? then Err(pair.error) else TopicsAfter(acc + pair.value, row, t, i + 1)
  }

  /** The cards of one row and the threshold after it. */
  function RowCards(row: Row, tgb: Option<int>): Result<(seq<CardRecord>, Option<int>)>
  {
    if |row| < 1 then Err(IndexError)
    else
      var nt := NewTgb(row[0], tgb);
      if nt.Err? then Err(nt.error)
      else if |row| < 4 then Err(IndexError)
      else if IsValidCell(row[2]).Err? then Err(IsValidCell(row[2]).error)
      else
        var t := nt.value;
        var biased := BiasAfter([FactualCard(row, t)], row, t, 0);
        if biased.Err? then Err(biased.error)
        else
          var all := TopicsAfter(biased.value, row, t, 0);
          if all.Err? then Err(all.error) else Ok((all.value, t))
  }

  /** The topic of card number `k`, from card 4 on: two cards per topic. */
  function TopicIndex(k: nat): (i: nat)
    requires 4 <= k < 14
    ensures i < 5 && (k == 4 + 2 * i || k == 5 + 2 * i)
  {
    if k < 6 then 0 else if k < 8 then 1 else if k < 10 then 2 else if k < 12 then 3 else 4
  }

  /** Card number `k` is the pro card of its topic. */
  predicate IsPro(k: nat)
  {
    k == 4 || k == 6 || k == 8 || k == 10 || k == 12
  }

  /** The kind of card number `k` of a row: factual; bias against red,
      blue, yellow; then pro (count 1) and against (count -1) each topic in
      turn. */
  function KindAt(k: nat): (kind: Kind)
    requires k < 14
    ensures k == 0 <==> kind.Factual?
    ensures 1 <= k <= 3 <==> kind.Bias?
    ensures kind.Topical? ==> kind.count == (if IsPro(k) then 1 else -1)
  {
    if k == 0 then Factual
    else if k <= 3 then Bias(Colors[k - 1])
    else Topical(Topics[TopicIndex(k)], if IsPro(k) then 1 else -1)
  }

  /** The cell holding the description of card number `k`. */
  function DescriptionCell(k: nat): nat
    requires k < 14
  {
    if k == 0 then 1
    else if k <= 3 then 4 + 2 * (k - 1)
    else 10 + 6 * TopicIndex(k) + (if IsPro(k) then 0 else 3)
  }

  /** Card number `k` of a row: its kind, the row's threshold, the
      description cell, the image cell after it (after the fake
      description, when the card has one), and a fake exactly when its fake
      description is valid; bias cards never have one. */
  function ExpectedCard(row: Row, t: Option<int>, k: nat): (c: CardRecord)
    requires k < 14 && |row| >= 40
    ensures c.kind == KindAt(k) && c.tgb == t && c.description == row[DescriptionCell(k)]
    ensures c.kind.Bias? ==> c.fakes == [] && c.image == row[DescriptionCell(k) + 1]
    ensures !c.kind.Bias? ==>
              && c.image == row[DescriptionCell(k) + 2]
              && c.fakes == FakesFor(row[DescriptionCell(k) + 1], c.kind)
  {
    if k == 0 then FactualCard(row, t)
    else if k <= 3 then BiasCard(row, t, k - 1)
    else TopicCard(row, t, TopicIndex(k), IsPro(k))
  }

  /** Both fake descriptions of topic `i` can be checked. */
  predicate TopicFakesReadable(row: Row, i: nat)
    requires i < 5 && 16 + 6 * i <= |row|
  {
    Checkable(row[11 + 6 * i]) && Checkable(row[14 + 6 * i])
  }

  /** The checks a row must pass: 40 cells, a number or NaN first, and fake
      descriptions that can be checked. */
  predicate RowReadable(row: Row)
  {
    && |row| >= 40
    && (row[0].Nan? || row[0].Num?)
    && Checkable(row[2])
    && forall i :: 0 <= i < 5 ==> TopicFakesReadable(row, i)
  }

  /** The bias cards from colour `i` on. */
  function BiasCards(row: Row, t: Option<int>, i: nat): (cs: seq<CardRecord>)
    requires i <= 3 && |row| >= 10
    ensures |cs| == 3 - i
    decreases 3 - i
  {
    if i == 3 then [] else [BiasCard(row, t, i)] + BiasCards(row, t, i + 1)
  }

  /** The chunks of `chunks`, one after the other. */
  function Flatten<T>(chunks: seq<seq<T>>): seq<T>
    decreases |chunks|
  {
    if chunks == [] then [] else chunks[0] + Flatten(chunks[1..])
  }

  /** Where chunk `r` starts when every chunk has `n` elements. */
  function Offset(n: nat, r: nat): nat
  {
    if r == 0 then 0 else n + Offset(n, r - 1)
  }

  lemma {:induction false} OffsetIs(n: nat, r: nat)
    ensures Offset(n, r) == n * r
  {
    if r > 0 {
      OffsetIs(n, r - 1);
      assert n * r == n + n * (r - 1);
    }
  }

  lemma {:induction false} OffsetBelow(n: nat, r: nat, k: nat, m: nat)
    requires r < m && k < n
    ensures Offset(n, r) + k < Offset(n, m)
    decreases m
  {
    if r + 1 < m {
      OffsetBelow(n, r, k, m - 1);
    }
  }

  lemma {:induction false} FlattenLength<T>(chunks: seq<seq<T>>, n: nat)
    requires forall j :: 0 <= j < |chunks| ==> |chunks[j]| == n
    ensures |Flatten(chunks)| == Offset(n, |chunks|)
    decreases |chunks|
  {
    if chunks != [] {
      var rest := chunks[1..];
      assert forall j :: 0 <= j < |rest| ==> rest[j] == chunks[j + 1];
      FlattenLength(rest, n);
    }
  }

  /** In chunks of `n`, element `k` of chunk `r` is element
      `Offset(n, r) + k` of the whole. */
  lemma {:induction false} FlattenAt<T>(chunks: seq<seq<T>>, n: nat, r: nat, k: nat)
    requires forall j :: 0 <= j < |chunks| ==> |chunks[j]| == n
    requires r < |chunks| && k < n
    ensures |Flatten(chunks)| == Offset(n, |chunks|) && Offset(n, r) + k < Offset(n, |chunks|)
    ensures Flatten(chunks)[Offset(n, r) + k] == chunks[r][k]
    decreases |chunks|
  {
    var rest := chunks[1..];
    assert forall j :: 0 <= j < |rest| ==> rest[j] == chunks[j + 1];
    FlattenLength(chunks, n);
    FlattenLength(rest, n);
    OffsetBelow(n, r, k, |chunks|);
    assert Flatten(chunks) == chunks[0] + Flatten(rest);
    if r == 0 {
      assert (chunks[0] + Flatten(rest))[k] == chunks[0][k];
    } else {
      FlattenAt(rest, n, r - 1, k);
      assert rest[r - 1] == chunks[r];
      assert (chunks[0] + Flatten(rest))[Offset(n, r) + k] == Flatten(rest)[Offset(n, r - 1) + k];
    }
  }

  /** The pro and the against card of each topic from topic `i` on. */
  function TopicPairs(row: Row, t: Option<int>, i: nat): (ps: seq<seq<CardRecord>>)
    requires i <= 5 && |row| >= 40
    ensures |ps| == 5 - i
    ensures forall j :: 0 <= j < |ps| ==> |ps[j]| == 2
    decreases 5 - i
  {
    if i == 5 then []
    else [[TopicCard(row, t, i, true), TopicCard(row, t, i, false)]] + TopicPairs(row, t, i + 1)
  }

  /** Topic `j` is pair `j - i` of the pairs from topic `i` on. */
  lemma {:induction false} TopicPairsAt(row: Row, t: Option<int>, i: nat, j: nat)
    requires i <= j < 5 && |row| >= 40
    ensures TopicPairs(row, t, i)[j - i] == [TopicCard(row, t, j, true), TopicCard(row, t, j, false)]
    decreases 5 - i
  {
    var pair := [TopicCard(row, t, i, true), TopicCard(row, t, i, false)];
    var rest := TopicPairs(row, t, i + 1);
    assert TopicPairs(row, t, i) == [pair] + rest;
    if i < j {
      TopicPairsAt(row, t, i + 1, j);
      assert ([pair] + rest)[j - i] == rest[j - (i + 1)];
    }
  }

  /** The topic cards from topic `i` on, pro before against. */
  function TopicCards(row: Row, t: Option<int>, i: nat): (cs: seq<CardRecord>)
    requires i <= 5 && |row| >= 40
    ensures |cs| == 10 - 2 * i
  {
    FlattenLength(TopicPairs(row, t, i), 2);
    OffsetIs(2, 5 - i);
    Flatten(TopicPairs(row, t, i))
  }

  /** The topic cards from topic `i` on are topic `i`'s pair, then those
      from topic `i + 1` on. */
  lemma TopicCardsStep(row: Row, t: Option<int>, i: nat)
    requires i < 5 && |row| >= 40
    ensures TopicCards(row, t, i) == [TopicCard(row, t, i, true), TopicCard(row, t, i, false)] + TopicCards(row, t, i + 1)
  {
    var pair := [TopicCard(row, t, i, true), TopicCard(row, t, i, false)];
    var rest := TopicPairs(row, t, i + 1);
    assert TopicPairs(row, t, i) == [pair] + rest;
    assert ([pair] + rest)[1..] == rest;
  }

  lemma {:induction false} BiasAfterIs(acc: seq<CardRecord>, row: Row, t: Option<int>, i: nat)
    requires i <= 3 && |row| >= 10
    ensures BiasAfter(acc, row, t, i) == Ok(acc + BiasCards(row, t, i))
    decreases 3 - i
  {
    if i < 3 {
      BiasAfterIs(acc + [BiasCard(row, t, i)], row, t, i + 1);
      AppendAssoc(acc, [BiasCard(row, t, i)], BiasCards(row, t, i + 1));
    } else {
      assert acc + [] == acc;
    }
  }

  lemma {:induction false} TopicsAfterIs(acc: seq<CardRecord>, row: Row, t: Option<int>, i: nat)
    requires i <= 5 && RowReadable(row)
    ensures TopicsAfter(acc, row, t, i) == Ok(acc + TopicCards(row, t, i))
    decreases 5 - i
  {
    if i < 5 {
      assert TopicFakesReadable(row, i);
      var pair := [TopicCard(row, t, i, true), TopicCard(row, t, i, false)];
      assert TopicPair(row, t, i) == Ok(pair);
      TopicsAfterIs(acc + pair, row, t, i + 1);
      TopicCardsStep(row, t, i);
      AppendAssoc(acc, pair, TopicCards(row, t, i + 1));
    } else {
      assert TopicPairs(row, t, i) == [];
      assert acc + [] == acc;
    }
  }

  /** The 14 cards of a readable row, before they are checked against the
      layout. */
  function RowLayout(row: Row, t: Option<int>): (cs: seq<CardRecord>)
    requires |row| >= 40
    ensures |cs| == 14
  {
    [FactualCard(row, t)] + BiasCards(row, t, 0) + TopicCards(row, t, 0)
  }

  /** Card `k` of the layout is `ExpectedCard(row, t, k)`. */
  lemma RowLayoutAt(row: Row, t: Option<int>, k: nat)
    requires |row| >= 40 && k < 14
    ensures |RowLayout(row, t)| == 14
    ensures RowLayout(row, t)[k] == ExpectedCard(row, t, k)
  {
    var bs := [FactualCard(row, t)] + BiasCards(row, t, 0);
    assert bs == [FactualCard(row, t), BiasCard(row, t, 0), BiasCard(row, t, 1), BiasCard(row, t, 2)];
    var ts := TopicCards(row, t, 0);
    assert RowLayout(row, t) == bs + ts;
    if k < 4 {
      assert (bs + ts)[k] == bs[k];
      if k == 0 {
        assert bs[k] == FactualCard(row, t);
      } else {
        assert bs[k] == BiasCard(row, t, k - 1);
      }
    } else {
      var j := TopicIndex(k);
      TopicPairsAt(row, t, 0, j);
      FlattenAt(TopicPairs(row, t, 0), 2, j, if IsPro(k) then 0 else 1);
      OffsetIs(2, j);
      assert (bs + ts)[k] == ts[k - 4];
      if IsPro(k) {
        assert k - 4 == 2 * j;
        assert ExpectedCard(row, t, k) == TopicCard(row, t, j, true);
      } else {
        assert k - 4 == 2 * j + 1;
        assert ExpectedCard(row, t, k) == TopicCard(row, t, j, false);
      }
    }
  }

  /** A readable row yields its layout. */
  lemma RowCardsReadable(row: Row, tgb: Option<int>)
    requires RowReadable(row)
    ensures RowCards(row, tgb) == Ok((RowLayout(row, NewTgb(row[0], tgb).value), NewTgb(row[0], tgb).value))
  {
    var t := NewTgb(row[0], tgb).value;
    var f := FactualCard(row, t);
    BiasAfterIs([f], row, t, 0);
    TopicsAfterIs([f] + BiasCards(row, t, 0), row, t, 0);
  }

  /** A row that is not readable yields an error. */
  lemma RowCardsUnreadable(row: Row, tgb: Option<int>)
    requires !RowReadable(row)
    ensures RowCards(row, tgb).Err?
  {
    if |row| >= 40 && (row[0].Nan? || row[0].Num?) && IsValidCell(row[2]).Ok? {
      var t := NewTgb(row[0], tgb).value;
      var f := FactualCard(row, t);
      BiasAfterIs([f], row, t, 0);
      var j :| 0 <= j < 5 && !TopicFakesReadable(row, j);
      TopicsFailAt([f] + BiasCards(row, t, 0), row, t, 0, j);
    }
  }

  /** A row yields its cards exactly when it passes the checks, and then it
      yields the 14 cards in the fixed order, all with the row's threshold:
      the number in cell 0, or the previous threshold when cell 0 is NaN. */
  lemma RowCardsLayout(row: Row, tgb: Option<int>)
    ensures RowCards(row, tgb).Ok? <==> RowReadable(row)
    ensures RowReadable(row) ==>
              var (cs, t) := RowCards(row, tgb).value;
              && t == (if row[0].Num? then Some(row[0].n) else tgb)
              && |cs| == 14
              && forall k :: 0 <= k < 14 ==> cs[k] == ExpectedCard(row, t, k)
  {
    if RowReadable(row) {
      RowCardsReadable(row, tgb);
      var t := NewTgb(row[0], tgb).value;
      forall k | 0 <= k < 14 ensures RowLayout(row, t)[k] == ExpectedCard(row, t, k) {
        RowLayoutAt(row, t, k);
      }
      RowLayoutAt(row, t, 0);
    } else {
      RowCardsUnreadable(row, tgb);
    }
  }

  lemma {:induction false} TopicsFailAt(acc: seq<CardRecord>, row: Row, t: Option<int>, i: nat, j: nat)
    requires i <= j < 5 && |row| >= 40 && !TopicFakesReadable(row, j)
    ensures TopicsAfter(acc, row, t, i).Err?
    decreases 5 - i
  {
    if i < j && TopicFakesReadable(row, i) {
      TopicsFailAt(acc + [TopicCard(row, t, i, true), TopicCard(row, t, i, false)], row, t, i + 1, j);
    }
  }

  /** `use_iloc`'s counter, the dict `iloc` of one row. */
  class Iloc {
    var value: nat

    constructor ()
      ensures value == 0
    {
      value := 0;
    }

    /** `use_iloc()`: the current index, which is then incremented. */
    method Use() returns (t: nat)
      modifies this
      ensures t == old(value) && value == old(value) + 1
    {
      t := value;
      value := value + 1;
    }
  }

  /** `row.iloc[use_iloc()]`. */
  method ReadCell(row: Row, iloc: Iloc) returns (r: Result<Cell>)
    modifies iloc
    ensures iloc.value == old(iloc.value) + 1
    ensures r == CellAt(row, old(iloc.value))
  {
    var k := iloc.Use();
    r := CellAt(row, k);
  }

  /** The factual card: its description, fake description and image are
      read, then the fake description is checked. */
  method ReadFactual(row: Row, iloc: Iloc, t: Option<int>) returns (r: Result<CardRecord>)
    requires iloc.value == 1
    modifies iloc
    ensures iloc.value == 4
    ensures |row| < 4 ==> r == Err(IndexError)
    ensures |row| >= 4 ==>
              r == if IsValidCell(row[2]).Err? then Err(IsValidCell(row[2]).error) else Ok(FactualCard(row, t))
  {
    var description := ReadCell(row, iloc);
    var fake := ReadCell(row, iloc);
    var image := ReadCell(row, iloc);
    if description.Err? || fake.Err? || image.Err? {
      return Err(IndexError);
    }
    var valid := IsValidCell(fake.value);
    if valid.Err? {
      return Err(valid.error);
    }
    r := Ok(CardRecord(description.value, image.value, t, Factual, FakesFor(fake.value, Factual)));
  }

  /** The bias loop over red, blue and yellow. */
  method ReadBiases(row: Row, iloc: Iloc, t: Option<int>, cards: seq<CardRecord>) returns (r: Result<seq<CardRecord>>)
    requires iloc.value == 4 && |row| >= 4
    modifies iloc
    ensures r.Ok? ==> iloc.value == 10
    ensures r == BiasAfter(cards, row, t, 0)
  {
    var acc := cards;
    var i := 0;
    while i < 3
      invariant 0 <= i <= 3 && iloc.value == 4 + 2 * i && |row| >= 4 + 2 * i
      invariant BiasAfter(cards, row, t, 0) == BiasAfter(acc, row, t, i)
    {
      var description := ReadCell(row, iloc);
      var image := ReadCell(row, iloc);
      if description.Err? || image.Err? {
        return Err(IndexError);
      }
      acc := acc + [CardRecord(description.value, image.value, t, Bias(Colors[i]), [])];
      i := i + 1;
    }
    r := Ok(acc);
  }

  /** One pass of the topic loop: the pro card's three cells, the against
      card's three cells, then the two fake descriptions. */
  method ReadTopic(row: Row, iloc: Iloc, t: Option<int>, i: nat) returns (r: Result<seq<CardRecord>>)
    requires i < 5 && iloc.value == 10 + 6 * i && |row| >= 10 + 6 * i
    modifies iloc
    ensures iloc.value == 16 + 6 * i
    ensures |row| < 16 + 6 * i ==> r == Err(IndexError)
    ensures |row| >= 16 + 6 * i ==> r == TopicPair(row, t, i)
  {
    var proDescription := ReadCell(row, iloc);
    var proFake := ReadCell(row, iloc);
    var proImage := ReadCell(row, iloc);
    var againstDescription := ReadCell(row, iloc);
    var againstFake := ReadCell(row, iloc);
    var againstImage := ReadCell(row, iloc);
    if proDescription.Err? || proFake.Err? || proImage.Err? ||
       againstDescription.Err? || againstFake.Err? || againstImage.Err? {
      return Err(IndexError);
    }
    var proValid := IsValidCell(proFake.value);
    if proValid.Err? {
      return Err(proValid.error);
    }
    var againstValid := IsValidCell(againstFake.value);
    if againstValid.Err? {
      return Err(againstValid.error);
    }
    r := Ok([TopicCard(row, t, i, true), TopicCard(row, t, i, false)]);
  }

  /** The topic loop over the five topics. */
  method ReadTopics(row: Row, iloc: Iloc, t: Option<int>, cards: seq<CardRecord>) returns (r: Result<seq<CardRecord>>)
    requires iloc.value == 10 && |row| >= 10
    modifies iloc
    ensures r == TopicsAfter(cards, row, t, 0)
  {
    var acc := cards;
    var i := 0;
    while i < 5
      invariant 0 <= i <= 5 && iloc.value == 10 + 6 * i && |row| >= 10 + 6 * i
      invariant TopicsAfter(cards, row, t, 0) == TopicsAfter(acc, row, t, i)
    {
      var pair := ReadTopic(row, iloc, t, i);
      if pair.Err? {
        return Err(pair.error);
      }
      acc := acc + pair.value;
      i := i + 1;
    }
    r := Ok(acc);
  }

  /** The body of the row loop: a fresh counter, the threshold from cell 0,
      the factual card, the bias loop and the topic loop. */
  method ConvertRow(row: Row, tgb: Option<int>) returns (res: Result<(seq<CardRecord>, Option<int>)>)
    ensures res == RowCards(row, tgb)
  {
    var iloc := new Iloc();
    var c0 := ReadCell(row, iloc);
    if c0.Err? {
      return Err(c0.error);
    }
    var nt := NewTgb(c0.value, tgb);
    if nt.Err? {
      return Err(nt.error);
    }
    var t := nt.value;
    var factual := ReadFactual(row, iloc, t);
    if factual.Err? {
      return Err(factual.error);
    }
    var biased := ReadBiases(row, iloc, t, [factual.value]);
    if biased.Err? {
      return Err(biased.error);
    }
    var all := ReadTopics(row, iloc, t, biased.value);
    if all.Err? {
      return Err(all.error);
    }
    res := Ok((all.value, t));
  }

  /** The row loop from `rows` on, appending to `acc` and carrying the
      threshold. */
  function CardsAfter(acc: seq<CardRecord>, rows: seq<Row>, tgb: Option<int>): Result<seq<CardRecord>>
    decreases |rows|
  {
    if rows == [] then Ok(acc)
    else
      var r := RowCards(rows[0], tgb);
      if r.Err? then Err(r.error) else CardsAfter(acc + r.value.0, rows[1..], r.value.1)
  }

  /** The threshold the cards of row `r` carry: the number in cell 0 of the
      last row up to `r` that has one, or `tgb` when none has. */
  function TgbAt(rows: seq<Row>, tgb: Option<int>, r: nat): Option<int>
    requires r < |rows| && forall j :: 0 <= j < |rows| ==> |rows[j]| > 0
  {
    if rows[r][0].Num? then Some(rows[r][0].n)
    else if r == 0 then tgb
    else TgbAt(rows, tgb, r - 1)
  }

  /** Dropping the first row starts the carried threshold where that row
      left it. */
  lemma {:induction false} TgbAtShift(rows: seq<Row>, tgb: Option<int>, r: nat)
    requires 0 < r < |rows| && forall j :: 0 <= j < |rows| ==> |rows[j]| > 0
    ensures TgbAt(rows[1..], TgbAt(rows, tgb, 0), r - 1) == TgbAt(rows, tgb, r)
  {
    if r > 1 {
      TgbAtShift(rows, tgb, r - 1);
    }
  }

  predicate AllReadable(rows: seq<Row>)
  {
    forall r :: 0 <= r < |rows| ==> RowReadable(rows[r])
  }

  /** The layouts of all rows, when every row passes the checks, each
      with the threshold its first cell leaves. */
  function Layouts(rows: seq<Row>, tgb: Option<int>): (ls: seq<seq<CardRecord>>)
    requires AllReadable(rows)
    ensures |ls| == |rows|
    ensures forall j :: 0 <= j < |ls| ==> |ls[j]| == 14
    decreases |rows|
  {
    if rows == [] then []
    else
      var t := NewTgb(rows[0][0], tgb).value;
      [RowLayout(rows[0], t)] + Layouts(rows[1..], t)
  }

  /** Row `r`'s layout carries the threshold of `TgbAt`. */
  lemma {:induction false} LayoutsAt(rows: seq<Row>, tgb: Option<int>, r: nat)
    requires AllReadable(rows) && r < |rows|
    ensures Layouts(rows, tgb)[r] == RowLayout(rows[r], TgbAt(rows, tgb, r))
    decreases r
  {
    var t := NewTgb(rows[0][0], tgb).value;
    var rest := Layouts(rows[1..], t);
    assert Layouts(rows, tgb) == [RowLayout(rows[0], t)] + rest;
    assert TgbAt(rows, tgb, 0) == t;
    if r > 0 {
      LayoutsAt(rows[1..], t, r - 1);
      TgbAtShift(rows, tgb, r);
      assert rows[1..][r - 1] == rows[r];
      assert ([RowLayout(rows[0], t)] + rest)[r] == rest[r - 1];
    }
  }

  /** The row loop succeeds exactly when every row passes the checks, and
      then appends the layouts of all rows. */
  lemma {:induction false} CardsAfterIs(acc: seq<CardRecord>, rows: seq<Row>, tgb: Option<int>)
    ensures CardsAfter(acc, rows, tgb).Ok? <==> AllReadable(rows)
    ensures AllReadable(rows) ==> CardsAfter(acc, rows, tgb) == Ok(acc + Flatten(Layouts(rows, tgb)))
    decreases |rows|
  {
    if rows == [] {
      assert acc + [] == acc;
    } else {
      assert forall j :: 0 < j < |rows| ==> rows[1..][j - 1] == rows[j];
      if !RowReadable(rows[0]) {
        RowCardsUnreadable(rows[0], tgb);
      } else {
        RowCardsReadable(rows[0], tgb);
        var t := NewTgb(rows[0][0], tgb).value;
        var first := RowLayout(rows[0], t);
        CardsAfterIs(acc + first, rows[1..], t);
        if AllReadable(rows) {
          var ls := Layouts(rows[1..], t);
          assert ([first] + ls)[1..] == ls;
          assert Flatten(Layouts(rows, tgb)) == first + Flatten(ls);
          AppendAssoc(acc, first, Flatten(ls));
        }
      }
    }
  }

  lemma LayoutsFlattenAt(rows: seq<Row>, tgb: Option<int>, r: nat, k: nat)
    requires AllReadable(rows) && r < |rows| && k < 14
    ensures |Flatten(Layouts(rows, tgb))| == 14 * |rows|
    ensures Flatten(Layouts(rows, tgb))[14 * r + k] == Layouts(rows, tgb)[r][k]
  {
    FlattenAt(Layouts(rows, tgb), 14, r, k);
    OffsetIs(14, r);
    OffsetIs(14, |rows|);
  }

  lemma LayoutsCardAt(rows: seq<Row>, tgb: Option<int>, r: nat, k: nat)
    requires AllReadable(rows) && r < |rows| && k < 14
    ensures Layouts(rows, tgb)[r][k] == RowLayout(rows[r], TgbAt(rows, tgb, r))[k]
  {
    LayoutsAt(rows, tgb, r);
  }

  /** Card `k` of row `r`'s layout is card `14r + k` of all the cards. */
  lemma CardAt(rows: seq<Row>, tgb: Option<int>, r: nat, k: nat)
    requires AllReadable(rows) && r < |rows| && k < 14
    ensures |Flatten(Layouts(rows, tgb))| == 14 * |rows|
    ensures Flatten(Layouts(rows, tgb))[14 * r + k] == RowLayout(rows[r], TgbAt(rows, tgb, r))[k]
  {
    LayoutsFlattenAt(rows, tgb, r, k);
    LayoutsCardAt(rows, tgb, r, k);
  }

  /** The script succeeds exactly when every row passes the checks, and
      then row `r` contributes cards `14r` to `14r + 13`, in the fixed
      order, carrying the threshold of `TgbAt`. */
  lemma CardsAfterLayout(rows: seq<Row>, tgb: Option<int>)
    ensures CardsAfter([], rows, tgb).Ok? <==> AllReadable(rows)
    ensures AllReadable(rows) ==>
              var cs := CardsAfter([], rows, tgb).value;
              && |cs| == 14 * |rows|
              && forall r, k :: 0 <= r < |rows| && 0 <= k < 14 ==>
                   cs[14 * r + k] == ExpectedCard(rows[r], TgbAt(rows, tgb, r), k)
  {
    CardsAfterIs([], rows, tgb);
    if AllReadable(rows) {
      var ls := Layouts(rows, tgb);
      assert [] + Flatten(ls) == Flatten(ls);
      if rows != [] {
        FlattenAt(ls, 14, 0, 0);
        OffsetIs(14, |rows|);
      }
      forall r, k | 0 <= r < |rows| && 0 <= k < 14
        ensures Flatten(ls)[14 * r + k] == ExpectedCard(rows[r], TgbAt(rows, tgb, r), k)
      {
        CardAt(rows, tgb, r, k);
        RowLayoutAt(rows[r], TgbAt(rows, tgb, r), k);
      }
    }
  }

  /** The script: `df.index[1:]` skips the sheet's first row, `tgb` starts
      as None, and the rows are converted in order. */
  method Convert(rows: seq<Row>) returns (res: Result<seq<CardRecord>>)
    ensures res == CardsAfter([], if rows == [] then [] else rows[1..], None)
  {
    var body := if rows == [] then [] else rows[1..];
    var cards: seq<CardRecord> := [];
    var tgb: Option<int> := None;
    var i := 0;
    while i < |body|
      invariant 0 <= i <= |body|
      invariant CardsAfter([], body, None) == CardsAfter(cards, body[i..], tgb)
    {
      assert body[i..][1..] == body[i + 1..];
      var row := ConvertRow(body[i], tgb);
      if row.Err? {
        return Err(row.error);
      }
      cards := cards + row.value.0;
      tgb := row.value.1;
      i := i + 1;
    }
    res := Ok(cards);
  }
}
