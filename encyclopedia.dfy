/** `Article` of models/encyclopedia.py: rendering an article as its true or
    its fake version, and the import that links each article record to the
    first card of the game whose title mentions the article's title. */
module Encyclopedia {
  import opened Errors
  import opened Json
  import opened Text
  import opened Records
  import opened Cards

  /** One article row; every text column is NOT NULL. */
  datatype Article = Article(
    title: string,
    content: string,
    type_: string,
    author: string,
    fakeContent: string,
    fakeType: string,
    fakeAuthor: string,
    isFake: bool)

  /** The fake version is shown when the article is marked fake and none of
      its three fake fields is empty. */
  predicate ShowsFake(a: Article)
  {
    a.isFake && a.fakeContent != "" && a.fakeType != "" && a.fakeAuthor != ""
  }

  /** `render()`: always the four keys title, content, type and author, the
      title unchanged; the fake content, type and author exactly when the
      fake version is shown, the true ones otherwise. */
  function Render(a: Article): (r: map<string, string>)
    ensures r.Keys == {"title", "content", "type", "author"}
    ensures r["title"] == a.title
    ensures ShowsFake(a) ==>
              r["content"] == a.fakeContent && r["type"] == a.fakeType && r["author"] == a.fakeAuthor
    ensures !ShowsFake(a) ==>
              r["content"] == a.content && r["type"] == a.type_ && r["author"] == a.author
  {
    if ShowsFake(a) then
      map["title" := a.title, "content" := a.fakeContent, "type" := a.fakeType, "author" := a.fakeAuthor]
    else
      map["title" := a.title, "content" := a.content, "type" := a.type_, "author" := a.author]
  }

  /** An article not marked fake renders the same whatever its fake fields
      hold. */
  lemma RenderIgnoresFakeFields(a: Article, content: string, type_: string, author: string)
    requires !a.isFake
    ensures Render(a.(fakeContent := content, fakeType := type_, fakeAuthor := author)) == Render(a)
  {
  }

  /** A marked article with one fake field empty falls back to the true
      version, so a half-written fake is never shown. */
  lemma RenderNeedsWholeFake(a: Article)
    requires a.isFake && (a.fakeContent == "" || a.fakeType == "" || a.fakeAuthor == "")
    ensures Render(a) == Render(a.(isFake := false))
  {
  }

  /** The card query of the import: a card of the game whose title contains
      the stripped article title, ignoring case. */
  predicate Matches(c: Card, gameId: Value, title: string)
  {
    gameId == Int(c.game) && ContainsIgnoringCase(c.title, Strip(title))
  }

  /** `.first()` of that query: the first matching card at or after `k`, in
      table order. */
  function FirstMatch(cards: seq<Card>, gameId: Value, title: string, k: nat): (r: Option<nat>)
    requires k <= |cards|
    ensures r.Some? ==> k <= r.value < |cards| && Matches(cards[r.value], gameId, title)
    ensures r.Some? ==> forall j :: k <= j < r.value ==> !Matches(cards[j], gameId, title)
    ensures r.None? ==> forall j :: k <= j < |cards| ==> !Matches(cards[j], gameId, title)
    decreases |cards| - k
  {
    if k == |cards| then None
    else if Matches(cards[k], gameId, title) then Some(k)
    else FirstMatch(cards, gameId, title, k + 1)
  }

  /** `dict_["title"]` followed by `title.strip()`: a record that is not a
      dict cannot be indexed by a string (TypeError), a dict without the key
      raises KeyError, and a title that is not a string has no `strip`
      (AttributeError). */
  function TitleOf(v: Value): (r: Result<string>)
    ensures r.Ok? <==> v.Dict? && "title" in v.fields && v.fields["title"].Str?
    ensures r.Ok? ==> r.value == v.fields["title"].s
    ensures !v.Dict? ==> r == Err(TypeError)
    ensures v.Dict? && "title" !in v.fields ==> r == Err(KeyError)
  {
    if !v.Dict? then Err(TypeError)
    else if "title" !in v.fields then Err(KeyError)
    else if !v.fields["title"].Str? then Err(AttributeError)
    else Ok(v.fields["title"].s)
  }

  /** The record with `card_id` set to the id of the card it matched. */
  function WithCard(v: Value, card: nat): (r: Value)
    requires v.Dict?
    ensures r.Dict? && r.fields.Keys == v.fields.Keys + {"card_id"}
    ensures r.fields["card_id"] == Int(card)
    ensures forall k :: k in v.fields && k != "card_id" ==> r.fields[k] == v.fields[k]
  {
    Dict(v.fields["card_id" := Int(card)])
  }

  predicate AllDicts(vs: seq<Value>)
  {
    forall k :: 0 <= k < |vs| ==> vs[k].Dict?
  }

  /** The list `new_` once the matching loop has gone over `records`,
      starting from `acc`: a record without a matching card is skipped, a
      matched one is added with its `card_id`, and the first record whose
      title cannot be read stops the loop with its error. */
  function LinkedAfter(acc: seq<Value>, records: seq<Value>, cards: seq<Card>, gameId: Value): (r: Result<seq<Value>>)
    ensures AllDicts(acc) && r.Ok? ==> AllDicts(r.value)
    ensures r.Ok? ==> |acc| <= |r.value| <= |acc| + |records| && r.value[..|acc|] == acc
    decreases |records|
  {
    if records == [] then Ok(acc)
    else
      match TitleOf(records[0])
      case Err(e) => Err(e)
      case Ok(t) =>
        var m := FirstMatch(cards, gameId, t, 0);
        if m.None? then LinkedAfter(acc, records[1..], cards, gameId)
        else
          var w := WithCard(records[0], m.value);
          AllDictsSnoc(acc, w);
          var r := LinkedAfter(acc + [w], records[1..], cards, gameId);
          if r.Ok? then SnocPrefix(r.value, acc, w); r else r
  }

  lemma AllDictsSnoc(vs: seq<Value>, w: Value)
    requires w.Dict?
    ensures AllDicts(vs) ==> AllDicts(vs + [w])
  {
  }

  lemma SnocPrefix<T>(r: seq<T>, a: seq<T>, w: T)
    requires |a| + 1 <= |r| && r[..|a| + 1] == a + [w]
    ensures r[..|a|] == a
  {
    assert r[..|a|] == r[..|a| + 1][..|a|];
  }

  /** Every record has a readable title. */
  predicate Titled(records: seq<Value>)
  {
    forall j :: 0 <= j < |records| ==> TitleOf(records[j]).Ok?
  }

  /** The matched records with their card ids, in record order: the
      reference definition of what the loop collects. */
  function Linked(records: seq<Value>, cards: seq<Card>, gameId: Value): (l: seq<Value>)
    requires Titled(records)
    ensures AllDicts(l) && |l| <= |records|
    ensures forall j :: 0 <= j < |records| && FirstMatch(cards, gameId, TitleOf(records[j]).value, 0).Some? ==>
              WithCard(records[j], FirstMatch(cards, gameId, TitleOf(records[j]).value, 0).value) in l
    ensures forall v :: v in l ==> exists j :: 0 <= j < |records| && IsLinkOf(records[j], cards, gameId, v)
  {
    if records == [] then []
    else
      var rest := Linked(records[1..], cards, gameId);
      LinkedConsKeeps(records, cards, gameId, rest);
      LinkedConsTraces(records, cards, gameId, rest);
      ConsLink(records[0], cards, gameId, rest)
  }

  /** The record `record` in front of the links `rest` of later records. */
  function ConsLink(record: Value, cards: seq<Card>, gameId: Value, rest: seq<Value>): seq<Value>
    requires TitleOf(record).Ok?
  {
    var m := FirstMatch(cards, gameId, TitleOf(record).value, 0);
    if m.None? then rest else [WithCard(record, m.value)] + rest
  }

  /** The steps of `Linked`, from the links of `records[1..]` to those of
      `records`: every matched record keeps its link when the first record
      goes in front, */
  lemma LinkedConsKeeps(records: seq<Value>, cards: seq<Card>, gameId: Value, rest: seq<Value>)
    requires records != [] && Titled(records)
    requires forall j :: 0 <= j < |records[1..]| && FirstMatch(cards, gameId, TitleOf(records[1..][j]).value, 0).Some? ==>
               WithCard(records[1..][j], FirstMatch(cards, gameId, TitleOf(records[1..][j]).value, 0).value) in rest
    ensures var l := ConsLink(records[0], cards, gameId, rest);
            forall j :: 0 <= j < |records| && FirstMatch(cards, gameId, TitleOf(records[j]).value, 0).Some? ==>
              WithCard(records[j], FirstMatch(cards, gameId, TitleOf(records[j]).value, 0).value) in l
  {
    var l := ConsLink(records[0], cards, gameId, rest);
    forall j | 0 <= j < |records| && FirstMatch(cards, gameId, TitleOf(records[j]).value, 0).Some?
      ensures WithCard(records[j], FirstMatch(cards, gameId, TitleOf(records[j]).value, 0).value) in l
    {
      if j > 0 {
        assert records[1..][j - 1] == records[j];
      }
    }
  }

  /** and every link, old or new, still comes from some record. */
  lemma LinkedConsTraces(records: seq<Value>, cards: seq<Card>, gameId: Value, rest: seq<Value>)
    requires records != [] && Titled(records)
    requires forall v :: v in rest ==> exists j :: 0 <= j < |records[1..]| && IsLinkOf(records[1..][j], cards, gameId, v)
    ensures var l := ConsLink(records[0], cards, gameId, rest);
            forall v :: v in l ==> exists j :: 0 <= j < |records| && IsLinkOf(records[j], cards, gameId, v)
  {
    var l := ConsLink(records[0], cards, gameId, rest);
    forall v | v in l ensures exists j :: 0 <= j < |records| && IsLinkOf(records[j], cards, gameId, v) {
      if v in rest {
        var j :| 0 <= j < |records[1..]| && IsLinkOf(records[1..][j], cards, gameId, v);
        assert records[1..][j] == records[j + 1];
      } else {
        assert IsLinkOf(records[0], cards, gameId, v);
      }
    }
  }

  /** `v` is what the loop adds for `record`: the record with the id of the
      first card its title matches. */
  predicate IsLinkOf(record: Value, cards: seq<Card>, gameId: Value, v: Value)
  {
    && TitleOf(record).Ok?
    && var m := FirstMatch(cards, gameId, TitleOf(record).value, 0);
    && m.Some? && v == WithCard(record, m.value)
  }

  /** The loop fails exactly when some title cannot be read, and otherwise
      adds the matched records, in order, after what it had. */
  lemma {:induction false} LinkedAfterIsLinked(acc: seq<Value>, records: seq<Value>, cards: seq<Card>, gameId: Value)
    ensures LinkedAfter(acc, records, cards, gameId).Ok? <==> Titled(records)
    ensures Titled(records) ==> LinkedAfter(acc, records, cards, gameId) == Ok(acc + Linked(records, cards, gameId))
    decreases |records|
  {
    if records != [] {
      assert forall j :: 1 <= j < |records| ==> records[1..][j - 1] == records[j];
      var t := TitleOf(records[0]);
      if t.Ok? {
        var m := FirstMatch(cards, gameId, t.value, 0);
        if m.None? {
          LinkedAfterIsLinked(acc, records[1..], cards, gameId);
        } else {
          var v := WithCard(records[0], m.value);
          LinkedAfterIsLinked(acc + [v], records[1..], cards, gameId);
          if Titled(records) {
            AppendAssoc(acc, [v], Linked(records[1..], cards, gameId));
          }
        }
      }
    } else {
      assert acc + [] == acc;
    }
  }

  /** The matching loop of `import_from_json`, collecting the matched
      records themselves. */
  method LinkRecords(records: seq<Value>, cards: seq<Card>, gameId: Value) returns (res: Result<seq<Value>>)
    ensures res == LinkedAfter([], records, cards, gameId)
  {
    var linked: seq<Value> := [];
    var i := 0;
    while i < |records|
      invariant 0 <= i <= |records|
      invariant LinkedAfter([], records, cards, gameId) == LinkedAfter(linked, records[i..], cards, gameId)
    {
      assert records[i..][1..] == records[i + 1..];
      var title := TitleOf(records[i]);
      if title.Err? {
        return Err(title.error);
      }
      var card := FirstMatch(cards, gameId, title.value, 0);
      if card.Some? {
        linked := linked + [WithCard(records[i], card.value)];
      }
      i := i + 1;
    }
    res := Ok(linked);
  }

  /** `new_` after `n` appends of `dict`: `n` references to the builtin
      type. */
  function BuiltinDicts(n: nat): (es: seq<Entry>)
    ensures |es| == n && forall j :: 0 <= j < n ==> es[j] == DictType
  {
    seq(n, _ => DictType)
  }

  /** The matching loop as written: for each matched record the builtin
      type `dict` is appended instead of the record, so `new_` holds one
      copy of the type per match. */
  method LinkRecordsAsWritten(records: seq<Value>, cards: seq<Card>, gameId: Value) returns (res: Result<seq<Entry>>)
    ensures var l := LinkedAfter([], records, cards, gameId);
            && (res.Ok? <==> l.Ok?)
            && (res.Ok? ==> res.value == BuiltinDicts(|l.value|))
            && (res.Err? ==> res.error == l.error)
  {
    ghost var linked: seq<Value> := [];
    var new_: seq<Entry> := [];
    var i := 0;
    while i < |records|
      invariant 0 <= i <= |records|
      invariant new_ == BuiltinDicts(|linked|)
      invariant LinkedAfter([], records, cards, gameId) == LinkedAfter(linked, records[i..], cards, gameId)
    {
      assert records[i..][1..] == records[i + 1..];
      var title := TitleOf(records[i]);
      if title.Err? {
        return Err(title.error);
      }
      var card := FirstMatch(cards, gameId, title.value, 0);
      if card.Some? {
        linked := linked + [WithCard(records[i], card.value)];
        new_ := new_ + [DictType];
      }
      i := i + 1;
    }
    res := Ok(new_);
  }

  /** `Article.import_from_json` as intended: `defaults["game_id"]` selects
      the game (TypeError without defaults, KeyError without the key), the
      matched records get their card ids, and the base import creates one
      row per matched record with the defaults merged in. */
  method ImportArticles(table: RecordTable, records: seq<Value>, fileRecords: seq<Value>, cards: seq<Card>,
                        defaults: Option<Record>)
    returns (res: Result<()>)
    modifies table
    ensures defaults.None? ==> res == Err(TypeError) && table.rows == old(table.rows)
    ensures defaults.Some? && "game_id" !in defaults.value ==> res == Err(KeyError) && table.rows == old(table.rows)
    ensures defaults.Some? && "game_id" in defaults.value ==>
              var l := LinkedAfter([], Source(records, fileRecords), cards, defaults.value["game_id"]);
              && (l.Err? ==> res == Err(l.error) && table.rows == old(table.rows))
              && (l.Ok? ==> res == Ok(()) && table.rows == old(table.rows) + MergedAll(l.value, defaults))
  {
    var recs := Source(records, fileRecords);
    if defaults.None? {
      return Err(TypeError);
    }
    if "game_id" !in defaults.value {
      return Err(KeyError);
    }
    var linked := LinkRecords(recs, cards, defaults.value["game_id"]);
    if linked.Err? {
      return Err(linked.error);
    }
    var l := linked.value;
    DictPrefixAt(l, |l|);
    assert l[..|l|] == l;
    var ids := table.ImportFromJson(l, defaults);
    res := Ok(());
  }

  /** `Article.import_from_json` as written: the same failures, and then the
      base import of `new_`, whose entries are the type `dict`. It fails
      with TypeError as soon as one record matched, and no row is ever
      created. */
  method ImportArticlesAsWritten(table: RecordTable, records: seq<Value>, fileRecords: seq<Value>, cards: seq<Card>,
                                 defaults: Option<Record>)
    returns (res: Result<()>)
    modifies table
    ensures table.rows == old(table.rows)
    ensures defaults.None? ==> res == Err(TypeError)
    ensures defaults.Some? && "game_id" !in defaults.value ==> res == Err(KeyError)
    ensures defaults.Some? && "game_id" in defaults.value ==>
              var l := LinkedAfter([], Source(records, fileRecords), cards, defaults.value["game_id"]);
              && (l.Err? ==> res == Err(l.error))
              && (l.Ok? ==> (res.Ok? <==> l.value == []))
              && (l.Ok? && res.Err? ==> res.error == TypeError)
  {
    var recs := Source(records, fileRecords);
    if defaults.None? {
      return Err(TypeError);
    }
    if "game_id" !in defaults.value {
      return Err(KeyError);
    }
    var new_ := LinkRecordsAsWritten(recs, cards, defaults.value["game_id"]);
    if new_.Err? {
      return Err(new_.error);
    }
    BuiltinDictsFail(new_.value, defaults);
    var created := table.ImportEntries(new_.value, defaults);
    if created.Err? {
      return Err(created.error);
    }
    res := Ok(());
  }

  /** An article titled "fake" and a card of game 0 titled "fake": the
      intended import creates the article linked to card 0, the import as
      written fails with TypeError. */
  lemma ArticleImportCounterexample()
    ensures var card := Card(0, "fake", "", None, None, None, {}, None, false, None, None, false, None);
            var record := Dict(map["title" := Str("fake")]);
            var l := LinkedAfter([], [record], [card], Int(0));
            && l == Ok([WithCard(record, 0)])
            && RowPrefix(BuiltinDicts(|l.value|), Some(map["game_id" := Int(0)])) == 0
            && EntryRow(BuiltinDicts(|l.value|)[0], Some(map["game_id" := Int(0)])) == Err(TypeError)
            && MergedAll(l.value, Some(map["game_id" := Int(0)]))[0]["card_id"] == Int(0)
  {
    var card := Card(0, "fake", "", None, None, None, {}, None, false, None, None, false, None);
    assert SkipSpaces("fake", 0) == 0;
    assert BackSpaces("fake", 0, 4) == 4;
    assert Strip("fake") == "fake";
    assert OccursAt(Lower("fake"), Lower("fake"), 0);
    assert Matches(card, Int(0), "fake");
    var record := Dict(map["title" := Str("fake")]);
    assert TitleOf(record) == Ok("fake");
    assert FirstMatch([card], Int(0), "fake", 0) == Some(0);
    var w := WithCard(record, 0);
    assert [record][1..] == [];
    assert LinkedAfter([w], [], [card], Int(0)) == Ok([w]);
    assert [] + [w] == [w];
  }
}
