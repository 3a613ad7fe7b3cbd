/** scripts/load_articles.py: every row after the first of each listed sheet
    of the encyclopedia workbook becomes one article record, its fields read
    by column from the row, its `is_fake` flag drawn at random. */
module LoadArticles {
  import opened Errors
  import opened Sheets
  import opened Records

  /** The sheets the script reads, in the order it reads them. */
  const SheetNames: seq<string> := [
    "S Factual", "S Cats", "S Socks", "S Skub", "S High fives",
    "S Houseboats", "S Anti-Red", "S Anti-Blue", "S Anti-Yellow", "S Conflated"
  ]

  /** The columns of `Indexes`. */
  const Headline: nat := 0
  const TypeColumn: nat := 1
  const Content: nat := 2
  const Author: nat := 3
  const FakeType: nat := 4
  const FakeContent: nat := 5
  const FakeAuthor: nat := 6

  /** `get_iloc(row, idx)`: the cell at `idx`, or the empty string when
      `row.iloc` raises IndexError. */
  function GetIloc(row: Row, idx: nat): (c: Cell)
    ensures idx < |row| ==> c == row[idx]
    ensures idx >= |row| ==> c == Text("")
  {
    if idx < |row| then row[idx] else Text("")
  }

  /** `get_iloc` is `row.iloc[idx]` with its IndexError caught. */
  lemma GetIlocCatchesIndexError(row: Row, idx: nat)
    ensures CellAt(row, idx).Ok? ==> GetIloc(row, idx) == CellAt(row, idx).value
    ensures CellAt(row, idx) == Err(IndexError) ==> GetIloc(row, idx) == Text("")
  {
  }

  /** One article dict. */
  datatype ArticleRecord = ArticleRecord(
    title: Cell,
    content: Cell,
    type_: Cell,
    author: Cell,
    fakeContent: Cell,
    fakeType: Cell,
    fakeAuthor: Cell,
    isFake: bool)

  /** The article of one row, with the random choice `isFake`. */
  function ArticleOf(row: Row, isFake: bool): ArticleRecord
  {
    ArticleRecord(
      GetIloc(row, Headline), GetIloc(row, Content), GetIloc(row, TypeColumn),
      GetIloc(row, Author), GetIloc(row, FakeContent), GetIloc(row, FakeType),
      GetIloc(row, FakeAuthor), isFake)
  }

  /** The seven row-determined fields in column order. */
  function Columns(a: ArticleRecord): seq<Cell>
  {
    [a.title, a.type_, a.content, a.author, a.fakeType, a.fakeContent, a.fakeAuthor]
  }

  /** The field map: field `i` of `Columns` is read from column `i`, so a
      row of at least seven cells gives its first seven cells, and a
      shorter row gives empty strings for the missing columns. */
  lemma ArticleColumns(row: Row, isFake: bool)
    ensures |Columns(ArticleOf(row, isFake))| == 7
    ensures forall i :: 0 <= i < 7 ==> Columns(ArticleOf(row, isFake))[i] == GetIloc(row, i)
    ensures |row| >= 7 ==> Columns(ArticleOf(row, isFake)) == row[..7]
  {
    var cs := Columns(ArticleOf(row, isFake));
    forall i | 0 <= i < 7 ensures cs[i] == GetIloc(row, i) {
      if i == 0 { assert cs[i] == GetIloc(row, Headline); }
      else if i == 1 { assert cs[i] == GetIloc(row, TypeColumn); }
      else if i == 2 { assert cs[i] == GetIloc(row, Content); }
      else if i == 3 { assert cs[i] == GetIloc(row, Author); }
      else if i == 4 { assert cs[i] == GetIloc(row, FakeType); }
      else if i == 5 { assert cs[i] == GetIloc(row, FakeContent); }
      else { assert cs[i] == GetIloc(row, FakeAuthor); }
    }
    if |row| >= 7 {
      assert forall i :: 0 <= i < 7 ==> cs[i] == row[..7][i];
    }
  }

  /** `is_fake` is the only field the row does not determine. */
  lemma OnlyIsFakeIsRandom(row: Row, a: bool, b: bool)
    ensures ArticleOf(row, a).isFake == a
    ensures ArticleOf(row, a).(isFake := b) == ArticleOf(row, b)
  {
  }

  /** `df.index[1:]`: the rows of a sheet after its first. */
  function Body(rows: seq<Row>): (b: seq<Row>)
    ensures |b| == if rows == [] then 0 else |rows| - 1
    ensures forall j :: 0 <= j < |b| ==> b[j] == rows[j + 1]
  {
    if rows == [] then [] else rows[1..]
  }

  /** The rows that become articles, sheet after sheet. */
  function Bodies(sheets: seq<seq<Row>>): seq<Row>
    decreases |sheets|
  {
    if sheets == [] then []
    else Bodies(sheets[..|sheets| - 1]) + Body(sheets[|sheets| - 1])
  }

  /** The articles of `rows`, the `n`-th taking the `n`-th random choice. */
  function ArticlesOf(rows: seq<Row>, coin: nat -> bool): (articles: seq<ArticleRecord>)
    ensures |articles| == |rows|
    ensures forall n :: 0 <= n < |rows| ==> articles[n] == ArticleOf(rows[n], coin(n))
  {
    seq(|rows|, n requires 0 <= n < |rows| => ArticleOf(rows[n], coin(n)))
  }

  lemma ArticlesOfSnoc(rows: seq<Row>, row: Row, coin: nat -> bool)
    ensures ArticlesOf(rows + [row], coin) == ArticlesOf(rows, coin) + [ArticleOf(row, coin(|rows|))]
  {
    var l := ArticlesOf(rows + [row], coin);
    var r := ArticlesOf(rows, coin) + [ArticleOf(row, coin(|rows|))];
    assert |l| == |r|;
    forall n | 0 <= n < |l| ensures l[n] == r[n] {
      if n < |rows| {
        assert (rows + [row])[n] == rows[n];
      } else {
        assert (rows + [row])[n] == row;
      }
    }
  }

  /** The rows of several sheets are the rows of the first ones, then the
      rows of the others. */
  lemma {:induction false} BodiesAppend(a: seq<seq<Row>>, b: seq<seq<Row>>)
    ensures Bodies(a + b) == Bodies(a) + Bodies(b)
    decreases |b|
  {
    if b == [] {
      assert a + b == a;
      assert Bodies(a) + [] == Bodies(a);
    } else {
      var front := b[..|b| - 1];
      var last := b[|b| - 1];
      assert (a + b)[..|a + b| - 1] == a + front;
      assert (a + b)[|a + b| - 1] == last;
      BodiesAppend(a, front);
      AppendAssoc(Bodies(a), Bodies(front), Body(last));
    }
  }

  /** The sheets are read in their listed order: the first sheet's rows
      come before all the others'. */
  lemma SheetsInOrder(first: seq<Row>, others: seq<seq<Row>>)
    ensures Bodies([first] + others) == Body(first) + Bodies(others)
  {
    BodiesAppend([first], others);
    assert [first][..0] == [];
  }

  /** The rows of the sheets before `si`, then sheet `si`'s, then the
      later sheets'. */
  lemma BodiesAround(sheets: seq<seq<Row>>, si: nat)
    requires si < |sheets|
    ensures Bodies(sheets) == Bodies(sheets[..si]) + (Body(sheets[si]) + Bodies(sheets[si + 1..]))
  {
    BodiesSplit(sheets, si);
    BodiesFirst(sheets[si..]);
    assert sheets[si..][1..] == sheets[si + 1..];
  }

  /** The rows of the sheets before `i`, then those of the others. */
  lemma BodiesSplit(sheets: seq<seq<Row>>, i: nat)
    requires i <= |sheets|
    ensures Bodies(sheets) == Bodies(sheets[..i]) + Bodies(sheets[i..])
  {
    TakeDrop(sheets, i);
    BodiesAppend(sheets[..i], sheets[i..]);
  }

  /** The rows of the first sheet, then those of the others. */
  lemma BodiesFirst(sheets: seq<seq<Row>>)
    requires sheets != []
    ensures Bodies(sheets) == Body(sheets[0]) + Bodies(sheets[1..])
  {
    TakeDrop(sheets, 1);
    assert sheets[..1] == [sheets[0]];
    SheetsInOrder(sheets[0], sheets[1..]);
  }

  lemma TakeDrop<T>(s: seq<T>, i: nat)
    requires i <= |s|
    ensures s[..i] + s[i..] == s
  {
  }

  /** Row `r >= 1` of sheet `si` is the row after those of the earlier
      sheets and of rows 1 to `r - 1`. */
  lemma BodiesAt(sheets: seq<seq<Row>>, si: nat, r: nat)
    requires si < |sheets| && 1 <= r < |sheets[si]|
    ensures |Bodies(sheets[..si])| + r - 1 < |Bodies(sheets)|
    ensures Bodies(sheets)[|Bodies(sheets[..si])| + r - 1] == sheets[si][r]
  {
    BodiesAround(sheets, si);
    InMiddle(Bodies(sheets[..si]), Body(sheets[si]), Bodies(sheets[si + 1..]), r - 1);
  }

  lemma InMiddle<T>(a: seq<T>, b: seq<T>, c: seq<T>, j: nat)
    requires j < |b|
    ensures |a| + j < |a + (b + c)|
    ensures (a + (b + c))[|a| + j] == b[j]
  {
  }

  /** Row `r >= 1` of sheet `si` gives exactly one article: the one after
      the articles of the earlier sheets and of rows 1 to `r - 1`. */
  lemma RowArticle(sheets: seq<seq<Row>>, si: nat, r: nat, coin: nat -> bool)
    requires si < |sheets| && 1 <= r < |sheets[si]|
    ensures |Bodies(sheets[..si])| + r - 1 < |ArticlesOf(Bodies(sheets), coin)|
    ensures var n := |Bodies(sheets[..si])| + r - 1;
            ArticlesOf(Bodies(sheets), coin)[n] == ArticleOf(sheets[si][r], coin(n))
  {
    BodiesAt(sheets, si, r);
  }

  /** The sheets in the order the script reads them: `readOds(name)` is
      what `read_ods` returns for the sheet called `name`. */
  function Workbook(readOds: string -> seq<Row>): (sheets: seq<seq<Row>>)
    ensures |sheets| == |SheetNames|
    ensures forall i :: 0 <= i < |SheetNames| ==> sheets[i] == readOds(SheetNames[i])
  {
    seq(|SheetNames|, i requires 0 <= i < |SheetNames| => readOds(SheetNames[i]))
  }

  /** The script's nested loop over the sheets and their rows. `coin(n)` is
      the `n`-th `random.choice((True, False))`. */
  method Load(readOds: string -> seq<Row>, coin: nat -> bool) returns (articles: seq<ArticleRecord>)
    ensures articles == ArticlesOf(Bodies(Workbook(readOds)), coin)
  {
    var sheets := Workbook(readOds);
    articles := [];
    var si := 0;
    while si < |sheets|
      invariant 0 <= si <= |sheets|
      invariant articles == ArticlesOf(Bodies(sheets[..si]), coin)
    {
      articles := LoadRows(Bodies(sheets[..si]), articles, Body(sheets[si]), coin);
      assert sheets[..si + 1][..si] == sheets[..si];
      si := si + 1;
    }
    assert sheets[..|sheets|] == sheets;
  }

  /** The inner loop over the rows of one sheet: each row adds its article,
      after those of the rows `done` read before it. */
  method LoadRows(ghost done: seq<Row>, articles0: seq<ArticleRecord>, body: seq<Row>, coin: nat -> bool)
    returns (articles: seq<ArticleRecord>)
    requires articles0 == ArticlesOf(done, coin)
    ensures articles == ArticlesOf(done + body, coin)
  {
    articles := articles0;
    var j := 0;
    while j < |body|
      invariant 0 <= j <= |body|
      invariant articles == ArticlesOf(done + body[..j], coin)
    {
      ArticlesOfSnoc(done + body[..j], body[j], coin);
      articles := articles + [ArticleOf(body[j], coin(|articles|))];
      assert body[..j + 1] == body[..j] + [body[j]];
      AppendAssoc(done, body[..j], [body[j]]);
      j := j + 1;
    }
    assert body[..|body|] == body;
  }
}
