/** `Game` of models/base.py: the activity rule and `Game.new`, which creates
    the game row, one colour and one topic per name, one player per name,
    and, when a card file is given, the game's cards. The tables are
    sequences of rows and a row's id is its position. */
module Games {
  import opened Errors
  import opened Json
  import opened Records
  import opened CardImport

  /** The number of rounds after which a game stops being active. */
  const LastRound := 5

  /** One game row; `rounds` starts at 0. */
  datatype Game = Game(name: string, rounds: int, drawFnName: string, password: string)

  /** A row of the colour or of the topic table. */
  datatype Named = Named(name: string, game: nat)

  /** A player row; `color` is the id of a colour row. */
  datatype PlayerRow = PlayerRow(name: string, color: nat, game: nat)

  /** `Game.active`. */
  predicate Active(rounds: int)
  {
    rounds <= LastRound
  }

  /** A game just created has played no round and is active. */
  lemma NewGameActive(name: string, drawFnName: string, password: string)
    ensures var g := Game(name, 0, drawFnName, password);
            g.rounds == 0 && Active(g.rounds)
  {
  }

  /** Whether the game name is taken (the column is unique). */
  predicate GameNameTaken(games: seq<Game>, name: string)
  {
    exists j | 0 <= j < |games| :: games[j].name == name
  }

  /** Whether `(name, game)` is taken in a colour or topic table (the pair is
      unique together). */
  predicate Taken(rows: seq<Named>, name: string, game: nat)
  {
    exists j | 0 <= j < |rows| :: rows[j].name == name && rows[j].game == game
  }

  /** The colour or topic table after the creation loop over `names`, and
      whether every row was created: the first name already taken stops it
      with the rows created before it. */
  function NamedAfter(rows: seq<Named>, names: seq<string>, game: nat): (seq<Named>, bool)
    decreases |names|
  {
    if names == [] then (rows, true)
    else if Taken(rows, names[0], game) then (rows, false)
    else NamedAfter(rows + [Named(names[0], game)], names[1..], game)
  }

  /** One row per name, in order, each linked to the game. */
  function NamedRows(names: seq<string>, game: nat): (rs: seq<Named>)
    ensures |rs| == |names|
    ensures forall k :: 0 <= k < |names| ==> rs[k] == Named(names[k], game)
  {
    seq(|names|, k requires 0 <= k < |names| => Named(names[k], game))
  }

  /** No name is taken yet and no name is repeated. */
  predicate Fresh(rows: seq<Named>, names: seq<string>, game: nat)
  {
    && (forall k :: 0 <= k < |names| ==> !Taken(rows, names[k], game))
    && (forall k, l :: 0 <= k < l < |names| ==> names[k] != names[l])
  }

  lemma FreshStep(rows: seq<Named>, names: seq<string>, game: nat)
    requires names != []
    ensures Fresh(rows, names, game) <==>
            !Taken(rows, names[0], game) && Fresh(rows + [Named(names[0], game)], names[1..], game)
  {
    var grown := rows + [Named(names[0], game)];
    assert forall j :: 0 <= j < |rows| ==> grown[j] == rows[j];
    assert grown[|rows|] == Named(names[0], game);
    forall x ensures Taken(grown, x, game) <==> Taken(rows, x, game) || x == names[0] {
      if Taken(grown, x, game) {
        var j :| 0 <= j < |grown| && grown[j].name == x && grown[j].game == game;
        if j < |rows| {
          assert rows[j] == grown[j];
        }
      }
      if x == names[0] {
        assert grown[|rows|].name == x;
      }
    }
    assert forall k :: 0 <= k < |names| - 1 ==> names[1..][k] == names[k + 1];
  }

  /** The creation loop creates every row exactly when the names are fresh,
      and then the table gains one row per name, in order, each linked to
      the game. */
  lemma {:induction false} NamedAfterFresh(rows: seq<Named>, names: seq<string>, game: nat)
    ensures NamedAfter(rows, names, game).1 <==> Fresh(rows, names, game)
    ensures NamedAfter(rows, names, game).1 ==>
              NamedAfter(rows, names, game).0 == rows + NamedRows(names, game)
    decreases |names|
  {
    if names != [] {
      FreshStep(rows, names, game);
      if !Taken(rows, names[0], game) {
        var grown := rows + [Named(names[0], game)];
        NamedAfterFresh(grown, names[1..], game);
        AppendAssoc(rows, [Named(names[0], game)], NamedRows(names[1..], game));
        assert [Named(names[0], game)] + NamedRows(names[1..], game) == NamedRows(names, game);
      }
    }
  }

  /** The player table after the player loop: every player gets the first
      colour created for the game. */
  function PlayersAfter(rows: seq<PlayerRow>, names: seq<string>, color: nat, game: nat): seq<PlayerRow>
    decreases |names|
  {
    if names == [] then rows
    else PlayersAfter(rows + [PlayerRow(names[0], color, game)], names[1..], color, game)
  }

  /** One player per name, in order, all of the same colour. */
  lemma {:induction false} PlayersAfterRows(rows: seq<PlayerRow>, names: seq<string>, color: nat, game: nat)
    ensures var rs := PlayersAfter(rows, names, color, game);
            && |rs| == |rows| + |names|
            && rs[..|rows|] == rows
            && (forall k :: 0 <= k < |names| ==> rs[|rows| + k] == PlayerRow(names[k], color, game))
    decreases |names|
  {
    if names != [] {
      var grown := rows + [PlayerRow(names[0], color, game)];
      PlayersAfterRows(grown, names[1..], color, game);
      var rs := PlayersAfter(rows, names, color, game);
      assert rs[..|rows|] == grown[..|grown|][..|rows|];
      forall k | 0 <= k < |names| ensures rs[|rows| + k] == PlayerRow(names[k], color, game) {
        if k == 0 {
          assert rs[|rows|] == rs[..|grown|][|rows|];
        } else {
          assert rs[|grown| + (k - 1)] == PlayerRow(names[1..][k - 1], color, game);
        }
      }
    }
  }

  /** The defaults the cards of game `game` are imported with. */
  function CardDefaults(game: nat): Record
  {
    map["game_id" := Int(game)]
  }

  /** The tables `Game.new` writes to. */
  class GameTables {
    var games: seq<Game>
    var colors: seq<Named>
    var topics: seq<Named>
    var players: seq<PlayerRow>

    constructor ()
      ensures games == [] && colors == [] && topics == [] && players == []
    {
      games, colors, topics, players := [], [], [], [];
    }

    /** `cls.create(name=name, **model_kwargs)`: a name already taken is
        refused by the unique column. */
    method CreateGame(name: string, drawFnName: string, password: string) returns (res: Result<nat>)
      modifies this
      ensures res.Err? <==> GameNameTaken(old(games), name)
      ensures res.Err? ==> res.error == IntegrityError && games == old(games)
      ensures res.Ok? ==> res.value == |old(games)| && games == old(games) + [Game(name, 0, drawFnName, password)]
      ensures colors == old(colors) && topics == old(topics) && players == old(players)
    {
      if GameNameTaken(games, name) {
        return Err(IntegrityError);
      }
      res := Ok(|games|);
      games := games + [Game(name, 0, drawFnName, password)];
    }

    /** The player loop: `color_objs[0]` fails with IndexError when no
        colour was created, before the first player is. */
    method CreatePlayers(names: seq<string>, firstColor: Option<nat>, game: nat) returns (res: Result<()>)
      modifies this
      ensures names != [] && firstColor.None? ==> res == Err(IndexError) && players == old(players)
      ensures names == [] ==> res == Ok(()) && players == old(players)
      ensures names != [] && firstColor.Some? ==>
                res == Ok(()) && players == PlayersAfter(old(players), names, firstColor.value, game)
      ensures games == old(games) && colors == old(colors) && topics == old(topics)
    {
      if names == [] {
        return Ok(());
      }
      if firstColor.None? {
        return Err(IndexError);
      }
      var color := firstColor.value;
      var i := 0;
      while i < |names|
        invariant 0 <= i <= |names|
        invariant PlayersAfter(old(players), names, color, game) == PlayersAfter(players, names[i..], color, game)
        invariant games == old(games) && colors == old(colors) && topics == old(topics)
      {
        assert names[i..][1..] == names[i + 1..];
        players := players + [PlayerRow(names[i], color, game)];
        i := i + 1;
      }
      res := Ok(());
    }

    /** `Game.new`: creates the game, then its colours, its topics and its
        players, then imports its cards when a cards file is given;
        `cardRecords` holds that file's records, which the card import reads
        through its `json_path`. Each step can fail, and what the steps
        before it created stays. The result is the id of the game. */
    method New(name: string, playerNames: seq<string>, colorNames: seq<string>, topicNames: seq<string>,
               drawFnName: string, password: string, cardRecords: Option<seq<Value>>, cardTable: RecordTable)
      returns (res: Result<nat>)
      modifies this, cardTable
      ensures GameNameTaken(old(games), name) ==>
                && res == Err(IntegrityError)
                && games == old(games) && colors == old(colors) && topics == old(topics)
                && players == old(players) && cardTable.rows == old(cardTable.rows)
      ensures !GameNameTaken(old(games), name) ==>
                var id := |old(games)|;
                var (cs, colorsOk) := NamedAfter(old(colors), colorNames, id);
                var (ts, topicsOk) := NamedAfter(old(topics), topicNames, id);
                var playersFail := playerNames != [] && colorNames == [];
                && games == old(games) + [Game(name, 0, drawFnName, password)]
                && colors == cs
                && (!colorsOk ==> res == Err(IntegrityError) && topics == old(topics))
                && (colorsOk ==> topics == ts)
                && (colorsOk && !topicsOk ==> res == Err(IntegrityError))
                && (!(colorsOk && topicsOk && !playersFail) ==>
                      players == old(players) && cardTable.rows == old(cardTable.rows))
                && (colorsOk && topicsOk && playersFail ==> res == Err(IndexError))
                && (colorsOk && topicsOk && !playersFail ==>
                      players == PlayersAfter(old(players), playerNames, |old(colors)|, id))
                && (colorsOk && topicsOk && !playersFail && cardRecords.None? ==>
                      res == Ok(id) && cardTable.rows == old(cardTable.rows))
                && (colorsOk && topicsOk && !playersFail && cardRecords.Some? ==>
                      && cardTable.rows == ImportedRows(old(cardTable.rows), cardRecords.value, Some(CardDefaults(id)))
                      && (res.Ok? <==> ImportOutcome(cardRecords.value).Ok?)
                      && (res.Ok? ==> res.value == id)
                      && (res.Err? ==> res.error == ImportOutcome(cardRecords.value).error))
    {
      var created := CreateGame(name, drawFnName, password);
      if created.Err? {
        return Err(created.error);
      }
      var id := created.value;
      var firstColor := if colorNames == [] then None else Some(|colors|);
      var cs, colorsOk := CreateNamed(colors, colorNames, id);
      colors := cs;
      if !colorsOk {
        return Err(IntegrityError);
      }
      var ts, topicsOk := CreateNamed(topics, topicNames, id);
      topics := ts;
      if !topicsOk {
        return Err(IntegrityError);
      }
      var made := CreatePlayers(playerNames, firstColor, id);
      if made.Err? {
        return Err(made.error);
      }
      if cardRecords.None? {
        return Ok(id);
      }
      var imported := ImportCards(cardTable, [], cardRecords.value, Some(CardDefaults(id)));
      if imported.Err? {
        return Err(imported.error);
      }
      res := Ok(id);
    }
  }

  /** The colour loop and the topic loop of `Game.new` on a table's rows:
      `ok` is false when a `(name, game)` pair already exists. */
  method CreateNamed(rows: seq<Named>, names: seq<string>, game: nat) returns (rows': seq<Named>, ok: bool)
    ensures (rows', ok) == NamedAfter(rows, names, game)
  {
    rows' := rows;
    var i := 0;
    while i < |names|
      invariant 0 <= i <= |names|
      invariant NamedAfter(rows, names, game) == NamedAfter(rows', names[i..], game)
    {
      assert names[i..][1..] == names[i + 1..];
      if Taken(rows', names[i], game) {
        return rows', false;
      }
      rows' := rows' + [Named(names[i], game)];
      i := i + 1;
    }
    ok := true;
  }
}
