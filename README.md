# Viral Spiral backend, modelled in Dafny

Viral Spiral is a multiplayer card game about how news spreads. Each player
draws cards and passes them on. A card can carry a bias against a colour,
an affinity towards a topic, or a fake version. The backend keeps the game
in a SQL database (peewee models). A card generator chooses what each
player draws, and a turn loop waits until every queued card has been dealt
with. Two offline scripts turn the game's spreadsheets into the card and
article JSON files.

This project models that core:

- **Tables.** Each table is a `seq` of rows inside a `class`, and a row's
  id is its position. Randomness is an input: the draws of
  `random.uniform` and `random.choice` are parameters.
- **Python runtime errors.** KeyError, TypeError, AttributeError,
  IndexError, AssertionError, and the database's IntegrityError are the
  error cases of a `Result`.

One module per source file:

| module | source |
|---|---|
| `Records` | models/base.py `Model.import_from_json` |
| `Games` | models/base.py `Game` |
| `Cards`, `CardImport` | models/card.py |
| `CardQueue` | models/card_queue.py |
| `Players` | models/player.py |
| `Scores` | models/score.py |
| `Encyclopedia` | models/encyclopedia.py |
| `Messages` | models/messages.py |
| `ModelUtils` | models/utils.py |
| `Runner` | main_loop/base.py |
| `Websocket` | `UniqueQueue` and the player-name rule of main_loop/websocket.py |
| `DeckFirst` | deck_generators/first.py |
| `DeckAlpha` | deck_generators/deck-generator-alpha.py |
| `XlsToJson` | scripts/xls_to_json.py |
| `LoadArticles` | scripts/load_articles.py |

Shared helper modules:

- `Errors`: `Result` and `Option`.
- `Json`: the dynamically typed values.
- `Text`: `strip` and `lower`.
- `Sheets`: spreadsheet cells.

Where the module docstring of deck_generators/first.py says bias cards come
with probability 0.25, the model follows the code, which tests
`bias_p <= 0.2`.

## Model

| member | source | states |
|---|---|---|
| Records.RecordTable.Create | models/base.py:34 | the new row is appended and its id is the old length |
| Records.RecordTable.ImportFromJson | models/base.py:25-35 | one row per record in order, each with the defaults merged in; the first non-dict stops it with AttributeError or TypeError, and the rows created before it stay |
| Records.Merged | models/base.py:32-33 | `dict_.update(defaults)`: the keys are the union, a default wins over the record, other record values are kept, and no defaults means no change |
| Records.MergedAll | models/base.py:31-34 | one merged row per record, at the record's position |
| Records.DictPrefix | models/base.py:31-34 | the position of the first record that is not a dict, or the length when there is none |
| Records.RecordTable.ImportEntries | models/base.py:31-35 | the loop over any list: the rows of the entries before the first one without a row are created in order, and that entry's error is the result; success exactly when every entry yields a row, with consecutive ids |
| Records.EntryRow | models/base.py:32-34 | a dict gives its merged row, another JSON value AttributeError or TypeError, and the builtin `dict` (whose `update(defaults)` changes nothing) TypeError at `**` |
| Records.RowPrefix | models/base.py:31-34 | every entry before the position yields a row and the one at it does not |
| Records.ValuesPrefix | models/base.py:31-34 | on JSON records the general loop stops where the dicts stop, with their merged rows and `UnpackError` |
| Records.BuiltinDictsFail | models/base.py:31-34 | a list of the builtin `dict` stops at its first entry with TypeError: no row is created |
| Games.NewGameActive | models/base.py:47-53 | a new game starts at round 0 and is active |
| Games.NamedRows | models/base.py:73-79 | one colour or topic row per name, in order, linked to the game |
| Games.NamedAfterFresh | models/base.py:73-79 | the creation loop creates every row exactly when the names are fresh and distinct, and the table then gains one row per name in order |
| Games.PlayersAfterRows | models/base.py:81-84 | one player row per name, in order, after the old rows, all with the first colour |
| Games.CreateNamed | models/base.py:73-79 | the loop computes the table and the success flag of `NamedAfter` |
| Games.GameTables.CreateGame | models/base.py:71 | a taken game name fails with IntegrityError and nothing changes; otherwise a game at round 0 is appended |
| Games.GameTables.CreatePlayers | models/base.py:81-84 | `color_objs[0]` raises IndexError when there are players but no colour; otherwise one row per player |
| Games.GameTables.New | models/base.py:55-89 | game, colours, topics, players and then cards are created in that order; each failure is reported and what came before it stays |
| Cards.StatusOf | models/card.py:120-126 | an instance is passed exactly when some instance was passed on from it |
| Cards.StatusAfterCreate | models/card.py:120-126 | a new row turns exactly the instance it was passed from into passed |
| Cards.Holders | models/card.py:140-143 | the players with an instance of the card |
| Cards.AllowedRecipients | models/card.py:136-147 | the players of the game who have no instance of the same card |
| Cards.HolderIsNoRecipient | models/card.py:136-147 | the holder of an instance is never its recipient |
| Cards.RecipientsShrink | models/card.py:136-147 | a new instance never lets a recipient in, and the new holder of the same card drops out |
| Cards.CardTables.Draw | models/card.py:62-72 | a root instance is created and the player becomes the card's original player; a (card, player, game) triple that already exists is refused with IntegrityError; the new instance is holding and no other status changes |
| Cards.CardTables.AddBias | models/card.py:55-60 | the card is biased against the new colour and the old colour goes into its history; a colour already in the history is refused with IntegrityError |
| Cards.CardTables.CreateFakeNews | models/card.py:128-134 | a card that is not a fake of the instance's card fails the assertion and changes nothing; otherwise the fake is marked as faked by the holder and the instance shows the fake, or the unique index refuses it after the fake is saved |
| CardImport.FirstPopError | models/card.py:83-87 | no error exactly when every record is a dict with a "fakes" key |
| CardImport.Stripped | models/card.py:84 | the record without its "fakes" key, other values kept |
| CardImport.SplitFakes | models/card.py:82-87 | the first loop gives the stripped records and the popped fakes in order, or the error of the first record it cannot pop |
| CardImport.LinkFakes | models/card.py:91-92 | every fake gets "original_id" set to the original's id |
| CardImport.FirstBadFakes | models/card.py:90-93 | the position of the first truthy "fakes" value that is not a list of dicts |
| CardImport.FakeRowsPointBack | models/card.py:88-93 | every fake row points back at the id of an original whose fakes list was non-empty |
| CardImport.OriginalsHaveNoFakes | models/card.py:84-88 | no original row keeps a "fakes" key |
| CardImport.ImportFakesOf | models/card.py:90-93 | the fakes of one original are imported linked to it when truthy; a bad value fails and changes nothing |
| CardImport.ImportFakes | models/card.py:89-93 | the fakes of each original are imported in order up to the first bad value, which gives TypeError |
| CardImport.ImportCards | models/card.py:76-93 | the given records, or the file's when none are given, are imported: the originals stripped of their fakes, then the fakes linked to them; a failed pop creates nothing |
| CardQueue.MaxIdx | models/card_queue.py:26-33 | the largest `idx` among the player's tickets |
| CardQueue.NextIdx | models/card_queue.py:26-35 | one more than the player's largest `idx`, or 0 for a player without tickets |
| CardQueue.QueuedValid | models/card_queue.py:22-42 | appending at the next `idx` keeps instance tickets unique and each player's tickets in FIFO order |
| CardQueue.Dequeued | models/card_queue.py:44-49 | the table keeps its length |
| CardQueue.DequeuedChanges | models/card_queue.py:44-49 | only the instance's tickets are switched off and nothing else changes |
| CardQueue.DequeueIdempotent | models/card_queue.py:44-49 | dequeueing twice is dequeueing once |
| CardQueue.DequeuedValid | models/card_queue.py:44-49 | dequeueing keeps uniqueness and FIFO order |
| CardQueue.MarkedAsFake | models/card_queue.py:51-53 | the intended `mark_as_fake` keeps the table's length |
| CardQueue.MarkedAsFakeChanges | models/card_queue.py:51-53 | no ticket of an instance of the card stays active, and the others are unchanged |
| CardQueue.MarkedIsDequeued | models/card_queue.py:44-60 | marking a card with one instance is dequeueing that instance |
| CardQueue.MarkAsFakeLeavesActive | models/card_queue.py:54-60 | as written, an active ticket of the card stays active where the intended version switches it off |
| CardQueue.TicketTable.Queue | models/card_queue.py:22-42 | a ticket at the player's next `idx` is appended, active; an instance that already has a ticket is refused with IntegrityError |
| CardQueue.TicketTable.Dequeue | models/card_queue.py:44-49 | the table becomes `Dequeued` |
| CardQueue.TicketTable.MarkAsFake | models/card_queue.py:51-60 | as written, the table does not change |
| CardQueue.TicketTable.MarkAsFakeIntended | models/card_queue.py:51-53 | the table becomes `MarkedAsFake` |
| Players.BiasIndices | models/player.py:37-41 | the positions of the instances that count |
| Players.BiasIndicesMembers | models/player.py:37-41 | a position is in the set exactly when it is the player's passed instance of a card biased against the colour |
| Players.BiasIsCount | models/player.py:33-42 | the bias is the number of those instances |
| Players.BiasBounded | models/player.py:33-42 | the bias is at most the player's number of instances |
| Players.HoldingIgnored | models/player.py:33-53 | giving a held instance another card changes neither bias nor affinity |
| Players.AffinityStep | models/player.py:44-53 | passing an instance on adds its card's affinity count to the sender's affinity |
| Players.AffinityPrefix | models/player.py:44-53 | over a prefix, a pass changes the affinity only through the instance passed from |
| Players.CountsAfterPass | models/player.py:33-53 | after a pass, exactly the instance it came from starts to count |
| Players.Bias | models/player.py:33-42 | the loop computes `BiasOf` over all instances |
| Players.Affinity | models/player.py:44-53 | the loop computes `AffinityOf`, which fails with TypeError once a counted card has no affinity count |
| Players.AffinityErrStays | models/player.py:52 | once the sum has failed it stays failed |
| Scores.BiasUpdated | models/score.py:20-23 | the table keeps its length |
| Scores.AffinityUpdated | models/score.py:26-29 | the table keeps its length |
| Scores.BiasUpdateChanges | models/score.py:20-23 | exactly the rows biased against the colour move by `inc` and nothing else changes |
| Scores.AffinityUpdateChanges | models/score.py:26-29 | exactly the rows towards the topic move by `inc` and nothing else changes |
| Scores.BiasUpdatesCompose | models/score.py:20-23 | two updates are one update by their sum |
| Scores.AffinityUpdatesCompose | models/score.py:26-29 | two updates are one update by their sum |
| Scores.UpdatesCommute | models/score.py:20-29 | a bias update and an affinity update commute |
| Scores.CountsGoNegative | models/score.py:20-23 | no count is clamped at zero |
| Scores.ScoreTable.Create | models/score.py:12-18 | a row is appended with counts and clout 0 |
| Scores.ScoreTable.UpdateBias | models/score.py:20-23 | the table becomes `BiasUpdated` |
| Scores.ScoreTable.UpdateAffinity | models/score.py:26-29 | the table becomes `AffinityUpdated` |
| Encyclopedia.Render | models/encyclopedia.py:45-60 | always title, content, type and author; the fake fields exactly when the article is marked fake and all three fake fields are non-empty |
| Encyclopedia.RenderIgnoresFakeFields | models/encyclopedia.py:45-60 | an article not marked fake renders the same whatever its fake fields hold |
| Encyclopedia.RenderNeedsWholeFake | models/encyclopedia.py:47 | a marked article with an empty fake field renders as the true one |
| Encyclopedia.FirstMatch | models/encyclopedia.py:32-37 | the first card of the game whose title contains the stripped title, ignoring case |
| Encyclopedia.TitleOf | models/encyclopedia.py:30-35 | a dict's string title; TypeError for a non-dict, KeyError without "title" |
| Encyclopedia.WithCard | models/encyclopedia.py:40 | the record with "card_id" set, other values kept |
| Encyclopedia.LinkedAfter | models/encyclopedia.py:28-41 | the accumulated list only grows, by at most one entry per record |
| Encyclopedia.Linked | models/encyclopedia.py:29-41 | every matched record appears with its card id, and every entry comes from a record |
| Encyclopedia.LinkedAfterIsLinked | models/encyclopedia.py:28-41 | the loop fails exactly when some title cannot be read, and otherwise gives `Linked` |
| Encyclopedia.LinkRecords | models/encyclopedia.py:28-41 | the loop computes `LinkedAfter` with the record itself appended |
| Encyclopedia.LinkRecordsAsWritten | models/encyclopedia.py:28-41 | as written, `new_` holds the builtin `dict` once per matched record and nothing of the records |
| Encyclopedia.ImportArticles | models/encyclopedia.py:18-43 | TypeError without defaults, KeyError without "game_id"; otherwise one row per matched record with the defaults |
| Encyclopedia.ImportArticlesAsWritten | models/encyclopedia.py:18-43 | the title loop as written, then the base import's loop run on `new_`, with the `json_dict=` keyword set aside: no row is ever created, a title error is passed on, and after the loop the import fails with TypeError exactly when some record matched |
| Encyclopedia.ArticleImportCounterexample | models/encyclopedia.py:41 | one matching article: the intended import links it to card 0, the written one fails |
| Messages.CheckedFromIff | models/messages.py:28-29 | the loop passes exactly when every receiver is an option, and otherwise fails with AssertionError |
| Messages.CheckedIff | models/messages.py:24-31 | construction succeeds exactly when the list is given and holds only options; the default `None` gives TypeError |
| Messages.DeclaredListsValid | models/messages.py:18-147 | `TO_ANY` and every receiver list the module declares pass |
| Messages.CheckReceivers | models/messages.py:28-29 | the loop computes `Checked` |
| Messages.NewOutgoing | models/messages.py:24-31 | fresh message with the given fields exactly when the receivers pass; otherwise their error |
| Messages.OutgoingMessage.constructor | models/messages.py:24-31 | the fields stored as given |
| Messages.IncomingMessage.constructor | models/messages.py:9-12 | the fields stored as given, `reply` being the list of outgoing messages the event may be answered with |
| Messages.IncomingMessage.WithoutReply | models/messages.py:9-12 | `reply` defaults to None |
| ModelUtils.Digits | models/utils.py:6 | a zero-padded decimal of the given width |
| ModelUtils.ReadDigitsInverts | models/utils.py:6 | reading the digits back gives the number |
| ModelUtils.FormatDate | models/utils.py:23 | `DATE_FORMAT` output has 20 characters, the year written with four digits |
| ModelUtils.DateRoundTrip | models/utils.py:6-23 | parsing a formatted date gives the date without microseconds |
| ModelUtils.ConvertedIsSerialised | models/utils.py:9-30 | no date is left where `model_to_dict` would replace one |
| ModelUtils.SerialisedIsFixpoint | models/utils.py:9-30 | a value with no date left is not changed |
| ModelUtils.ConvertedIdempotent | models/utils.py:9-30 | `model_to_dict` applied twice is applied once |
| ModelUtils.ModelToDict | models/utils.py:9-30 | non-dicts are returned as they are; a dict keeps its keys and every field is converted |
| ModelUtils.ListToDicts | models/utils.py:26-29 | each element is converted, in order |
| Runner.IdleInvokesNobody | main_loop/base.py:29-34 | a scan invokes nobody exactly when no player has a queued instance |
| Runner.ScanActionsFromQueue | main_loop/base.py:29-33 | a scan invokes exactly the players with a queued instance, with that instance |
| Runner.DrainLength | main_loop/base.py:25-34 | the round ends at the first idle scan |
| Runner.RoundEndsIdle | main_loop/base.py:25-34 | the last scan of a round invokes nobody |
| Runner.RepeatOrder | main_loop/base.py:41-43 | the draws of the passes follow the player order |
| Runner.FinalRoundsFirst | main_loop/base.py:40-44 | the loop stops at the first round count past the last round, in whole passes |
| Runner.GameRunner.constructor | main_loop/base.py:9-13 | the game's round count and players, with empty logs |
| Runner.GameRunner.InvokePlayerAction | main_loop/base.py:15-19 | the call is recorded and nothing else changes |
| Runner.GameRunner.Exit | main_loop/base.py:36-38 | the call is recorded and nothing else changes |
| Runner.GameRunner.ScanOnce | main_loop/base.py:29-34 | one scan invokes the queued players and reports whether it was idle |
| Runner.GameRunner.DoRound | main_loop/base.py:21-34 | one draw; a draw that raises ends the round with its error before any scan, otherwise scans run until the first idle one, with all their calls |
| Runner.GameRunner.Pass | main_loop/base.py:42-45 | each player draws in order, one round each; a raising draw stops the pass at its round, which is not counted |
| Runner.GameRunner.RunPasses | main_loop/base.py:41-45 | passes while active: on leaving, the final round count, the draws and calls of whole passes, all draws having succeeded; a raising draw stops it with that draw's error, after the successful rounds before it |
| Runner.GameRunner.Loop | main_loop/base.py:40-46 | passes while active, then `exit`: draws, calls and the final round count, all draws having succeeded; a raising draw ends the loop with that draw's error, after the rounds before it and without `exit`; without players an active game spins |
| Websocket.EnqueuedKeepsOrder | main_loop/websocket.py:90-93 | `put` keeps the queue duplicate-free and the waiting elements in order, and adds exactly `d` |
| Websocket.EnqueuedIdempotent | main_loop/websocket.py:90-93 | putting twice is putting once |
| Websocket.GetThenPut | main_loop/websocket.py:90-98 | an element taken by `get` can be put again and goes to the back |
| Websocket.UniqueQueue.constructor | main_loop/websocket.py:86-88 | an empty queue and set |
| Websocket.UniqueQueue.Put | main_loop/websocket.py:90-93 | a no-op for a waiting element; otherwise `d` joins the back and the set |
| Websocket.UniqueQueue.Get | main_loop/websocket.py:95-98 | the front element leaves the queue and the set |
| Websocket.NormalizedName | main_loop/websocket.py:313 | the stored name has no outer white space and no upper-case ASCII letter |
| Websocket.NormalizedNameIdempotent | main_loop/websocket.py:313 | normalising a stored name changes nothing |
| Websocket.NormalizedNameIgnoresCase | main_loop/websocket.py:313 | names that differ only in letter case are stored alike |
| DeckFirst.ChooseBranch | deck_generators/first.py:20-41 | bias card exactly when `bias_p <= 0.2`; fake exactly when not and `fake_p < tgb / TGB_END_SCORE`; affinity exactly when not bias and the third draw is below 0.5 |
| DeckFirst.NeverFakeWithoutBias | deck_generators/first.py:41 | no fake branch while the global bias is 0 or less |
| DeckFirst.FirstCandidate | deck_generators/first.py:25-84 | the first card of the branch's query |
| DeckFirst.FirstFallback | deck_generators/first.py:86-92 | the first undrawn card with `tgb` strictly below the global bias |
| DeckFirst.Select | deck_generators/first.py:17-92 | the selected card is undrawn; when the branch's query finds a card, the result is its first card, and only otherwise the fallback's first card; none exactly when both queries are empty |
| DeckFirst.BiasBranchResult | deck_generators/first.py:23-33 | a bias draw gives a card biased against another colour than the player's |
| DeckFirst.FallbackEmptyWithoutBias | deck_generators/first.py:86-92 | the fallback finds nothing at global bias 0 when no threshold is negative |
| DeckFirst.DrawnNeverAgain | deck_generators/first.py:25-92 | a drawn card is never selected again |
| DeckFirst.SelectIsFirst | deck_generators/first.py:32 | an eligible card after an earlier eligible one is not selected |
| DeckFirst.Draw | deck_generators/first.py:17-93 | the selected card is drawn; no card gives AttributeError and nothing changes |
| DeckAlpha.WithoutKeys | deck_generators/deck-generator-alpha.py:10-11 | the keys not in `keys`, with their values |
| DeckAlpha.WithoutNoKeys | deck_generators/deck-generator-alpha.py:10-11 | removing no key changes nothing |
| DeckAlpha.WithoutKeysTwice | deck_generators/deck-generator-alpha.py:10-11 | removing two key sets in turn removes their union |
| DeckAlpha.Filtered | deck_generators/deck-generator-alpha.py:17-23 | the cards of one side, all from the data |
| DeckAlpha.FilteredAppend | deck_generators/deck-generator-alpha.py:17-23 | the partition keeps the data's order |
| DeckAlpha.PartitionCovers | deck_generators/deck-generator-alpha.py:17-23 | the two lists together are a permutation of the data, and they are disjoint |
| DeckAlpha.Partition | deck_generators/deck-generator-alpha.py:17-23 | the loop computes the two `Filtered` lists |
| DeckAlpha.Choose | deck_generators/deck-generator-alpha.py:30-41 | an element of the list; IndexError on an empty list |
| DeckAlpha.FirstFake | deck_generators/deck-generator-alpha.py:43 | KeyError without "fakes"; the first fake of a list, IndexError when it is empty |
| DeckAlpha.Raising | deck_generators/deck-generator-alpha.py:34-45 | at most one raise per draw |
| DeckAlpha.Run | deck_generators/deck-generator-alpha.py:13-53 | stops at `tgb >= 15`; the final tgb counts the bias and fake draws and never passes 15; every printed card comes from the right list, fakes from `FirstFake` and true cards without "fakes" |
| DeckAlpha.Then | deck_generators/deck-generator-alpha.py:33-36 | the drawn card before the rest of the run |
| DeckAlpha.NoFakeWithoutBias | deck_generators/deck-generator-alpha.py:42 | the first draw of a run at `tgb <= 0` is never a fake |
| DeckAlpha.Generate | deck_generators/deck-generator-alpha.py:56 | the run from 0 ends between 0 and 15 |
| XlsToJson.IsValidCell | scripts/xls_to_json.py:37-38 | true exactly for a string that is neither blank nor "null" once stripped; AttributeError on a number that is not 0 or on NaN |
| XlsToJson.BlankTextInvalid | scripts/xls_to_json.py:37-38 | blank text and padded "null" are invalid |
| XlsToJson.NewTgb | scripts/xls_to_json.py:52-54 | a number replaces the threshold, NaN keeps it, and a string or an empty cell (None) makes `isnan` raise TypeError |
| XlsToJson.FakesFor | scripts/xls_to_json.py:69-70 | one fake exactly when its description is valid |
| XlsToJson.KindAt | scripts/xls_to_json.py:56-132 | card 0 is factual, cards 1 to 3 are bias cards, and the rest are pro and against cards of the five topics |
| XlsToJson.ExpectedCard | scripts/xls_to_json.py:56-132 | card `k` of a row: its kind, threshold, description cell and image cell; bias cards have no fakes |
| XlsToJson.RowLayoutAt | scripts/xls_to_json.py:56-132 | card `k` of the 14 cards of a row is `ExpectedCard` |
| XlsToJson.RowCardsLayout | scripts/xls_to_json.py:44-132 | a row yields cards exactly when it passes the checks, and then its 14 cards in layout order |
| XlsToJson.Iloc.Use | scripts/xls_to_json.py:46-50 | returns the counter, then increments it |
| XlsToJson.ReadCell | scripts/xls_to_json.py:52 | the cell at the counter, or IndexError past the row |
| XlsToJson.ReadFactual | scripts/xls_to_json.py:56-71 | the factual card from cells 1 to 3 |
| XlsToJson.ReadBiases | scripts/xls_to_json.py:73-85 | the bias loop gives `BiasAfter` |
| XlsToJson.ReadTopic | scripts/xls_to_json.py:95-132 | one topic's pro and against cards from six cells |
| XlsToJson.ReadTopics | scripts/xls_to_json.py:87-132 | the topic loop gives `TopicsAfter` |
| XlsToJson.ConvertRow | scripts/xls_to_json.py:42-132 | the body of the row loop gives `RowCards` |
| XlsToJson.CardsAfterIs | scripts/xls_to_json.py:41-132 | the row loop succeeds exactly when every row passes, and gives the flattened layouts |
| XlsToJson.CardAt | scripts/xls_to_json.py:41-132 | card `14r + k` of the output is card `k` of row `r` |
| XlsToJson.CardsAfterLayout | scripts/xls_to_json.py:41-132 | the output has 14 cards per row, card `14r + k` being `ExpectedCard` of row `r` with the threshold carried down to it |
| XlsToJson.Convert | scripts/xls_to_json.py:33-132 | the script skips the first row and starts without a threshold |
| LoadArticles.GetIloc | scripts/load_articles.py:28-32 | the cell, or "" past the end of the row |
| LoadArticles.GetIlocCatchesIndexError | scripts/load_articles.py:28-32 | `row.iloc` with its IndexError caught |
| LoadArticles.ArticleColumns | scripts/load_articles.py:19-47 | field `i` is read from column `i`; a row of at least 7 cells gives its first seven |
| LoadArticles.OnlyIsFakeIsRandom | scripts/load_articles.py:48 | `is_fake` is the only field the row does not decide |
| LoadArticles.Body | scripts/load_articles.py:37 | the rows after the first |
| LoadArticles.ArticlesOf | scripts/load_articles.py:37-50 | one article per row, the `n`-th from the `n`-th coin |
| LoadArticles.BodiesAppend | scripts/load_articles.py:35-37 | the rows of several sheets, sheet after sheet |
| LoadArticles.SheetsInOrder | scripts/load_articles.py:7-35 | the first sheet's rows come first |
| LoadArticles.RowArticle | scripts/load_articles.py:34-50 | row `r` of sheet `si` gives the article after those of the earlier sheets and rows |
| LoadArticles.Load | scripts/load_articles.py:7-50 | the nested loop over the ten listed sheets, in their order, computes `ArticlesOf` of their rows |
| LoadArticles.LoadRows | scripts/load_articles.py:37-50 | the row loop of one sheet adds one article per row, in row order, after the articles already read |
| Text.Strip | models/encyclopedia.py:35 | `str.strip()`: the slice with no white space at either end |
| Text.StripIdempotent | models/encyclopedia.py:35 | stripping twice is stripping once |
| Text.Lower | main_loop/websocket.py:313 | `str.lower()` on ASCII letters, character by character |
| Sheets.CellAt | scripts/xls_to_json.py:52 | `row.iloc[k]`, IndexError past the end |

## Left out

- Event handlers, Flask and Socket.IO plumbing, logging and the other
  runner methods of main_loop/websocket.py: `UniqueQueue` and the
  player-name rule are the only parts without transport.
- I/O: opening and reading JSON files, `read_ods`, printing, and writing
  `cards_data.json`. A file's contents are an input; a missing file or
  sheet is not modelled.
- Randomness: `random.uniform` and `random.choice` are inputs. A choice is
  `pick % |items|` and a coin is a function `nat -> bool`. The constant
  0.2 is a `real`, not a binary float.
- UUID primary keys: ids are table positions.
- Database behaviour beyond row lists: peewee's NOT NULL checks on unset
  columns, foreign-key enforcement, transactions and query ordering. The
  order of a `.first()` is the table order.
- `Card.tgb`: the card model declares no such column, though the
  generators filter on it. The model gives cards an optional `tgb`, and in
  SQL a card without one matches no comparison.
- `Cards.CardTables.Draw`: models/card.py:73 calls
  `player.event_receive_card(card_instance)`, which the `Player` model of
  models/player.py does not define (as written it raises AttributeError
  after both saves). Its callee is not part of this model, so its
  effect, apparently queueing the instance for the player, is not
  modelled; `DeckFirst.Draw` and `Runner.GameRunner.DoRound` draw
  through it and inherit this.
- `Games.GameTables.New`: models/base.py:87 passes `cards_filepath`
  positionally, so as written it lands in `json_dict`, the loop at
  models/card.py:83 runs over the path's characters and `obj.pop`
  raises AttributeError after the game, colours, topics and players
  exist. The model passes the path as `json_path`: the file's records
  are imported.
- `CardImport.ImportCards`: models/card.py:88 and :93 pass `json_dict=`,
  a keyword that models/base.py:26 does not take (TypeError as
  written), and models/base.py:26-35 returns None, so `enumerate` at
  models/card.py:89 would raise TypeError. The model gives the base
  import the records and takes back the created rows' ids.
- `Encyclopedia.ImportArticlesAsWritten`: models/encyclopedia.py:43 also
  passes `json_dict=`, so as written that call raises TypeError on every
  input that reaches it, matched or not. The member sets the keyword
  aside and runs the base import's loop on `new_` to show the separate
  `new_.append(dict)` error of :41.
- `Model.import_from_json` keeps no `json_path` reading: records are
  passed in.
- Python's mutation of the caller's dicts (`pop`, `update`, item
  assignment) is modelled by value.
- Key order in dicts and JSON output.
- NaN serialisation in JSON.
- Numbers in spreadsheet cells are integers.
- `iregexp`: the title is matched as a plain substring, ignoring ASCII
  case. Regular-expression metacharacters in a title and Unicode case
  folding are not modelled.
- `Text.Lower`: lowers ASCII letters only.
- `Text.Strip`: Python's full Unicode white-space table is narrowed to the
  characters `IsSpace` lists.
- `Games.NamedAfter` is stated for fresh names only. When a name is
  already taken, `Games.GameTables.New` reports IntegrityError and names
  the partial table without describing it further.
- `Websocket.UniqueQueue.Get`: on an empty queue the source blocks until
  an element arrives; the model returns None.
- `Runner`: `get_queued_card_instance` is an input, a list of scans per
  round. The polling loop runs over those scans, so a round whose queue
  never empties is cut off after its last scan. What `draw_fn` gives is
  an input too, one result per round: the instance it returns (not
  otherwise used by the loop) or the error it raises. When those results
  run out the loop reports `Waiting`, as it does for the scans.
- `DeckAlpha.Run`: the source recurses while `tgb < 15`. Each call at
  `tgb < 15` raises `tgb` with probability at least 0.2 (the bias draw),
  so the recursion ends at 15 after some 33 calls on average; only a run
  that happened to pass Python's recursion limit would raise
  RecursionError, and that limit is not modelled. The model's run takes
  its draws from a list and stops when the list runs out. The partition is computed once
  rather than on every call; the data does not change, so the lists are
  the same.
- `DeckFirst.Draw`: `total_global_bias()` and `TGB_END_SCORE` are inputs.
  As written neither exists: constants.py defines no `TGB_END_SCORE`, so
  the import at deck_generators/first.py:15 raises ImportError, and the
  `Game` model of models/base.py has no `total_global_bias` method. The
  model draws as the module would if both were supplied.
- `CardQueue.TicketTable.MarkAsFake`: models/card_queue.py:60 passes
  `acive=` to peewee's `update`. How peewee treats a keyword that names
  no field (raising while the query is built, or ignoring it) is not
  modelled; the member takes the second reading, and under either
  reading no ticket changes.
- `ModelUtils.FormatDate`: `%Y` is taken to write every year with four
  digits, zero-padded. Below year 1000 that depends on the platform's
  `strftime`, which is not modelled.
- Colours and topics of scripts/xls_to_json.py are enums with name
  functions, not the strings themselves.
- `Messages`: receivers are strings only. `assert` on a receiver of
  another type is not modelled.
- `ModelUtils`: peewee `Model` objects, `to_dict` and `ModelSelect` are
  not modelled, since values are JSON-like. A `datetime` has no time
  zone.

## Findings

| source | as written | input that shows it | evidently intended | confidence | as-written member | corrected member |
|---|---|---|---|---|---|---|
| models/card_queue.py:60 | `cls.update(acive=False).where(...)` builds the update with a misspelt field and never calls `.execute()`, so no ticket changes (whether peewee already raises on the unknown `acive` keyword is not modelled; either way nothing changes) | one active ticket of an instance of card 7, then `mark_as_fake(7)` | every ticket of an instance of the card becomes inactive, as the docstring says | not executed | CardQueue.TicketTable.MarkAsFake, CardQueue.MarkAsFakeLeavesActive | CardQueue.TicketTable.MarkAsFakeIntended, CardQueue.MarkedAsFakeChanges |
| models/encyclopedia.py:41 | `new_.append(dict)` appends the builtin type instead of the record, so the base import's `**dict_` raises TypeError | one article titled "fake" and a card of the game titled "fake" | `new_.append(dict_)`: the matched record, with its `card_id`, is imported | not executed | Encyclopedia.ImportArticlesAsWritten, Encyclopedia.ArticleImportCounterexample | Encyclopedia.ImportArticles, Encyclopedia.LinkedAfterIsLinked |
