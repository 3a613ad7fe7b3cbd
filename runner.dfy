/** `GameRunner` of main_loop/base.py: the turn loop. Every pass over the
    players lets each draw one card and then waits until no player has a
    queued card instance; the round counter grows by one per draw, and the
    activity rule is checked after each full pass.

    The draw function and `invoke_player_action` are recorded in the
    runner's `draws` and `invoked` logs. What the queue answers in a scan
    (`get_queued_card_instance` for each player) is an input: a scan gives
    an optional card-instance id per player position, and a round's scans
    are listed in order. */
module Runner {
  import opened Errors
  import opened Games
  import opened Records

  /** One scan of the queue: the card instance queued for the player at each
      position, if any. */
  type Scan = seq<Option<nat>>

  /** The answer for position `k`; a position the scan does not cover has
      nothing queued. */
  function At(scan: Scan, k: nat): Option<nat>
  {
    if k < |scan| then scan[k] else None
  }

  /** The `invoke_player_action` calls of one scan over the first `k`
      players, in player order. */
  function ScanActions(players: seq<nat>, scan: Scan, k: nat): seq<(nat, nat)>
    requires k <= |players|
  {
    if k == 0 then []
    else if At(scan, k - 1).Some? then ScanActions(players, scan, k - 1) + [(players[k - 1], At(scan, k - 1).value)]
    else ScanActions(players, scan, k - 1)
  }

  /** A scan in which no player has a queued instance. */
  predicate Idle(players: seq<nat>, scan: Scan)
  {
    forall k :: 0 <= k < |players| ==> At(scan, k).None?
  }

  /** A scan invokes nobody exactly when it is idle, and then `do_round`
      stops. */
  lemma {:induction false} IdleInvokesNobody(players: seq<nat>, scan: Scan, k: nat)
    requires k <= |players|
    ensures ScanActions(players, scan, k) == [] <==> forall j :: 0 <= j < k ==> At(scan, j).None?
  {
    if k > 0 {
      IdleInvokesNobody(players, scan, k - 1);
    }
  }

  /** A busy scan invokes the action of every player with a queued
      instance: each call pairs such a player with its instance. */
  lemma {:induction false} ScanActionsFromQueue(players: seq<nat>, scan: Scan, k: nat)
    requires k <= |players|
    ensures forall a :: a in ScanActions(players, scan, k) ==>
              exists j :: 0 <= j < k && players[j] == a.0 && At(scan, j) == Some(a.1)
    ensures forall j :: 0 <= j < k && At(scan, j).Some? ==> (players[j], At(scan, j).value) in ScanActions(players, scan, k)
  {
    if k > 0 {
      ScanActionsFromQueue(players, scan, k - 1);
    }
  }

  /** The number of scans `do_round` performs: up to and including the
      first idle one, or None when none of the given scans is idle. */
  function DrainLength(players: seq<nat>, scans: seq<Scan>): (r: Option<nat>)
    ensures r.Some? ==> 0 < r.value <= |scans| && Idle(players, scans[r.value - 1])
    ensures r.Some? ==> forall s :: 0 <= s < r.value - 1 ==> !Idle(players, scans[s])
    ensures r.None? ==> forall s :: 0 <= s < |scans| ==> !Idle(players, scans[s])
  {
    if scans == [] then None
    else if Idle(players, scans[0]) then Some(1)
    else
      var rest := DrainLength(players, scans[1..]);
      assert forall s :: 1 <= s < |scans| ==> scans[s] == scans[1..][s - 1];
      if rest.None? then None else Some(rest.value + 1)
  }

  lemma {:induction false} DrainLengthAt(players: seq<nat>, scans: seq<Scan>, m: nat)
    requires m <= |scans|
    requires forall s :: 0 <= s < m ==> !Idle(players, scans[s])
    requires m < |scans| ==> Idle(players, scans[m])
    ensures DrainLength(players, scans) == if m < |scans| then Some(m + 1) else None
  {
    if m > 0 {
      DrainLengthAt(players, scans[1..], m - 1);
    }
  }

  /** The calls of the first `m` scans. */
  function DrainActions(players: seq<nat>, scans: seq<Scan>, m: nat): seq<(nat, nat)>
    requires m <= |scans|
  {
    if m == 0 then [] else DrainActions(players, scans, m - 1) + ScanActions(players, scans[m - 1], |players|)
  }

  /** The calls of one `do_round`: those of the scans it performs. */
  function RoundActions(players: seq<nat>, scans: seq<Scan>): seq<(nat, nat)>
  {
    var l := DrainLength(players, scans);
    DrainActions(players, scans, if l.Some? then l.value else |scans|)
  }

  /** The last scan of a round invokes nobody: the calls of a finished
      round are those of the busy scans before it. */
  lemma RoundEndsIdle(players: seq<nat>, scans: seq<Scan>)
    requires DrainLength(players, scans).Some?
    ensures var l := DrainLength(players, scans).value;
            RoundActions(players, scans) == DrainActions(players, scans, l - 1)
  {
    var l := DrainLength(players, scans).value;
    IdleInvokesNobody(players, scans[l - 1], |players|);
    assert ScanActions(players, scans[l - 1], |players|) == [];
  }

  /** The calls of the first `m` rounds. */
  function AllActions(players: seq<nat>, rounds: seq<seq<Scan>>, m: nat): seq<(nat, nat)>
    requires m <= |rounds|
  {
    if m == 0 then [] else AllActions(players, rounds, m - 1) + RoundActions(players, rounds[m - 1])
  }

  lemma AllActionsStep(players: seq<nat>, rounds: seq<seq<Scan>>, m: nat)
    requires m < |rounds|
    ensures AllActions(players, rounds, m + 1) == AllActions(players, rounds, m) + RoundActions(players, rounds[m])
  {
  }

  lemma PrefixStep<T>(s: seq<T>, i: nat)
    requires i < |s|
    ensures s[..i + 1] == s[..i] + [s[i]]
  {
  }

  /** The players listed `k` times. */
  function Repeat(players: seq<nat>, k: nat): (r: seq<nat>)
    ensures |r| == k * |players|
  {
    if k == 0 then [] else Repeat(players, k - 1) + players
  }

  /** Every draw of the `k` passes is by the player at the matching
      position: pass `q` draws for `players[0]`, ..., `players[n - 1]`. */
  lemma {:induction false} RepeatOrder(players: seq<nat>, k: nat, q: nat, j: nat)
    requires q < k && j < |players|
    ensures q * |players| + j < |Repeat(players, k)|
    ensures Repeat(players, k)[q * |players| + j] == players[j]
  {
    var n := |players|;
    assert (k - 1) * n == k * n - n;
    if q < k - 1 {
      RepeatOrder(players, k - 1, q, j);
      assert q * n + j < (k - 1) * n by {
        assert q * n <= (k - 2) * n;
      }
    } else {
      assert q * n == |Repeat(players, k - 1)|;
    }
  }

  /** The number of full passes `loop` makes from `r` rounds with `n`
      players. */
  function Passes(r: int, n: nat): nat
    requires n > 0
    decreases LastRound + 1 - r
  {
    if !Active(r) then 0 else 1 + Passes(r + n, n)
  }

  /** The round counter when `loop` stops. */
  function FinalRounds(r: int, n: nat): int
    requires n > 0
    decreases LastRound + 1 - r
  {
    if !Active(r) then r else FinalRounds(r + n, n)
  }

  /** `loop` stops at the first `r + k * n` beyond the last round: the
      counter is then inactive, it is `k` passes of `n` rounds on, and one
      pass fewer would still have been active. */
  lemma {:induction false} FinalRoundsFirst(r: int, n: nat)
    requires n > 0
    ensures !Active(FinalRounds(r, n))
    ensures FinalRounds(r, n) == r + n * Passes(r, n)
    ensures Passes(r, n) > 0 ==> Active(r + n * (Passes(r, n) - 1))
    ensures Active(r) <==> Passes(r, n) > 0
    decreases LastRound + 1 - r
  {
    if Active(r) {
      FinalRoundsFirst(r + n, n);
      var k := Passes(r + n, n);
      assert n * (k + 1) == n * k + n;
      if k > 0 {
        assert n * k == n * (k - 1) + n;
      }
    }
  }

  datatype Outcome =
    | Exited            // the game became inactive and `exit` ran
    | Waiting           // the inputs ran out: a round's scans before an idle one, or the draw results
    | Spinning          // an active game without players: `loop` never ends
    | Failed(error: Error)  // a draw raised `error`, which leaves `do_round` and `loop`

  /** The first `k` draws of the loop are given and all succeeded. */
  predicate DrawsOk(drawResults: seq<Result<nat>>, k: nat)
  {
    k <= |drawResults| && forall c :: 0 <= c < k ==> drawResults[c].Ok?
  }

  lemma DrawsOkStep(drawResults: seq<Result<nat>>, k: nat)
    requires DrawsOk(drawResults, k) && k < |drawResults| && drawResults[k].Ok?
    ensures DrawsOk(drawResults, k + 1)
  {
  }

  class GameRunner {
    var rounds: int
    var players: seq<nat>
    /** The players `draw_fn` was called for, in order. */
    var draws: seq<nat>
    /** The `invoke_player_action(player, card_instance)` calls, in order. */
    var invoked: seq<(nat, nat)>
    /** The number of `exit` calls. */
    var exits: nat

    /** `GameRunner(game, draw_fn)`: the game's players, in the order the
        table lists them. */
    constructor (rounds0: int, players0: seq<nat>)
      ensures rounds == rounds0 && players == players0
      ensures draws == [] && invoked == [] && exits == 0
    {
      rounds, players := rounds0, players0;
      draws, invoked, exits := [], [], 0;
    }

    /** The base `invoke_player_action` does nothing; the call is only
        recorded. */
    method InvokePlayerAction(player: nat, ci: nat)
      modifies this
      ensures invoked == old(invoked) + [(player, ci)]
      ensures rounds == old(rounds) && players == old(players) && draws == old(draws) && exits == old(exits)
    {
      invoked := invoked + [(player, ci)];
    }

    /** The base `exit` does nothing; the call is only recorded. */
    method Exit()
      modifies this
      ensures exits == old(exits) + 1
      ensures rounds == old(rounds) && players == old(players) && draws == old(draws) && invoked == old(invoked)
    {
      exits := exits + 1;
    }

    /** One scan of the drain loop: every player with a queued instance has
        its action invoked, in player order; `done` says no one had one. */
    method ScanOnce(scan: Scan) returns (done: bool)
      modifies this
      ensures done <==> Idle(players, scan)
      ensures invoked == old(invoked) + ScanActions(players, scan, |players|)
      ensures rounds == old(rounds) && players == old(players) && draws == old(draws) && exits == old(exits)
    {
      done := true;
      var k := 0;
      while k < |players|
        invariant 0 <= k <= |players|
        invariant done <==> forall j :: 0 <= j < k ==> At(scan, j).None?
        invariant invoked == old(invoked) + ScanActions(players, scan, k)
        invariant rounds == old(rounds) && players == old(players) && draws == old(draws) && exits == old(exits)
      {
        var ci := At(scan, k);
        if ci.Some? {
          AppendAssoc(old(invoked), ScanActions(players, scan, k), [(players[k], ci.value)]);
          InvokePlayerAction(players[k], ci.value);
          done := false;
        }
        k := k + 1;
      }
    }

    /** `do_round(drawing_player)`: one draw for the player, then scans
        until one finds nobody with a queued instance. `drawn` is what
        `draw_fn` gives: a card instance, or the error it raises, which
        leaves `do_round` before any scan. Otherwise the result is the
        number of scans made, or None when the given scans ran out first
        (the source would go on waiting). */
    method DoRound(p: nat, drawn: Result<nat>, scans: seq<Scan>) returns (used: Result<Option<nat>>)
      modifies this
      ensures draws == old(draws) + [p]
      ensures drawn.Err? ==> used == Err(drawn.error) && invoked == old(invoked)
      ensures drawn.Ok? ==> used == Ok(DrainLength(players, scans))
      ensures drawn.Ok? ==> invoked == old(invoked) + RoundActions(players, scans)
      ensures rounds == old(rounds) && players == old(players) && exits == old(exits)
    {
      draws := draws + [p];
      if drawn.Err? {
        return Err(drawn.error);
      }
      var s := 0;
      while s < |scans|
        invariant 0 <= s <= |scans|
        invariant forall t :: 0 <= t < s ==> !Idle(players, scans[t])
        invariant invoked == old(invoked) + DrainActions(players, scans, s)
        invariant draws == old(draws) + [p]
        invariant rounds == old(rounds) && players == old(players) && exits == old(exits)
      {
        AppendAssoc(old(invoked), DrainActions(players, scans, s), ScanActions(players, scans[s], |players|));
        var done := ScanOnce(scans[s]);
        if done {
          DrainLengthAt(players, scans, s);
          return Ok(Some(s + 1));
        }
        s := s + 1;
      }
      DrainLengthAt(players, scans, s);
      used := Ok(None);
    }

    /** One iteration of the pass: `do_round` for the player at position
        `i`, which is round number `c` of the loop, then one more round.
        `stop` is None when the round ended; it is `Failed` when the draw
        raised, and `Waiting` when the round's scans ran out. */
    method PassRound(roundScans: seq<seq<Scan>>, drawResults: seq<Result<nat>>, c: nat, i: nat,
                     ghost base: seq<(nat, nat)>) returns (stop: Option<Outcome>)
      requires c < |roundScans| && c < |drawResults| && i < |players|
      requires invoked == base + AllActions(players, roundScans, c)
      modifies this
      ensures players == old(players) && exits == old(exits)
      ensures draws == old(draws) + [players[i]]
      ensures drawResults[c].Err? ==> stop == Some(Failed(drawResults[c].error)) && rounds == old(rounds)
      ensures drawResults[c].Ok? ==> stop == None || stop == Some(Waiting)
      ensures stop.None? ==> rounds == old(rounds) + 1
      ensures stop.None? ==> invoked == base + AllActions(players, roundScans, c + 1)
    {
      AppendAssoc(base, AllActions(players, roundScans, c), RoundActions(players, roundScans[c]));
      var used := DoRound(players[i], drawResults[c], roundScans[c]);
      if used.Err? {
        return Some(Failed(used.error));
      }
      if used.value.None? {
        return Some(Waiting);
      }
      AllActionsStep(players, roundScans, c);
      rounds := rounds + 1;
      stop := None;
    }

    /** The body of `loop`'s `while`: `do_round` for each player in order,
        each followed by one more round, from round number `calls` of the
        loop on. `stop` is None when the pass ended, and otherwise how it
        ended early: a failed draw, or inputs that ran out. */
    method Pass(roundScans: seq<seq<Scan>>, drawResults: seq<Result<nat>>, calls: nat,
                ghost base: seq<(nat, nat)>) returns (stop: Option<Outcome>)
      requires calls <= |roundScans| && DrawsOk(drawResults, calls)
      requires invoked == base + AllActions(players, roundScans, calls)
      modifies this
      ensures players == old(players) && exits == old(exits)
      ensures stop.Some? ==> stop.value == Waiting || stop.value.Failed?
      ensures stop.None? ==> calls + |players| <= |roundScans| && DrawsOk(drawResults, calls + |players|)
      ensures stop.None? ==> rounds == old(rounds) + |players|
      ensures stop.None? ==> draws == old(draws) + players
      ensures stop.None? ==> invoked == base + AllActions(players, roundScans, calls + |players|)
      ensures stop.Some? && stop.value.Failed? ==>
                var d := rounds - old(rounds);
                && 0 <= d && calls + d < |drawResults|
                && drawResults[calls + d] == Err(stop.value.error)
                && DrawsOk(drawResults, calls + d)
    {
      var n := |players|;
      var i := 0;
      while i < n
        invariant 0 <= i <= n
        invariant players == old(players) && exits == old(exits)
        invariant calls + i <= |roundScans|
        invariant DrawsOk(drawResults, calls + i)
        invariant rounds == old(rounds) + i
        invariant draws == old(draws) + players[..i]
        invariant invoked == base + AllActions(players, roundScans, calls + i)
      {
        if calls + i == |roundScans| || calls + i == |drawResults| {
          return Some(Waiting);
        }
        var r := PassRound(roundScans, drawResults, calls + i, i, base);
        if r.Some? {
          return r;
        }
        DrawsOkStep(drawResults, calls + i);
        PrefixStep(players, i);
        AppendAssoc(old(draws), players[..i], [players[i]]);
        i := i + 1;
      }
      assert players[..n] == players;
      stop := None;
    }

    /** The `while` of `loop` for a game with players: passes while the game
        is active. `stop` is None when the game became inactive, and
        otherwise how the loop ended early. */
    method RunPasses(roundScans: seq<seq<Scan>>, drawResults: seq<Result<nat>>) returns (stop: Option<Outcome>)
      requires players != []
      modifies this
      ensures players == old(players) && exits == old(exits)
      ensures stop.Some? ==> stop.value == Waiting || stop.value.Failed?
      ensures stop.Some? && stop.value.Failed? ==>
                var c := rounds - old(rounds);
                && 0 <= c < |drawResults|
                && drawResults[c] == Err(stop.value.error)
                && DrawsOk(drawResults, c)
      ensures stop.None? ==>
                var n := |players|;
                var k := Passes(old(rounds), n);
                && k * n <= |roundScans| && DrawsOk(drawResults, k * n)
                && rounds == FinalRounds(old(rounds), n)
                && draws == old(draws) + Repeat(players, k)
                && invoked == old(invoked) + AllActions(players, roundScans, k * n)
    {
      var n := |players|;
      var passes := 0;
      var calls := 0;
      while Active(rounds)
        invariant players == old(players) && exits == old(exits)
        invariant calls == passes * n && calls <= |roundScans| && DrawsOk(drawResults, calls)
        invariant rounds == old(rounds) + calls
        invariant FinalRounds(old(rounds), n) == FinalRounds(rounds, n)
        invariant Passes(old(rounds), n) == passes + Passes(rounds, n)
        invariant draws == old(draws) + Repeat(players, passes)
        invariant invoked == old(invoked) + AllActions(players, roundScans, calls)
        decreases LastRound + 1 - rounds
      {
        stop := Pass(roundScans, drawResults, calls, old(invoked));
        if stop.Some? {
          return;
        }
        AppendAssoc(old(draws), Repeat(players, passes), players);
        assert (passes + 1) * n == passes * n + n;
        passes := passes + 1;
        calls := calls + n;
      }
      stop := None;
    }

    /** `loop`: while the game is active, a pass lets every player draw in
        order, one round each; then `exit`. Round number `c` of the loop
        (counting from 0) draws `drawResults[c]` and waits on the scans
        `roundScans[c]`. A draw that raises ends the loop there: that round
        is not counted and `exit` does not run. */
    method Loop(roundScans: seq<seq<Scan>>, drawResults: seq<Result<nat>>) returns (outcome: Outcome)
      modifies this
      ensures players == old(players)
      ensures outcome == Spinning <==> players == [] && Active(old(rounds))
      ensures outcome == Spinning ==> rounds == old(rounds) && draws == old(draws) && exits == old(exits)
      ensures outcome != Exited ==> exits == old(exits)
      ensures outcome.Failed? ==>
                var c := rounds - old(rounds);
                && 0 <= c < |drawResults|
                && drawResults[c] == Err(outcome.error)
                && DrawsOk(drawResults, c)
      ensures outcome == Exited ==>
                var n := |players|;
                var k := if n == 0 then 0 else Passes(old(rounds), n);
                && k * n <= |roundScans| && DrawsOk(drawResults, k * n)
                && rounds == (if n == 0 then old(rounds) else FinalRounds(old(rounds), n))
                && draws == old(draws) + Repeat(players, k)
                && invoked == old(invoked) + AllActions(players, roundScans, k * n)
                && exits == old(exits) + 1
    {
      if players == [] {
        if Active(rounds) {
          return Spinning;
        }
        Exit();
        return Exited;
      }
      var stop := RunPasses(roundScans, drawResults);
      if stop.Some? {
        return stop.value;
      }
      Exit();
      outcome := Exited;
    }
  }
}
