/** The per-player action queue of models/card_queue.py. Each ticket asks a
    player to act on one card instance; a player's tickets are served in
    `idx` order, and serving a ticket only switches it off. */
module CardQueue {
  import opened Errors
  import opened Cards

  /** One row of the queue table; `instance` is the card-instance id. */
  datatype Ticket = Ticket(idx: int, player: nat, game: nat, instance: nat, active: bool)

  /** Whether the player has a ticket, active or not. */
  predicate HasTicket(tickets: seq<Ticket>, player: nat)
  {
    exists j | 0 <= j < |tickets| :: tickets[j].player == player
  }

  /** The largest `idx` among the player's tickets. */
  function MaxIdx(tickets: seq<Ticket>, player: nat): (m: int)
    requires HasTicket(tickets, player)
    ensures forall j :: 0 <= j < |tickets| && tickets[j].player == player ==> tickets[j].idx <= m
    ensures exists j :: 0 <= j < |tickets| && tickets[j].player == player && tickets[j].idx == m
  {
    var last := tickets[|tickets| - 1];
    var prefix := tickets[..|tickets| - 1];
    assert forall j :: 0 <= j < |prefix| ==> prefix[j] == tickets[j];
    if !HasTicket(prefix, player) then
      last.idx
    else
      var m := MaxIdx(prefix, player);
      if last.player == player && last.idx > m then last.idx else m
  }

  /** The `idx` `queue` gives a new ticket of the player: one more than the
      largest `idx` of the player's tickets, or 0 for a player without any. */
  function NextIdx(tickets: seq<Ticket>, player: nat): (n: int)
    ensures forall j :: 0 <= j < |tickets| && tickets[j].player == player ==> tickets[j].idx < n
    ensures HasTicket(tickets, player) ==>
              exists j :: 0 <= j < |tickets| && tickets[j].player == player && n == tickets[j].idx + 1
    ensures !HasTicket(tickets, player) ==> n == 0
  {
    if HasTicket(tickets, player) then MaxIdx(tickets, player) + 1 else 0
  }

  /** Whether some ticket is for the given card instance. */
  predicate Ticketed(tickets: seq<Ticket>, instance: nat)
  {
    exists j | 0 <= j < |tickets| :: tickets[j].instance == instance
  }

  /** The ticket column is unique. */
  predicate UniqueInstances(tickets: seq<Ticket>)
  {
    forall i, j :: 0 <= i < |tickets| && 0 <= j < |tickets| && i != j ==>
      tickets[i].instance != tickets[j].instance
  }

  /** A player's tickets carry non-negative `idx` values that grow with
      their position in the table: FIFO order is `idx` order. */
  predicate IdxOrdered(tickets: seq<Ticket>)
  {
    && (forall i :: 0 <= i < |tickets| ==> tickets[i].idx >= 0)
    && (forall i, j :: 0 <= i < j < |tickets| && tickets[i].player == tickets[j].player ==>
          tickets[i].idx < tickets[j].idx)
  }

  /** Appending a ticket at the player's next `idx` keeps the FIFO order,
      and a ticket for an instance without one keeps the column unique. */
  lemma QueuedValid(tickets: seq<Ticket>, player: nat, game: nat, instance: nat)
    requires UniqueInstances(tickets) && IdxOrdered(tickets)
    requires !Ticketed(tickets, instance)
    ensures var ts := tickets + [Ticket(NextIdx(tickets, player), player, game, instance, true)];
            UniqueInstances(ts) && IdxOrdered(ts)
  {
    var ts := tickets + [Ticket(NextIdx(tickets, player), player, game, instance, true)];
    assert forall j :: 0 <= j < |tickets| ==> ts[j] == tickets[j];
    if HasTicket(tickets, player) {
      var j :| 0 <= j < |tickets| && tickets[j].player == player;
      assert tickets[j].idx >= 0;
    }
  }

  /** The table after `dequeue(instance)`: every ticket of the instance is
      inactive, and every other ticket is as it was. */
  function Dequeued(tickets: seq<Ticket>, instance: nat): (ts: seq<Ticket>)
    ensures |ts| == |tickets|
  {
    seq(|tickets|, j requires 0 <= j < |tickets| =>
      if tickets[j].instance == instance then tickets[j].(active := false) else tickets[j])
  }

  /** Dequeueing deletes no ticket, switches off the instance's ticket, and
      leaves every other ticket and every other field unchanged. */
  lemma DequeuedChanges(tickets: seq<Ticket>, instance: nat)
    ensures var ts := Dequeued(tickets, instance);
            && |ts| == |tickets|
            && (forall j :: 0 <= j < |ts| && tickets[j].instance == instance ==> !ts[j].active)
            && (forall j :: 0 <= j < |ts| && tickets[j].instance != instance ==> ts[j] == tickets[j])
            && (forall j :: 0 <= j < |ts| ==> ts[j].(active := tickets[j].active) == tickets[j])
  {
  }

  /** Dequeueing twice is dequeueing once. */
  lemma DequeueIdempotent(tickets: seq<Ticket>, instance: nat)
    ensures Dequeued(Dequeued(tickets, instance), instance) == Dequeued(tickets, instance)
  {
  }

  /** Dequeueing keeps the indexes and the FIFO order. */
  lemma DequeuedValid(tickets: seq<Ticket>, instance: nat)
    requires UniqueInstances(tickets) && IdxOrdered(tickets)
    ensures UniqueInstances(Dequeued(tickets, instance)) && IdxOrdered(Dequeued(tickets, instance))
  {
  }

  /** Whether the ticket is for an instance of `card`. */
  predicate OfCard(t: Ticket, instances: seq<CardInstance>, card: nat)
  {
    t.instance < |instances| && instances[t.instance].card == card
  }

  /** The table after the evidently intended `mark_as_fake(card)`: every
      ticket for an instance of `card` is inactive. A ticket whose instance
      is not in `instances` is left alone, as the join drops it. */
  function MarkedAsFake(tickets: seq<Ticket>, instances: seq<CardInstance>, card: nat): (ts: seq<Ticket>)
    ensures |ts| == |tickets|
  {
    seq(|tickets|, j requires 0 <= j < |tickets| =>
      if OfCard(tickets[j], instances, card) then tickets[j].(active := false) else tickets[j])
  }

  /** After marking, no ticket for an instance of the card is active, and
      the tickets of other cards are unchanged. */
  lemma MarkedAsFakeChanges(tickets: seq<Ticket>, instances: seq<CardInstance>, card: nat)
    ensures var ts := MarkedAsFake(tickets, instances, card);
            && (forall j :: 0 <= j < |ts| && OfCard(tickets[j], instances, card) ==> !ts[j].active)
            && (forall j :: 0 <= j < |ts| && !OfCard(tickets[j], instances, card) ==> ts[j] == tickets[j])
  {
  }

  /** Marking a card is dequeueing each of its instances. */
  lemma MarkedIsDequeued(tickets: seq<Ticket>, instances: seq<CardInstance>, i: nat)
    requires i < |instances|
    requires forall k :: 0 <= k < |instances| && k != i ==> instances[k].card != instances[i].card
    ensures MarkedAsFake(tickets, instances, instances[i].card) == Dequeued(tickets, i)
  {
  }

  /** As written, `mark_as_fake` builds its update without executing it
      (and with a field name the table does not have), so an active ticket
      of the card stays active. */
  lemma MarkAsFakeLeavesActive()
    ensures var tickets := [Ticket(0, 0, 0, 0, true)];
            var instances := [CardInstance(7, None, 0, 0, false)];
            tickets[0].active && !MarkedAsFake(tickets, instances, 7)[0].active
  {
  }

  /** The queue table. */
  class TicketTable {
    var tickets: seq<Ticket>

    ghost predicate Valid()
      reads this
    {
      UniqueInstances(tickets) && IdxOrdered(tickets)
    }

    constructor ()
      ensures Valid() && tickets == []
    {
      tickets := [];
    }

    /** `PlayerCardQueue.queue(ci)` for the instance with id `ci`: appends
        an active ticket of the instance's player and game, at the player's
        next `idx`. An instance that already has a ticket is refused by the
        unique column and nothing changes. */
    method Queue(ci: nat, instance: CardInstance) returns (res: Result<nat>)
      requires Valid()
      modifies this
      ensures Valid()
      ensures res.Err? <==> Ticketed(old(tickets), ci)
      ensures res.Err? ==> res.error == IntegrityError && tickets == old(tickets)
      ensures res.Ok? ==> res.value == |old(tickets)|
      ensures res.Ok? ==>
                tickets == old(tickets) + [Ticket(NextIdx(old(tickets), instance.player),
                                                   instance.player, instance.game, ci, true)]
    {
      if Ticketed(tickets, ci) {
        return Err(IntegrityError);
      }
      var idx := NextIdx(tickets, instance.player);
      var t := Ticket(idx, instance.player, instance.game, ci, true);
      var before := tickets;
      QueuedValid(tickets, instance.player, instance.game, ci);
      tickets := tickets + [t];
      res := Ok(|before|);
    }

    /** `PlayerCardQueue.dequeue(ci)`: the instance's active ticket becomes
        inactive. */
    method Dequeue(ci: nat)
      requires Valid()
      modifies this
      ensures Valid()
      ensures tickets == Dequeued(old(tickets), ci)
    {
      DequeuedValid(tickets, ci);
      tickets := Dequeued(tickets, ci);
    }

    /** `PlayerCardQueue.mark_as_fake(card)` as written: the ids of the
        card's tickets are collected but the update is never executed, so
        no ticket changes. */
    method MarkAsFake(instances: seq<CardInstance>, card: nat)
      requires Valid()
      modifies this
      ensures Valid()
      ensures tickets == old(tickets)
    {
    }

    /** `mark_as_fake` as its documentation intends it: every ticket of an
        instance of `card` is dequeued. */
    method MarkAsFakeIntended(instances: seq<CardInstance>, card: nat)
      requires Valid()
      modifies this
      ensures Valid()
      ensures tickets == MarkedAsFake(old(tickets), instances, card)
    {
      tickets := MarkedAsFake(tickets, instances, card);
    }
  }
}
