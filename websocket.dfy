/** The two pieces of main_loop/websocket.py that are not transport: the
    `UniqueQueue` of a player's pending actions, a FIFO queue that ignores
    an element already waiting in it, and the normalisation of a player's
    name when a client claims the player. */
module Websocket {
  import opened Errors
  import opened Text

  /** No element occurs twice. */
  predicate NoDuplicates<T(==)>(s: seq<T>)
  {
    forall i, j :: 0 <= i < j < |s| ==> s[i] != s[j]
  }

  /** The queue's contents after `put(d)`: unchanged when `d` is already
      waiting, and `d` at the back otherwise. */
  function Enqueued<T(==)>(items: seq<T>, d: T): (r: seq<T>)
  {
    if d in items then items else items + [d]
  }

  /** `put` keeps the queue free of duplicates, keeps every waiting element
      in its place, and afterwards `d` is waiting. */
  lemma EnqueuedKeepsOrder<T>(items: seq<T>, d: T)
    requires NoDuplicates(items)
    ensures NoDuplicates(Enqueued(items, d))
    ensures Enqueued(items, d)[..|items|] == items
    ensures d in Enqueued(items, d)
    ensures forall x :: x in Enqueued(items, d) <==> x in items || x == d
  {
    if d !in items {
      assert (items + [d])[..|items|] == items;
    } else {
      assert items[..|items|] == items;
    }
  }

  /** Putting an element twice is putting it once. */
  lemma EnqueuedIdempotent<T>(items: seq<T>, d: T)
    ensures Enqueued(Enqueued(items, d), d) == Enqueued(items, d)
  {
    assert d in Enqueued(items, d) by {
      if d !in items {
        assert (items + [d])[|items|] == d;
      }
    }
  }

  /** Once `get` has taken `x` from the front, `x` is no longer waiting, so
      a later `put(x)` queues it again, at the back. */
  lemma GetThenPut<T>(items: seq<T>)
    requires NoDuplicates(items) && items != []
    ensures items[0] !in items[1..]
    ensures Enqueued(items[1..], items[0]) == items[1..] + [items[0]]
  {
  }

  /** `UniqueQueue`: `items` is the underlying `Queue` and `members` is
      `_set`. */
  class UniqueQueue<T(==,!new)> {
    var items: seq<T>
    var members: set<T>

    /** `_set` holds exactly the waiting elements, and none waits twice. */
    ghost predicate Valid()
      reads this
    {
      && (forall x :: x in members <==> x in items)
      && NoDuplicates(items)
    }

    constructor ()
      ensures Valid() && items == [] && members == {}
    {
      items, members := [], {};
    }

    /** `put(d)`: a no-op when `d` is waiting, otherwise `d` joins the back
        of the queue and the set. */
    method Put(d: T)
      requires Valid()
      modifies this
      ensures Valid()
      ensures items == Enqueued(old(items), d)
      ensures members == old(members) + {d}
      ensures d in old(members) ==> items == old(items) && members == old(members)
    {
      EnqueuedKeepsOrder(items, d);
      if d !in members {
        items := items + [d];
        members := members + {d};
      }
    }

    /** `get()`: the front element, which leaves the queue and the set. On
        an empty queue the source blocks until an element arrives; here the
        result is None and nothing changes. */
    method Get() returns (r: Option<T>)
      requires Valid()
      modifies this
      ensures Valid()
      ensures old(items) == [] ==> r == None && items == old(items) && members == old(members)
      ensures old(items) != [] ==>
                && r == Some(old(items)[0])
                && items == old(items)[1..]
                && members == old(members) - {old(items)[0]}
    {
      if items == [] {
        return None;
      }
      var front := items[0];
      GetThenPut(items);
      items := items[1..];
      members := members - {front};
      r := Some(front);
    }
  }

  /** The name a newly claimed player is stored under:
      `player_name.strip().lower()`. It has no white space at either end and
      no upper-case ASCII letter. */
  function NormalizedName(name: string): (r: string)
    ensures |r| <= |name|
    ensures r == [] || (!IsSpace(r[0]) && !IsSpace(r[|r| - 1]))
    ensures forall k :: 0 <= k < |r| ==> !('A' <= r[k] <= 'Z')
  {
    Lower(Strip(name))
  }

  /** A stored name is its own normal form, so normalising is idempotent. */
  lemma NormalizedNameIdempotent(name: string)
    ensures NormalizedName(NormalizedName(name)) == NormalizedName(name)
  {
    var r := NormalizedName(name);
    assert SkipSpaces(r, 0) == 0;
    assert BackSpaces(r, 0, |r|) == |r|;
    assert r[0..|r|] == r;
    assert Strip(r) == r;
    assert Lower(r) == r;
  }

  /** Names that differ only in the case of their ASCII letters are
      stored alike. */
  lemma NormalizedNameIgnoresCase(a: string, b: string)
    requires Lower(a) == Lower(b)
    ensures NormalizedName(a) == NormalizedName(b)
  {
    forall k | 0 <= k < |a| ensures IsSpace(a[k]) <==> IsSpace(b[k]) {
      LowerKeepsSpace(a[k]);
      LowerKeepsSpace(b[k]);
      assert Lower(a)[k] == Lower(b)[k];
    }
    var lo := SkipSpaces(a, 0);
    SameSkip(a, b, 0);
    SameBack(a, b, lo, |a|);
    var hi := BackSpaces(a, lo, |a|);
    LowerSlice(a, lo, hi);
    LowerSlice(b, lo, hi);
  }

  /** Lowering a character never makes or unmakes white space. */
  lemma LowerKeepsSpace(c: char)
    ensures IsSpace(LowerChar(c)) <==> IsSpace(c)
  {
  }

  lemma {:induction false} SameSkip(a: string, b: string, i: nat)
    requires |a| == |b| && i <= |a|
    requires forall k :: 0 <= k < |a| ==> (IsSpace(a[k]) <==> IsSpace(b[k]))
    ensures SkipSpaces(a, i) == SkipSpaces(b, i)
    decreases |a| - i
  {
    if i < |a| && IsSpace(a[i]) {
      SameSkip(a, b, i + 1);
    }
  }

  lemma {:induction false} SameBack(a: string, b: string, lo: nat, j: nat)
    requires |a| == |b| && lo <= j <= |a|
    requires forall k :: 0 <= k < |a| ==> (IsSpace(a[k]) <==> IsSpace(b[k]))
    ensures BackSpaces(a, lo, j) == BackSpaces(b, lo, j)
  {
    if j > lo && IsSpace(a[j - 1]) {
      SameBack(a, b, lo, j - 1);
    }
  }

  lemma LowerSlice(s: string, lo: nat, hi: nat)
    requires lo <= hi <= |s|
    ensures Lower(s[lo..hi]) == Lower(s)[lo..hi]
  {
  }
}
