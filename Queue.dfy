/** The part of the item queue the player reads and writes: the play order,
    the items in the order given, and the cursor. */
module Queue {
  import opened Common

  /** The mode flags of the player; the empty set is the normal mode. */
  datatype ModeFlag = Shuffle | Repeat | RepeatAll

  /** The item queue: `playOrder` is the order items are played in (shuffled
      in shuffle mode), `items` the order they were given in, and
      `nextPosition` the position in `playOrder` of the next item. */
  datatype ItemQueue = ItemQueue(playOrder: seq<Item>, items: seq<Item>, nextPosition: nat)

  /** Both orders hold the same items and the cursor stays within the play
      order. */
  predicate Valid(q: ItemQueue) {
    && q.nextPosition <= |q.playOrder|
    && |q.items| == |q.playOrder|
    && multiset(q.playOrder) == multiset(q.items)
  }

  /** The play order of a new queue: the given order, or the permutation the
      queue draws in shuffle mode. */
  function PlayOrder(items: seq<Item>, shuffled: seq<Item>, mode: set<ModeFlag>): (r: seq<Item>)
    requires Shuffle in mode ==> multiset(shuffled) == multiset(items)
    ensures multiset(r) == multiset(items)
    ensures Shuffle !in mode ==> r == items
  {
    if Shuffle in mode then shuffled else items
  }

  function NewQueue(items: seq<Item>, playOrder: seq<Item>): (q: ItemQueue)
    requires multiset(playOrder) == multiset(items)
    ensures Valid(q) && q.items == items && q.playOrder == playOrder && q.nextPosition == 0
  {
    assert |playOrder| == |multiset(playOrder)| == |multiset(items)| == |items|;
    ItemQueue(playOrder, items, 0)
  }

  predicate HasNextItem(q: ItemQueue) {
    q.nextPosition < |q.playOrder|
  }

  predicate HasPreviousItem(q: ItemQueue) {
    q.nextPosition > 1
  }

  /** Hands out the item at the cursor and advances the cursor past it. */
  function NextItem(q: ItemQueue): (r: (Option<Item>, ItemQueue))
    requires Valid(q)
    ensures Valid(r.1)
    ensures r.0.Some? <==> HasNextItem(q)
    ensures HasNextItem(q) ==>
              r.0.value == q.playOrder[q.nextPosition] && r.1 == q.(nextPosition := q.nextPosition + 1)
    ensures !HasNextItem(q) ==> r.1 == q
  {
    if q.nextPosition < |q.playOrder| then
      (Some(q.playOrder[q.nextPosition]), q.(nextPosition := q.nextPosition + 1))
    else
      (None, q)
  }

  /** The index of the first occurrence of `x` in `s`. */
  function FirstIndex(s: seq<Item>, x: Item): (r: Option<nat>)
    ensures r.None? <==> x !in s
    ensures r.Some? ==> r.value < |s| && s[r.value] == x
                        && forall j :: 0 <= j < r.value ==> s[j] != x
    decreases |s|
  {
    if s == [] then None
    else if s[0] == x then Some(0)
    else
      match FirstIndex(s[1..], x)
      case None => None
      case Some(i) => Some(i + 1)
  }

  /** Appends items to both orders; the cursor stays where it is. */
  function Append(q: ItemQueue, more: seq<Item>): (r: ItemQueue)
    requires Valid(q)
    ensures Valid(r)
    ensures r.playOrder == q.playOrder + more && r.items == q.items + more
    ensures r.nextPosition == q.nextPosition
    ensures HasNextItem(q) ==> HasNextItem(r) && r.playOrder[r.nextPosition] == q.playOrder[q.nextPosition]
  {
    ItemQueue(q.playOrder + more, q.items + more, q.nextPosition)
  }

  /** `s` without the first occurrence of `x`. */
  function RemoveFirst(s: seq<Item>, x: Item): (r: seq<Item>)
    ensures x in s ==> multiset(r) == multiset(s) - multiset{x}
    ensures x !in s ==> r == s
    decreases |s|
  {
    if s == [] then []
    else if s[0] == x then
      assert s == [s[0]] + s[1..];
      s[1..]
    else
      assert s == [s[0]] + s[1..];
      [s[0]] + RemoveFirst(s[1..], x)
  }

  /** Removes the item at `index` of the play order (and its first occurrence
      among the given items); a cursor past the index moves back with it. */
  function RemoveAt(q: ItemQueue, index: nat): (r: ItemQueue)
    requires Valid(q) && index < |q.playOrder|
    ensures Valid(r)
    ensures r.playOrder == q.playOrder[..index] + q.playOrder[index + 1..]
    ensures multiset(r.items) == multiset(q.items) - multiset{q.playOrder[index]}
    ensures r.nextPosition == if index < q.nextPosition then q.nextPosition - 1 else q.nextPosition
    ensures |r.playOrder| == |q.playOrder| - 1
    ensures HasNextItem(q) && index != q.nextPosition ==>
              HasNextItem(r) && r.playOrder[r.nextPosition] == q.playOrder[q.nextPosition]
  {
    var x := q.playOrder[index];
    var order := q.playOrder[..index] + q.playOrder[index + 1..];
    RemoveIndexMultiset(q.playOrder, index);
    RemoveIndexKeepsOthers(q.playOrder, index, q.nextPosition);
    assert x in multiset(q.items);
    assert |RemoveFirst(q.items, x)| == |multiset(RemoveFirst(q.items, x))| == |q.items| - 1;
    ItemQueue(order, RemoveFirst(q.items, x),
              if index < q.nextPosition then q.nextPosition - 1 else q.nextPosition)
  }

  /** Cutting out the element at `index` moves every later element one
      position back and leaves the earlier ones in place. */
  lemma RemoveIndexKeepsOthers(s: seq<Item>, index: nat, j: nat)
    requires index < |s|
    ensures j < |s| && j != index ==>
              var k := if j < index then j else j - 1;
              k < |s| - 1 && (s[..index] + s[index + 1..])[k] == s[j]
  {
  }

  /** Cutting out the element at `index` removes one copy of it. */
  lemma RemoveIndexMultiset(s: seq<Item>, index: nat)
    requires index < |s|
    ensures multiset(s[..index] + s[index + 1..]) == multiset(s) - multiset{s[index]}
  {
    assert s == s[..index] + [s[index]] + s[index + 1..];
  }

  /** Some item offers `u` as one of its sound URLs. */
  predicate OffersUrl(items: seq<Item>, u: Url) {
    exists i :: 0 <= i < |items| && u in items[i].soundURLs.Values
  }

  /** The sound URLs of the given items, item by item. */
  function PlaylistUrls(items: seq<Item>): set<Url>
    decreases |items|
  {
    if items == [] then {} else items[0].soundURLs.Values + PlaylistUrls(items[1..])
  }

  /** A URL is among the playlist's URLs exactly when some item offers it. */
  lemma {:induction false} PlaylistUrlsAreOffered(items: seq<Item>, u: Url)
    ensures u in PlaylistUrls(items) <==> OffersUrl(items, u)
    decreases |items|
  {
    if items != [] {
      PlaylistUrlsAreOffered(items[1..], u);
      if OffersUrl(items[1..], u) {
        var i :| 0 <= i < |items[1..]| && u in items[1..][i].soundURLs.Values;
        assert items[i + 1] == items[1..][i];
      }
      if OffersUrl(items, u) && u !in items[0].soundURLs.Values {
        var i :| 0 <= i < |items| && u in items[i].soundURLs.Values;
        assert items[1..][i - 1] == items[i];
      }
    }
  }

  // ---------------------------------------------------------------------
  // The start position of a new queue

  /** Placing the cursor on the first play-order position of `items[index]`
      and taking the next item yields that very item, whatever the
      permutation. */
  lemma {:induction false} StartItemIsRequested(items: seq<Item>, playOrder: seq<Item>, index: nat)
    requires multiset(playOrder) == multiset(items) && index < |items|
    ensures FirstIndex(playOrder, items[index]).Some?
    ensures var k := FirstIndex(playOrder, items[index]).value;
            NextItem(NewQueue(items, playOrder).(nextPosition := k)).0 == Some(items[index])
  {
    assert items[index] in multiset(items);
    assert items[index] in multiset(playOrder);
  }

  /** A new queue started at `items[index]`: the cursor is placed on the
      first play-order position of that item (if there is one) and the item
      there is taken. The item taken is the one requested, and the cursor
      ends just past its first play-order position. */
  function StartQueue(items: seq<Item>, playOrder: seq<Item>, index: nat): (r: (Option<Item>, ItemQueue))
    requires multiset(playOrder) == multiset(items) && index < |items|
    ensures Valid(r.1) && r.1.items == items && r.1.playOrder == playOrder
    ensures r.0 == Some(items[index])
    ensures 1 <= r.1.nextPosition && FirstIndex(playOrder, items[index]) == Some(r.1.nextPosition - 1)
  {
    var q := NewQueue(items, playOrder);
    var realIndex := FirstIndex(playOrder, items[index]);
    var placed := if realIndex.Some? then q.(nextPosition := realIndex.value) else q;
    StartItemIsRequested(items, playOrder, index);
    NextItem(placed)
  }

  /** In shuffle mode the next item to play and the item at the same index of
      the given order can differ: a queue given [a, b] and shuffled to [b, a]
      plays b first while position 0 of the given order holds a. */
  lemma OrdersCanDisagree(a: Item, b: Item)
    requires a != b
    ensures var q := NewQueue([a, b], [b, a]);
            NextItem(q).0 == Some(b) && q.items[q.nextPosition] == a
  {
    assert multiset([b, a]) == multiset([a, b]);
  }
}
