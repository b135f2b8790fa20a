/** The doubly linked list of src/linked_list.c, whose links are part of the items themselves. */
module LinkedList {

  /** LT_SYSLOG, LT_CONSOLE and LT_FILE of src/logging.c. */
  datatype LogKind = Syslog | Console | File

  datatype Location = AtHead | AtTail

  /** An entry of the list of log outputs; the first three fields are its linkage. */
  class Item {
    var prev: Item?
    var next: Item?
    var list: List?
    const kind: LogKind
    const filename: string
    var aborted: bool

    constructor (k: LogKind, name: string)
      ensures list == null && kind == k && filename == name && !aborted
    {
      prev, next, list := null, null, null;
      kind, filename, aborted := k, name, false;
    }
  }

  /** The neighbour at position k of a list, if there is one. */
  ghost function At(s: seq<Item>, k: int): Item? {
    if 0 <= k < |s| then s[k] else null
  }

  ghost predicate Apart(s: seq<Item>, j: int, k: int) {
    0 <= j < |s| && 0 <= k < |s| && j != k ==> s[j] != s[k]
  }

  ghost predicate NoRepeats(s: seq<Item>) {
    forall j, k :: Apart(s, j, k)
  }

  /** Item k is linked to its neighbours and to its list. */
  ghost predicate LinkedAt(s: seq<Item>, l: List, k: int)
    reads s`prev, s`next, s`list
  {
    0 <= k < |s| ==> s[k].prev == At(s, k - 1) && s[k].next == At(s, k + 1) && s[k].list == l
  }

  class List {
    var head: Item?
    var tail: Item?
    ghost var items: seq<Item>

    /** Links, owner fields and ends all say that the list is `items`. */
    ghost predicate Valid()
      reads this, items`prev, items`next, items`list
    {
      && NoRepeats(items)
      && head == At(items, 0) && tail == At(items, |items| - 1)
      && (forall k :: LinkedAt(items, this, k))
    }

    constructor ()
      ensures Valid() && items == []
    {
      head, tail, items := null, null, [];
    }

    /** LinkedListAdd. */
    method Add(item: Item, location: Location)
      requires Valid() && item !in items
      modifies this, items`prev, items`next, item`prev, item`next, item`list
      ensures Valid()
      ensures items == if location == AtHead then [item] + old(items) else old(items) + [item]
    {
      ghost var before := items;
      LinkIn(item, location);
      items := if location == AtHead then [item] + items else items + [item];
      forall k ensures ListedAt(before, this, k) {
        assert old(LinkedAt(before, this, k));
      }
      ExtendedLinks(before, items, item, location, this);
    }

    /** Makes the end of the list that is meant, and the item, know each other. */
    method LinkIn(item: Item, location: Location)
      requires Valid() && item !in items
      modifies this`head, this`tail, items`prev, items`next, item`prev, item`next, item`list
      ensures item.list == this
      ensures item.prev == (if location == AtHead then null else At(items, |items| - 1))
      ensures item.next == (if location == AtHead then At(items, 0) else null)
      ensures head == (if location == AtHead || |items| == 0 then item else items[0])
      ensures tail == (if location == AtTail || |items| == 0 then item else items[|items| - 1])
      ensures forall k :: ExtendedAt(items, item, location, k)
    {
      item.list := this;
      if location == AtHead {
        item.prev := null;
        item.next := head;
        head := item;
      } else {
        item.prev := tail;
        item.next := null;
        tail := item;
      }
      if item.next != null {
        item.next.prev := item;
      }
      if item.prev != null {
        item.prev.next := item;
      }
      if head == null {
        head := item;
      }
      if tail == null {
        tail := item;
      }
      forall k ensures ExtendedAt(items, item, location, k) {
        assert old(LinkedAt(items, this, k));
        assert Apart(items, k, 0) && Apart(items, k, |items| - 1);
      }
    }

    /** LinkedListRemove: takes the item out, unless it is not on this list. `at` is where it was. */
    method Remove(item: Item) returns (ghost at: int)
      requires Valid() && (item.list == this ==> item in items)
      modifies this, items`prev, items`next, item`list
      ensures Valid()
      ensures old(item.list) != this ==> at == -1 && unchanged(this) && unchanged(item) && unchanged(old(items))
      ensures old(item.list) == this ==> 0 <= at < |old(items)| && old(items)[at] == item && item.list == null
      ensures old(item.list) == this ==> items == old(items)[..at] + old(items)[at + 1..]
    {
      if item.list != this {
        return -1;
      }
      ghost var before := items;
      at :| 0 <= at < |items| && items[at] == item;
      Unlink(item, at);
      item.list := null;
      items := items[..at] + items[at + 1..];
      forall k | k != at ensures ListedAt(before, this, k) {
        assert old(LinkedAt(before, this, k)) && Apart(before, k, at);
      }
      BypassedLinks(before, items, at, this);
    }

    /** Makes the neighbours of an item, or the ends of the list, pass it by. */
    method Unlink(item: Item, ghost at: int)
      requires Valid() && 0 <= at < |items| && items[at] == item
      modifies this`head, this`tail, items`prev, items`next
      ensures head == At(items, if at == 0 then 1 else 0)
      ensures tail == At(items, if at == |items| - 1 then at - 1 else |items| - 1)
      ensures forall k :: BypassedAt(items, at, k)
    {
      assert LinkedAt(items, this, at) && LinkedAt(items, this, at - 1) && LinkedAt(items, this, at + 1);
      assert Apart(items, at - 1, at) && Apart(items, at, at + 1) && Apart(items, at - 1, at + 1);
      assert Apart(items, 0, at) && Apart(items, |items| - 1, at);
      if item.prev != null {
        item.prev.next := item.next;
      }
      if item.next != null {
        item.next.prev := item.prev;
      }
      if head == item {
        head := item.next;
      }
      if tail == item {
        tail := item.prev;
      }
      forall k ensures BypassedAt(items, at, k) {
        assert old(LinkedAt(items, this, k));
        assert Apart(items, k, at) && Apart(items, k, at - 1) && Apart(items, k, at + 1);
      }
    }
  }

  /** Item k is linked to its neighbours, the new item being one of them at its end of the list. */
  ghost predicate ExtendedAt(s: seq<Item>, item: Item, location: Location, k: int)
    reads s`prev, s`next
  {
    0 <= k < |s| ==>
      && s[k].prev == (if k == 0 && location == AtHead then item else At(s, k - 1))
      && s[k].next == (if k == |s| - 1 && location == AtTail then item else At(s, k + 1))
  }

  /** Item k is linked to its neighbours among the items other than the one at `at`. */
  ghost predicate BypassedAt(s: seq<Item>, at: int, k: int)
    reads s`prev, s`next
  {
    0 <= k < |s| && k != at ==>
      && s[k].prev == At(s, if k - 1 == at then k - 2 else k - 1)
      && s[k].next == At(s, if k + 1 == at then k + 2 else k + 1)
  }

  ghost predicate ListedAt(s: seq<Item>, l: List, k: int)
    reads s`list
  {
    0 <= k < |s| ==> s[k].list == l
  }

  lemma ExtendedLinks(before: seq<Item>, after: seq<Item>, item: Item, location: Location, l: List)
    requires after == (if location == AtHead then [item] + before else before + [item]) && item !in before
    requires NoRepeats(before)
    requires item.list == l && item.prev == (if location == AtHead then null else At(before, |before| - 1))
    requires item.next == (if location == AtHead then At(before, 0) else null)
    requires forall k :: ExtendedAt(before, item, location, k)
    requires forall k :: ListedAt(before, l, k)
    ensures NoRepeats(after) && forall k :: LinkedAt(after, l, k)
  {
    var shift := if location == AtHead then 1 else 0;
    assert forall k | 0 <= k < |before| :: after[k + shift] == before[k];
    forall k ensures LinkedAt(after, l, k) {
      assert ExtendedAt(before, item, location, k - shift) && ListedAt(before, l, k - shift);
    }
    forall j, k ensures Apart(after, j, k) {
      assert Apart(before, j - shift, k - shift);
    }
  }

  lemma BypassedLinks(before: seq<Item>, after: seq<Item>, at: nat, l: List)
    requires at < |before| && after == before[..at] + before[at + 1..] && NoRepeats(before)
    requires forall k :: BypassedAt(before, at, k)
    requires forall k | k != at :: ListedAt(before, l, k)
    ensures NoRepeats(after) && forall k :: LinkedAt(after, l, k)
  {
    assert forall j | 0 <= j < |after| :: after[j] == before[Skip(at, j)];
    forall k ensures LinkedAt(after, l, k) {
      assert BypassedAt(before, at, Skip(at, k)) && ListedAt(before, l, Skip(at, k));
    }
    forall j, k ensures Apart(after, j, k) {
      assert Apart(before, Skip(at, j), Skip(at, k));
    }
  }

  /** Where item j of a list comes from when item k is left out. */
  ghost function Skip(k: int, j: int): int {
    if j < k then j else j + 1
  }
}
