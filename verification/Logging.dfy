/** The log outputs of src/logging.c: writing a line to each of them, dropping those that fail. */
module Logging {
  import opened LinkedList

  /** The items that are not in `dead`, in order. */
  function Kept(s: seq<Item>, dead: set<Item>): seq<Item> {
    if |s| == 0 then []
    else
      var last := s[|s| - 1];
      Kept(s[..|s| - 1], dead) + if last in dead then [] else [last]
  }

  /** Kept leaves the live items, each as often as it was there, in the order they were in. */
  lemma {:induction false} KeptIsFilter(s: seq<Item>, dead: set<Item>) returns (origin: seq<nat>)
    ensures |origin| == |Kept(s, dead)|
    ensures forall k | 0 <= k < |origin| :: origin[k] < |s| && s[origin[k]] == Kept(s, dead)[k] && s[origin[k]] !in dead
    ensures forall j, k | 0 <= j < k < |origin| :: origin[j] < origin[k]
    ensures forall i: nat | i < |s| && s[i] !in dead :: i in origin
  {
    if |s| == 0 {
      origin := [];
    } else {
      origin := KeptIsFilter(s[..|s| - 1], dead);
      if s[|s| - 1] !in dead { origin := origin + [|s| - 1]; }
    }
  }

  /** Removing an item that has just been added gives the list back. */
  lemma RemoveUndoesAdd(s: seq<Item>, item: Item, location: Location, at: nat)
    requires item !in s
    requires var added := if location == AtHead then [item] + s else s + [item]; at < |added| && added[at] == item
    ensures var added := if location == AtHead then [item] + s else s + [item]; added[..at] + added[at + 1..] == s
  {
    var added := if location == AtHead then [item] + s else s + [item];
    if location == AtHead {
      assert forall i | 0 < i < |added| :: added[i] in s;
    } else {
      assert forall i | 0 <= i < |s| :: added[i] in s;
    }
  }

  /** The outputs that will be dropped if the writes to `fails` fail: those given up earlier, and
      the consoles and files among `fails`. */
  ghost function Doomed(s: seq<Item>, fails: set<Item>): set<Item>
    reads s
  {
    set x | x in s && (x.aborted || (x.kind != Syslog && x in fails))
  }

  function Members(s: seq<Item>): set<Item> {
    set x | x in s
  }

  /** LogWrite: gives an output up when the write fails. */
  method LogWrite(logfile: Item, fails: set<Item>)
    modifies logfile`aborted
    ensures logfile.aborted <==> old(logfile.aborted) || logfile in fails
  {
    if !logfile.aborted {
      if logfile in fails {
        logfile.aborted := true;
      }
    }
  }

  /** LogOutputRemove: what is closed and freed is not part of the model. */
  method OutputRemove(logList: List, logfile: Item) returns (ghost at: int)
    requires logList.Valid() && logfile.list == logList && logfile in logList.items
    modifies logList, logList.items`prev, logList.items`next, logfile`list
    ensures logList.Valid() && logfile.list == null
    ensures 0 <= at < |old(logList.items)| && old(logList.items)[at] == logfile
    ensures logList.items == old(logList.items)[..at] + old(logList.items)[at + 1..]
  {
    at := logList.Remove(logfile);
  }

  /** One message goes to every output in turn. The list is edited while it is walked: each output
      is visited exactly once, and the ones that fail are gone afterwards. */
  method LogToAll(logList: List, fails: set<Item>) returns (ghost visited: seq<Item>)
    requires logList.Valid()
    modifies logList, Members(logList.items)
    ensures logList.Valid()
    ensures visited == old(logList.items)
    ensures logList.items == Kept(old(logList.items), old(Doomed(logList.items, fails)))
  {
    ghost var before := logList.items;
    ghost var dead := Doomed(before, fails);
    ghost var k := 0;
    visited := [];
    var listItem := logList.head;
    WalkStarts(logList, fails);
    while listItem != null
      invariant 0 <= k <= |before| && visited == before[..k] && listItem == At(before, k)
      invariant Walking(logList, before, fails, dead, k)
      decreases |before| - k
    {
      TakeOneMore(before, k);
      visited := visited + [listItem];
      listItem := Turn(logList, listItem, fails, before, dead, k);
      k := k + 1;
    }
    assert before[..k] == before;
  }

  lemma TakeOneMore(s: seq<Item>, k: nat)
    requires k < |s|
    ensures s[..k + 1] == s[..k] + [s[k]]
  {
  }

  /** The entries before k have been visited, of these the live ones are left, and which of the
      others will fail is foreseen. */
  ghost predicate Walking(logList: List, before: seq<Item>, fails: set<Item>, dead: set<Item>, k: int)
    reads logList, logList.items`prev, logList.items`next, logList.items`list, Members(before)`aborted
  {
    && 0 <= k <= |before|
    && logList.Valid() && logList.items == Kept(before[..k], dead) + before[k..]
    && Members(logList.items) <= Members(before) && NoRepeats(before)
    && (forall j | k <= j < |before| :: Foreseen(before[j], fails, dead))
  }

  ghost predicate Foreseen(x: Item, fails: set<Item>, dead: set<Item>)
    reads x`aborted
  {
    x in dead <==> x.aborted || (x.kind != Syslog && x in fails)
  }

  lemma WalkStarts(logList: List, fails: set<Item>)
    requires logList.Valid()
    ensures Walking(logList, logList.items, fails, Doomed(logList.items, fails), 0)
    ensures logList.head == At(logList.items, 0)
  {
  }

  /** One round of the loop. */
  method Turn(logList: List, listItem: Item, fails: set<Item>, ghost before: seq<Item>, ghost dead: set<Item>,
              ghost k: nat)
    returns (next: Item?)
    requires k < |before| && listItem == before[k] && Walking(logList, before, fails, dead, k)
    modifies logList, Members(before)`prev, Members(before)`next, Members(before)`list, listItem`aborted
    ensures Walking(logList, before, fails, dead, k + 1) && next == At(before, k + 1)
  {
    ghost var items, kept := logList.items, Kept(before[..k], dead);
    InPlace(before, items, kept, k);
    next := NextItem(logList, listItem, |kept|);
    assert Foreseen(before[k], fails, dead);
    var gone := Visit(logList, listItem, fails, |kept|, Members(before));
    KeptGrows(before, dead, k, items, logList.items);
    forall j | k + 1 <= j < |before| ensures Foreseen(before[j], fails, dead) {
      assert old(Foreseen(before[j], fails, dead)) && Apart(before, k, j);
    }
  }

  lemma KeptGrows(before: seq<Item>, dead: set<Item>, k: nat, items: seq<Item>, items': seq<Item>)
    requires k < |before| && items == Kept(before[..k], dead) + before[k..]
    requires var p := |Kept(before[..k], dead)|;
      items' == if before[k] in dead then items[..p] + items[p + 1..] else items
    ensures items' == Kept(before[..k + 1], dead) + before[k + 1..]
    ensures Members(items') <= Members(items)
  {
    assert before[..k + 1][..k] == before[..k];
  }

  lemma InPlace(before: seq<Item>, items: seq<Item>, kept: seq<Item>, k: nat)
    requires k < |before| && items == kept + before[k..]
    ensures |kept| < |items| && items[..|kept|] == kept && items[|kept| + 1..] == before[k + 1..]
    ensures At(items, |kept| + 1) == At(before, k + 1)
    ensures before[k] in before
  {
  }

  method NextItem(logList: List, item: Item, ghost p: nat) returns (next: Item?)
    requires logList.Valid() && p < |logList.items| && logList.items[p] == item
    ensures next == At(logList.items, p + 1)
  {
    assert LinkedAt(logList.items, logList, p);
    next := item.next;
  }

  /** One turn of the walk. */
  method Visit(logList: List, logfile: Item, fails: set<Item>, ghost p: nat, ghost pool: set<Item>)
    returns (gone: bool)
    requires logList.Valid() && p < |logList.items| && logList.items[p] == logfile
    requires Members(logList.items) <= pool
    modifies logList, pool`prev, pool`next, pool`list, logfile`aborted
    ensures logList.Valid()
    ensures gone <==> old(logfile.aborted) || (logfile.kind != Syslog && logfile in fails)
    ensures gone ==> logList.items == old(logList.items)[..p] + old(logList.items)[p + 1..]
    ensures !gone ==> logList.items == old(logList.items)
  {
    ghost var before := logList.items;
    match logfile.kind {
      case Syslog =>
      case Console => LogWrite(logfile, fails);
      case File => LogWrite(logfile, fails);
    }
    gone := logfile.aborted;
    if gone {
      assert LinkedAt(before, logList, p);
      ghost var at := OutputRemove(logList, logfile);
      assert Apart(before, at, p);
    }
  }

  predicate IsFirstFile(s: seq<Item>, filename: string, k: nat)
    requires k < |s|
  {
    s[k].kind == File && s[k].filename == filename &&
    forall j | 0 <= j < k :: s[j].kind != File || s[j].filename != filename
  }

  /** LogFileRemove: drops the first file of that name, if there is one. */
  method LogFileRemove(logList: List, filename: string) returns (found: bool)
    requires logList.Valid()
    modifies logList, logList.items`prev, logList.items`next, logList.items`list
    ensures logList.Valid()
    ensures found <==> exists x | x in old(logList.items) :: x.kind == File && x.filename == filename
    ensures !found ==> logList.items == old(logList.items)
    ensures found ==> exists k | 0 <= k < |old(logList.items)| ::
      && IsFirstFile(old(logList.items), filename, k)
      && logList.items == old(logList.items)[..k] + old(logList.items)[k + 1..]
  {
    ghost var before := logList.items;
    ghost var k := 0;
    var listItem := logList.head;
    while listItem != null
      invariant 0 <= k <= |before| && listItem == At(before, k)
      invariant logList.items == before && logList.Valid()
      invariant forall j | 0 <= j < k :: before[j].kind != File || before[j].filename != filename
      decreases |before| - k
    {
      assert LinkedAt(before, logList, k);
      if listItem.kind == File && listItem.filename == filename {
        ghost var at := OutputRemove(logList, listItem);
        assert Apart(before, at, k);
        assert before[k] in before && IsFirstFile(before, filename, k);
        return true;
      }
      listItem := listItem.next;
      k := k + 1;
    }
    found := false;
  }
}
