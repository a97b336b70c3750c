/** services/receive_sync.py: the order in which ready items are driven. */
module Dispatch {
  import opened Wrappers
  import opened Sequences
  import opened Text

  // A polled item; an absent or null field is "", which every use treats alike.
  datatype ReadyItem = ReadyItem(itemId: string, poNumber: string, inventoryId: string, model: string, serial: string)

  predicate IsValid(item: ReadyItem) {
    item.itemId != "" && item.poNumber != "" && item.inventoryId != "" && item.model != "" && item.serial != ""
  }

  // ---- int(raw) -------------------------------------------------------------------------

  // Digits, with single underscores between them.
  function Digits(s: string, value: nat, afterDigit: bool): Option<nat> {
    if s == "" then if afterDigit then Some(value) else None
    else if '0' <= s[0] <= '9' then Digits(s[1..], 10 * value + (s[0] as int - '0' as int), true)
    else if s[0] == '_' && afterDigit then Digits(s[1..], value, false)
    else None
  }

  function ParseInt(raw: string): Option<int> {
    var s := Strip(raw);
    if s == "" then None
    else if s[0] == '-' then
      match Digits(s[1..], 0, false)
      case Some(n) => Some(0 - n as int)
      case None => None
    else Digits(if s[0] == '+' then s[1..] else s, 0, false)
  }

  // ---- The sort --------------------------------------------------------------------------

  datatype SortKey = SortKey(rank: int, number: int)

  function KeyOf(item: ReadyItem): SortKey {
    match ParseInt(item.inventoryId)
    case Some(n) => SortKey(0, n)
    case None => SortKey(1, 0)
  }

  predicate AtMost(a: SortKey, b: SortKey) {
    a.rank < b.rank || (a.rank == b.rank && a.number <= b.number)
  }

  predicate ItemAtMost(a: ReadyItem, b: ReadyItem) {
    AtMost(KeyOf(a), KeyOf(b))
  }

  function Sorted(items: seq<ReadyItem>): seq<ReadyItem> {
    SortedBy(ItemAtMost, items)
  }

  predicate Ascending(s: seq<ReadyItem>) {
    forall j, k :: 0 <= j < k < |s| ==> AtMost(KeyOf(s[j]), KeyOf(s[k]))
  }

  function HasKey(k: SortKey): ReadyItem -> bool {
    item => KeyOf(item) == k
  }

  lemma {:induction false} InsertAscends(x: ReadyItem, s: seq<ReadyItem>)
    requires Ascending(s)
    ensures Ascending(Insert(ItemAtMost, x, s))
  {
    if s != [] && !AtMost(KeyOf(x), KeyOf(s[0])) {
      TailAscends(s);
      InsertAscends(x, s[1..]);
      InsertAdds(ItemAtMost, x, s[1..]);
      var tail := Insert(ItemAtMost, x, s[1..]);
      forall j | 0 <= j < |tail| ensures AtMost(KeyOf(s[0]), KeyOf(tail[j])) {
        assert tail[j] in multiset(tail);
        if tail[j] != x {
          assert tail[j] in s[1..];
          var i :| 0 <= i < |s[1..]| && s[1..][i] == tail[j];
          assert s[i + 1] == tail[j];
        }
      }
    }
  }

  lemma FilterCons(p: ReadyItem -> bool, x: ReadyItem, s: seq<ReadyItem>)
    ensures Filter(p, [x] + s) == (if p(x) then [x] else []) + Filter(p, s)
  {
    assert ([x] + s)[1..] == s;
  }

  lemma {:induction false} InsertIsStable(x: ReadyItem, s: seq<ReadyItem>, k: SortKey)
    ensures Filter(HasKey(k), Insert(ItemAtMost, x, s)) == Filter(HasKey(k), [x] + s)
  {
    if s != [] && !AtMost(KeyOf(x), KeyOf(s[0])) {
      InsertIsStable(x, s[1..], k);
      FilterCons(HasKey(k), s[0], Insert(ItemAtMost, x, s[1..]));
      FilterCons(HasKey(k), x, s);
      FilterCons(HasKey(k), x, s[1..]);
      FilterCons(HasKey(k), s[0], s[1..]);
      assert s == [s[0]] + s[1..];
    }
  }

  lemma TailAscends(s: seq<ReadyItem>)
    requires Ascending(s) && s != []
    ensures Ascending(s[1..])
  {
    forall j, k | 0 <= j < k < |s[1..]| ensures AtMost(KeyOf(s[1..][j]), KeyOf(s[1..][k])) {
      assert s[1..][j] == s[j + 1] && s[1..][k] == s[k + 1];
    }
  }

  // The dispatch order is a rearrangement, ascends by parsed inventory id with unparsable ids last,
  // and keeps the polled order among equal keys.
  lemma {:induction false} SortedMeaning(items: seq<ReadyItem>, k: SortKey)
    ensures multiset(Sorted(items)) == multiset(items)
    ensures Ascending(Sorted(items))
    ensures Filter(HasKey(k), Sorted(items)) == Filter(HasKey(k), items)
  {
    if items != [] {
      var rest := items[1..];
      assert items == [items[0]] + rest;
      SortedMeaning(rest, k);
      InsertAdds(ItemAtMost, items[0], Sorted(rest));
      InsertAscends(items[0], Sorted(rest));
      InsertIsStable(items[0], Sorted(rest), k);
      FilterCons(HasKey(k), items[0], Sorted(rest));
      FilterCons(HasKey(k), items[0], rest);
    }
  }

  // Two lists that select alike for every key.
  ghost predicate SelectAlike(s: seq<ReadyItem>, t: seq<ReadyItem>) {
    multiset(s) == multiset(t) && forall k :: Filter(HasKey(k), s) == Filter(HasKey(k), t)
  }

  lemma SameHead(s: seq<ReadyItem>, t: seq<ReadyItem>)
    requires Ascending(s) && Ascending(t) && SelectAlike(s, t) && s != [] && t != []
    ensures s[0] == t[0]
  {
    HeadIsLeast(s, t);
    HeadIsLeast(t, s);
    var k := KeyOf(s[0]);
    assert s == [s[0]] + s[1..] && t == [t[0]] + t[1..];
    FilterCons(HasKey(k), s[0], s[1..]);
    FilterCons(HasKey(k), t[0], t[1..]);
    assert s[0] == Filter(HasKey(k), s)[0] && t[0] == Filter(HasKey(k), t)[0];
  }

  lemma TailsSelectAlike(s: seq<ReadyItem>, t: seq<ReadyItem>)
    requires SelectAlike(s, t) && s != [] && t != [] && s[0] == t[0]
    ensures SelectAlike(s[1..], t[1..])
  {
    assert s == [s[0]] + s[1..] && t == [t[0]] + t[1..];
    assert multiset(s[1..]) == multiset(s) - multiset{s[0]} == multiset(t[1..]);
    forall k ensures Filter(HasKey(k), s[1..]) == Filter(HasKey(k), t[1..]) {
      FilterCons(HasKey(k), s[0], s[1..]);
      FilterCons(HasKey(k), t[0], t[1..]);
      assert Filter(HasKey(k), s) == Filter(HasKey(k), t);
      SameTail(if HasKey(k)(s[0]) then [s[0]] else [], Filter(HasKey(k), s[1..]), Filter(HasKey(k), t[1..]));
    }
  }

  lemma {:induction false} AscendingUnique(s: seq<ReadyItem>, t: seq<ReadyItem>)
    requires Ascending(s) && Ascending(t) && SelectAlike(s, t)
    ensures s == t
  {
    SingletonMultiset(s, t);
    if s != [] {
      SameHead(s, t);
      TailsSelectAlike(s, t);
      TailAscends(s);
      TailAscends(t);
      AscendingUnique(s[1..], t[1..]);
    }
  }

  lemma SameTail(a: seq<ReadyItem>, b: seq<ReadyItem>, c: seq<ReadyItem>)
    requires a + b == a + c
    ensures b == c
  {
    assert b == (a + b)[|a|..] == (a + c)[|a|..] == c;
  }

  lemma HeadIsLeast(s: seq<ReadyItem>, t: seq<ReadyItem>)
    requires Ascending(s) && multiset(s) == multiset(t) && s != [] && t != []
    ensures AtMost(KeyOf(s[0]), KeyOf(t[0]))
  {
    assert t[0] in multiset(s);
    var j :| 0 <= j < |s| && s[j] == t[0];
  }

  // Any list with those three properties is the dispatch order, whatever algorithm sorted it.
  lemma SortIsDetermined(items: seq<ReadyItem>, s: seq<ReadyItem>)
    requires multiset(s) == multiset(items) && Ascending(s)
    requires forall k :: Filter(HasKey(k), s) == Filter(HasKey(k), items)
    ensures s == Sorted(items)
  {
    SortedMeaning(items, SortKey(0, 0));
    forall k ensures Filter(HasKey(k), s) == Filter(HasKey(k), Sorted(items)) {
      SortedMeaning(items, k);
    }
    AscendingUnique(s, Sorted(items));
  }
}
