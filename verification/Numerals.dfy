/** services/receive_sync.py: what `int(inventory_id)` accepts and yields, and the order that follows. */
module Numerals {
  import opened Wrappers
  import opened Text
  import opened Dispatch

  // ---- Decimal notation -------------------------------------------------------------------------------

  function DigitOf(d: nat): char
    requires d < 10
  {
    "0123456789"[d]
  }

  function Decimal(n: nat): string {
    if n < 10 then [DigitOf(n)] else Decimal(n / 10) + [DigitOf(n % 10)]
  }

  lemma DigitOfIs(d: nat)
    requires d < 10
    ensures '0' <= DigitOf(d) <= '9' && DigitOf(d) as int - '0' as int == d
  {
  }

  lemma {:induction false} DigitsSnoc(s: string, value: nat, after: bool, d: nat)
    requires d < 10 && Digits(s, value, after).Some?
    ensures Digits(s + [DigitOf(d)], value, after) == Some(10 * Digits(s, value, after).value + d)
    ensures Digits(s + ['_', DigitOf(d)], value, after) == Some(10 * Digits(s, value, after).value + d)
    decreases |s|
  {
    DigitOfIs(d);
    var one, two := [DigitOf(d)], ['_', DigitOf(d)];
    if s == "" {
      assert s + one == one && s + two == two && one[1..] == "" && two[1..] == one;
    } else {
      assert (s + one)[0] == s[0] == (s + two)[0];
      assert (s + one)[1..] == s[1..] + one && (s + two)[1..] == s[1..] + two;
      if '0' <= s[0] <= '9' {
        DigitsSnoc(s[1..], 10 * value + (s[0] as int - '0' as int), true, d);
      } else {
        DigitsSnoc(s[1..], value, false, d);
      }
    }
  }

  lemma {:induction false} DigitsOfDecimal(n: nat)
    ensures Digits(Decimal(n), 0, false) == Some(n)
    ensures forall i :: 0 <= i < |Decimal(n)| ==> '0' <= Decimal(n)[i] <= '9'
    ensures Decimal(n) != ""
  {
    DigitOfIs(n % 10);
    if n < 10 {
      DigitOfIs(n);
      assert [DigitOf(n)][1..] == "";
    } else {
      DigitsOfDecimal(n / 10);
      DigitsSnoc(Decimal(n / 10), 0, false, n % 10);
    }
  }

  lemma DigitIsNoSpace(c: char)
    requires '0' <= c <= '9' || c == '-' || c == '+' || c == '_'
    ensures c !in SPACES
  {
    SpacesAreThese(c);
  }

  // A number in decimal notation, signed or not and between any white space, is read as that number.
  lemma ParsesDecimal(left: string, n: nat, right: string)
    requires AllSpaces(left) && AllSpaces(right)
    ensures ParseInt(left + Decimal(n) + right) == Some(n)
    ensures ParseInt(left + ("+" + Decimal(n)) + right) == Some(n)
    ensures ParseInt(left + ("-" + Decimal(n)) + right) == Some(0 - n)
  {
    DigitsOfDecimal(n);
    var s := Decimal(n);
    DigitIsNoSpace(s[0]);
    DigitIsNoSpace(s[|s| - 1]);
    DigitIsNoSpace('+');
    DigitIsNoSpace('-');
    StripOf(left, s, right);
    StripOf(left, "+" + s, right);
    StripOf(left, "-" + s, right);
    assert ("+" + s)[1..] == s && ("-" + s)[1..] == s;
  }

  // ---- What parses at all --------------------------------------------------------------------------------

  // Digits, with single underscores between them.
  predicate Grouped(s: string) {
    && s != ""
    && (forall i :: 0 <= i < |s| ==> '0' <= s[i] <= '9' || s[i] == '_')
    && s[0] != '_' && s[|s| - 1] != '_'
    && (forall i :: 0 < i < |s| ==> !(s[i - 1] == '_' && s[i] == '_'))
  }

  lemma {:induction false} DigitsIff(s: string, value: nat, after: bool)
    ensures Digits(s, value, after).Some?
       <==> if s == "" then after
            else Grouped(s) || (after && s[0] == '_' && Grouped(s[1..]))
    decreases |s|
  {
    if s != "" {
      var rest := s[1..];
      assert forall i :: 0 <= i < |rest| ==> rest[i] == s[i + 1];
      if '0' <= s[0] <= '9' {
        DigitsIff(rest, 10 * value + (s[0] as int - '0' as int), true);
        GroupedTail(s);
      } else if s[0] == '_' && after {
        DigitsIff(rest, value, false);
      }
    }
  }

  lemma GroupedTail(s: string)
    requires s != "" && '0' <= s[0] <= '9'
    ensures Grouped(s) <==> s[1..] == "" || Grouped(s[1..]) || (s[1] == '_' && Grouped(s[1..][1..]))
  {
    var rest := s[1..];
    assert forall i :: 0 <= i < |rest| ==> rest[i] == s[i + 1];
    if rest != "" {
      var later := rest[1..];
      assert forall i :: 0 <= i < |later| ==> later[i] == s[i + 2];
      if Grouped(s) && !Grouped(rest) {
        assert rest[0] == '_' && rest[|rest| - 1] == s[|s| - 1];
        assert later != "" && later[|later| - 1] == s[|s| - 1];
      }
      if rest[0] == '_' && Grouped(later) {
        forall i | 0 < i < |s| ensures !(s[i - 1] == '_' && s[i] == '_') {
          if i > 2 {
            assert later[i - 3] == s[i - 1] && later[i - 2] == s[i];
          }
        }
        assert s[|s| - 1] == later[|later| - 1];
      }
      if Grouped(rest) {
        assert s[|s| - 1] == rest[|rest| - 1];
        forall i | 0 < i < |s| ensures !(s[i - 1] == '_' && s[i] == '_') {
          if i > 1 {
            assert rest[i - 2] == s[i - 1] && rest[i - 1] == s[i];
          }
        }
      }
    }
  }

  // An id parses exactly when, white space aside, it is grouped digits after at most one sign. So a text
  // with any other character in it does not.
  lemma ParsesIff(raw: string)
    ensures var s := Strip(raw);
            ParseInt(raw).Some? <==> Grouped(s) || (s != "" && s[0] in "+-" && Grouped(s[1..]))
    ensures ParseInt(raw).Some? ==> forall c :: c in raw ==> '0' <= c <= '9' || c in "+-_" || c in SPACES
  {
    var s := Strip(raw);
    var left, right := StripSplits(raw);
    if s != "" {
      DigitsIff(s, 0, false);
      DigitsIff(s[1..], 0, false);
    }
    if ParseInt(raw).Some? {
      forall c | c in raw ensures '0' <= c <= '9' || c in "+-_" || c in SPACES {
        var i :| 0 <= i < |raw| && raw[i] == c;
        if |left| <= i < |left| + |s| {
          assert s[i - |left|] == c;
          assert i > |left| ==> s[1..][i - |left| - 1] == c;
        }
      }
    }
  }

  // ---- The order of dispatch -------------------------------------------------------------------------------

  predicate Precedes(order: seq<ReadyItem>, a: ReadyItem, b: ReadyItem) {
    forall j, k :: 0 <= j < |order| && 0 <= k < |order| && order[j] == a && order[k] == b ==> j < k
  }

  // Items whose ids read as different numbers are dispatched in the order of the numbers, and an item whose
  // id does not read comes after every one whose id does.
  lemma DispatchedByNumber(polled: seq<ReadyItem>, a: ReadyItem, b: ReadyItem)
    ensures var x, y := ParseInt(a.inventoryId), ParseInt(b.inventoryId);
            x.Some? && (y.None? || x.value < y.value) ==> Precedes(Sorted(polled), a, b)
  {
    SortedMeaning(polled, SortKey(0, 0));
  }

  // In particular, by decimal notation.
  lemma DispatchedByDecimal(polled: seq<ReadyItem>, a: ReadyItem, b: ReadyItem, m: nat, n: nat)
    requires a.inventoryId == Decimal(m) && b.inventoryId == Decimal(n) && m < n
    ensures Precedes(Sorted(polled), a, b)
  {
    assert "" + Decimal(m) + "" == Decimal(m) && "" + Decimal(n) + "" == Decimal(n);
    ParsesDecimal("", m, "");
    ParsesDecimal("", n, "");
    DispatchedByNumber(polled, a, b);
  }

  // An id with anything but digits, signs, underscores and white space in it goes behind.
  lemma UnreadableIsLast(polled: seq<ReadyItem>, a: ReadyItem, b: ReadyItem, m: nat, c: char)
    requires a.inventoryId == Decimal(m)
    requires c in b.inventoryId && !('0' <= c <= '9') && c !in "+-_" && c !in SPACES
    ensures Precedes(Sorted(polled), a, b)
  {
    assert "" + Decimal(m) + "" == Decimal(m);
    ParsesDecimal("", m, "");
    ParsesIff(b.inventoryId);
    DispatchedByNumber(polled, a, b);
  }
}
