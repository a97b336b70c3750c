/** `str.strip()` on ASCII text. */
module Text {

  predicate IsSpace(c: char) {
    c == ' ' || '\t' <= c <= '\r' || 28 as char <= c <= 31 as char
  }

  function StripLeft(s: string): string {
    if s != "" && IsSpace(s[0]) then StripLeft(s[1..]) else s
  }

  function StripRight(s: string): string {
    if s != "" && IsSpace(s[|s| - 1]) then StripRight(s[..|s| - 1]) else s
  }

  function Strip(s: string): string {
    StripRight(StripLeft(s))
  }

  // The ASCII characters for which `str.isspace()` holds.
  const SPACES: string := " \t\n\U{000B}\U{000C}\r\U{001C}\U{001D}\U{001E}\U{001F}"

  lemma SpacesAreThese(c: char)
    ensures IsSpace(c) <==> c in SPACES
  {
    var s := SPACES;
    assert s[0] == ' ' && s[1] == '\t' && s[2] == '\n' && s[3] == 11 as char && s[4] == 12 as char && s[5] == '\r';
    assert s[6] == 28 as char && s[7] == 29 as char && s[8] == 30 as char && s[9] == 31 as char;
  }

  predicate AllSpaces(s: string) {
    forall i :: 0 <= i < |s| ==> s[i] in SPACES
  }

  // Nothing to strip.
  predicate Trimmed(s: string) {
    s != "" ==> s[0] !in SPACES && s[|s| - 1] !in SPACES
  }

  lemma {:induction false} StripLeftOf(left: string, s: string)
    requires AllSpaces(left) && (s != "" ==> s[0] !in SPACES)
    ensures StripLeft(left + s) == s
  {
    if left == "" {
      assert left + s == s;
      if s != "" {
        SpacesAreThese(s[0]);
      }
    } else {
      SpacesAreThese(left[0]);
      assert (left + s)[1..] == left[1..] + s;
      StripLeftOf(left[1..], s);
    }
  }

  lemma {:induction false} StripRightOf(s: string, right: string)
    requires AllSpaces(right) && (s != "" ==> s[|s| - 1] !in SPACES)
    ensures StripRight(s + right) == s
  {
    if right == "" {
      assert s + right == s;
      if s != "" {
        SpacesAreThese(s[|s| - 1]);
      }
    } else {
      var n := |right| - 1;
      SpacesAreThese(right[n]);
      assert (s + right)[..|s| + n] == s + right[..n];
      StripRightOf(s, right[..n]);
    }
  }

  // Stripping takes the white space off both ends, and nothing else.
  lemma StripOf(left: string, s: string, right: string)
    requires AllSpaces(left) && AllSpaces(right) && Trimmed(s)
    ensures Strip(left + s + right) == s
  {
    if s == "" {
      assert left + s + right == (left + right) + "";
      StripLeftOf(left + right, "");
    } else {
      assert left + s + right == left + (s + right);
      StripLeftOf(left, s + right);
      StripRightOf(s, right);
    }
  }

  lemma SpaceJoins(c: char, s: string)
    requires c in SPACES && AllSpaces(s)
    ensures AllSpaces([c] + s) && AllSpaces(s + [c])
  {
  }

  lemma {:induction false} LeftSplits(s: string) returns (left: string)
    ensures AllSpaces(left) && s == left + StripLeft(s)
    ensures StripLeft(s) != "" ==> StripLeft(s)[0] !in SPACES
  {
    if s == "" {
      return "";
    }
    SpacesAreThese(s[0]);
    if !IsSpace(s[0]) {
      return "";
    }
    var rest := LeftSplits(s[1..]);
    SpaceJoins(s[0], rest);
    left := [s[0]] + rest;
    assert s == [s[0]] + s[1..] && left + StripLeft(s) == [s[0]] + (rest + StripLeft(s[1..]));
  }

  lemma {:induction false} RightSplits(s: string) returns (right: string)
    ensures AllSpaces(right) && s == StripRight(s) + right && StripRight(s) <= s
    ensures StripRight(s) != "" ==> StripRight(s)[|StripRight(s)| - 1] !in SPACES
  {
    if s == "" {
      return "";
    }
    var n := |s| - 1;
    SpacesAreThese(s[n]);
    if !IsSpace(s[n]) {
      return "";
    }
    var rest := RightSplits(s[..n]);
    SpaceJoins(s[n], rest);
    right := rest + [s[n]];
    assert s == s[..n] + [s[n]];
  }

  // And every text is its stripped form between two stretches of white space.
  lemma StripSplits(s: string) returns (left: string, right: string)
    ensures AllSpaces(left) && AllSpaces(right) && Trimmed(Strip(s)) && s == left + Strip(s) + right
  {
    left := LeftSplits(s);
    right := RightSplits(StripLeft(s));
    assert Strip(s) != "" ==> Strip(s)[0] == StripLeft(s)[0];
  }
}
