/** core/matching.py: exact keys, the forward-only walk, and the two-tier resolver. Text is ASCII. */
module Matching {
  import opened Wrappers
  import opened Sequences

  // ---- Keys -----------------------------------------------------------------

  function LowerChar(c: char): char {
    if 'A' <= c <= 'Z' then (c as int + 32) as char else c
  }

  function Lower(s: string): string {
    seq(|s|, i requires 0 <= i < |s| => LowerChar(s[i]))
  }

  function Remove(ch: char, s: string): string {
    Filter(c => c != ch, s)
  }

  function NormalizeKey(s: string): string {
    Remove(' ', Remove('-', Lower(s)))
  }

  predicate ExactModelMatch(a: string, b: string) {
    NormalizeKey(a) != "" && NormalizeKey(b) != "" && NormalizeKey(a) == NormalizeKey(b)
  }

  // ---- Subsequences ---------------------------------------------------------

  // `f` sends every position of `p` to a later-and-later position of `t` with the same character.
  ghost predicate Embeds(f: seq<nat>, p: string, t: string) {
    && |f| == |p|
    && (forall i :: 0 <= i < |f| ==> f[i] < |t| && t[f[i]] == p[i])
    && (forall i, j :: 0 <= i < j < |f| ==> f[i] < f[j])
  }

  // The greedy walk from the left.
  predicate Subsequence(p: string, t: string) {
    if p == "" then true
    else if t == "" then false
    else if p[0] == t[0] then Subsequence(p[1..], t[1..])
    else Subsequence(p, t[1..])
  }

  function Shifted(f: seq<nat>): seq<nat> {
    seq(|f|, i requires 0 <= i < |f| => f[i] + 1)
  }

  // The positions at which the greedy walk locks.
  function Leftmost(p: string, t: string): (f: seq<nat>)
    requires Subsequence(p, t)
    ensures |f| == |p|
    decreases |t|
  {
    if p == "" then []
    else if p[0] == t[0] then [0] + Shifted(Leftmost(p[1..], t[1..]))
    else Shifted(Leftmost(p, t[1..]))
  }

  // Soundness of the walk.
  lemma {:induction false} LeftmostEmbeds(p: string, t: string)
    requires Subsequence(p, t)
    ensures Embeds(Leftmost(p, t), p, t)
    decreases |t|
  {
    if p != "" {
      var f := Leftmost(p, t);
      if p[0] == t[0] {
        var g := Leftmost(p[1..], t[1..]);
        LeftmostEmbeds(p[1..], t[1..]);
        assert forall i :: 1 <= i < |f| ==> f[i] == g[i - 1] + 1;
      } else {
        LeftmostEmbeds(p, t[1..]);
      }
    }
  }

  // An embedding that avoids position 0 of `t` is one into the rest of `t`.
  function Lowered(g: seq<nat>): (h: seq<nat>)
    requires forall i :: 0 <= i < |g| ==> g[i] > 0
    ensures |h| == |g| && forall i :: 0 <= i < |g| ==> h[i] == g[i] - 1
  {
    seq(|g|, i requires 0 <= i < |g| => g[i] - 1)
  }

  // Completeness of the walk: it succeeds wherever any embedding exists, and each of its
  // positions is at or before that embedding's.
  lemma {:induction false} WalkIsLeftmost(g: seq<nat>, p: string, t: string)
    requires Embeds(g, p, t)
    ensures Subsequence(p, t)
    ensures forall i :: 0 <= i < |p| ==> Leftmost(p, t)[i] <= g[i]
    decreases |t|
  {
    if p != "" {
      assert g[0] < |t|;
      assert forall i :: 1 <= i < |g| ==> g[i] > g[0];
      if p[0] == t[0] {
        var h := Lowered(g[1..]);
        assert Embeds(h, p[1..], t[1..]) by {
          assert forall i :: 0 <= i < |h| ==> h[i] == g[i + 1] - 1;
        }
        WalkIsLeftmost(h, p[1..], t[1..]);
      } else {
        assert g[0] > 0;
        var h := Lowered(g);
        assert Embeds(h, p, t[1..]);
        WalkIsLeftmost(h, p, t[1..]);
      }
    }
  }

  lemma SubsequenceIffEmbedding(p: string, t: string)
    ensures Subsequence(p, t) <==> exists f :: Embeds(f, p, t)
  {
    if Subsequence(p, t) {
      LeftmostEmbeds(p, t);
    }
    if f :| Embeds(f, p, t) {
      WalkIsLeftmost(f, p, t);
    }
  }

  // ---- The walk -------------------------------------------------------------

  predicate WalkMatches(model: string, barcode: string) {
    model != "" && barcode != "" && Subsequence(Lower(model), Lower(barcode))
  }

  // The nested loop. `steps` counts the barcode positions it passes.
  method ModelMatchesBarcode(model: string, barcode: string) returns (r: bool, ghost steps: nat)
    ensures r == WalkMatches(model, barcode)
    ensures steps <= |barcode|
  {
    steps := 0;
    if model == "" || barcode == "" {
      return false, 0;
    }
    var modelLower := Lower(model);
    var barcodeLower := Lower(barcode);
    var barcodePos := 0;
    for i := 0 to |modelLower|
      invariant steps == barcodePos <= |barcodeLower|
      invariant Subsequence(modelLower, barcodeLower)
             == Subsequence(modelLower[i..], barcodeLower[barcodePos..])
    {
      while barcodePos < |barcodeLower| && barcodeLower[barcodePos] != modelLower[i]
        invariant steps == barcodePos <= |barcodeLower|
        invariant Subsequence(modelLower, barcodeLower)
               == Subsequence(modelLower[i..], barcodeLower[barcodePos..])
      {
        barcodePos, steps := barcodePos + 1, steps + 1;
      }
      if barcodePos >= |barcodeLower| {
        return false, steps;
      }
      assert modelLower[i..][1..] == modelLower[i + 1..];
      assert barcodeLower[barcodePos..][1..] == barcodeLower[barcodePos + 1..];
      barcodePos, steps := barcodePos + 1, steps + 1;
    }
    return true, steps;
  }

  // What a walk match means, with no mention of the walk.
  lemma WalkMeaning(model: string, barcode: string)
    ensures WalkMatches(model, barcode)
       <==> model != "" && barcode != "" && exists f :: Embeds(f, Lower(model), Lower(barcode))
  {
    SubsequenceIffEmbedding(Lower(model), Lower(barcode));
  }

  // Twins reject each other: between texts of one length the walk accepts only equality up to case.
  lemma TwinsReject(model: string, barcode: string)
    requires |model| == |barcode| > 0
    ensures WalkMatches(model, barcode) <==> Lower(model) == Lower(barcode)
  {
    var p, t := Lower(model), Lower(barcode);
    if Subsequence(p, t) {
      var f := Leftmost(p, t);
      LeftmostEmbeds(p, t);
      IncreasingIsIdentity(f);
      assert forall i :: 0 <= i < |p| ==> p[i] == t[f[i]] == t[i];
    } else if p == t {
      WalkIsLeftmost(seq(|p|, i => i), p, t);
    }
  }

  // A strictly increasing map of `0..n` into itself is the identity.
  lemma IncreasingIsIdentity(f: seq<nat>)
    requires forall i :: 0 <= i < |f| ==> f[i] < |f|
    requires forall i, j :: 0 <= i < j < |f| ==> f[i] < f[j]
    ensures forall i :: 0 <= i < |f| ==> f[i] == i
  {
    forall i | 0 <= i < |f| ensures f[i] == i {
      GapBound(f, 0, i);
      GapBound(f, i, |f| - 1);
    }
  }

  lemma {:induction false} GapBound(f: seq<nat>, i: nat, j: nat)
    requires i <= j < |f|
    requires forall a, b :: 0 <= a < b < |f| ==> f[a] < f[b]
    ensures f[j] - f[i] >= j - i
  {
    if i < j {
      GapBound(f, i, j - 1);
    }
  }

  // ---- Tier laws ------------------------------------------------------------

  lemma {:induction false} FilterIsSubsequence(p: char -> bool, s: string)
    ensures Subsequence(Filter(p, s), s)
  {
    if s != "" {
      FilterIsSubsequence(p, s[1..]);
      if !p(s[0]) {
        DropFirst(Filter(p, s[1..]), s);
      }
    }
  }

  // Extra text in front never loses a match.
  lemma DropFirst(p: string, t: string)
    requires t != "" && Subsequence(p, t[1..])
    ensures Subsequence(p, t)
  {
    LeftmostEmbeds(p, t[1..]);
    WalkIsLeftmost(Shifted(Leftmost(p, t[1..])), p, t);
  }

  lemma SubsequenceTransitive(p: string, q: string, t: string)
    requires Subsequence(p, q) && Subsequence(q, t)
    ensures Subsequence(p, t)
  {
    var f, g := Leftmost(p, q), Leftmost(q, t);
    LeftmostEmbeds(p, q);
    LeftmostEmbeds(q, t);
    WalkIsLeftmost(seq(|f|, i requires 0 <= i < |f| => g[f[i]]), p, t);
  }

  lemma KeyIsSubsequence(s: string)
    ensures Subsequence(NormalizeKey(s), Lower(s))
  {
    FilterIsSubsequence(c => c != '-', Lower(s));
    FilterIsSubsequence(c => c != ' ', Remove('-', Lower(s)));
    SubsequenceTransitive(NormalizeKey(s), Remove('-', Lower(s)), Lower(s));
  }

  predicate SeparatorFree(s: string) {
    forall i :: 0 <= i < |s| ==> s[i] != '-' && s[i] != ' '
  }

  lemma {:induction false} FilterAll(p: char -> bool, s: string)
    requires forall i :: 0 <= i < |s| ==> p(s[i])
    ensures Filter(p, s) == s
  {
    if s != "" {
      FilterAll(p, s[1..]);
    }
  }

  // The tiers are ordered: for a model without separators an exact match is also a walk match.
  lemma ExactImpliesWalk(model: string, barcode: string)
    requires SeparatorFree(model) && ExactModelMatch(barcode, model)
    ensures WalkMatches(model, barcode)
  {
    FilterAll(c => c != '-', Lower(model));
    FilterAll(c => c != ' ', Lower(model));
    KeyIsSubsequence(barcode);
  }

  // With separators in the model the order of the tiers fails.
  lemma ExactWithoutWalk()
    ensures ExactModelMatch("AB", "A-B") && !WalkMatches("A-B", "AB")
  {
    assert Lower("AB") == "ab" && Lower("A-B") == "a-b";
    FilterAll(c => c != '-', "ab");
    FilterAll(c => c != ' ', "ab");
    assert Filter(c => c != '-', "a-b") == "ab" by {
      assert "a-b" == "a" + "-b";
      FilterAppend(c => c != '-', "a", "-b");
    }
    TwoShort("a-b", "ab");
  }

  lemma TwoShort(p: string, t: string)
    requires |p| > |t|
    ensures !Subsequence(p, t)
  {
    if Subsequence(p, t) {
      LeftmostEmbeds(p, t);
      GapBound(Leftmost(p, t), 0, |p| - 1);
    }
  }

  // ---- Resolvers ------------------------------------------------------------

  function ExactTest(barcode: string): string -> bool {
    c => ExactModelMatch(barcode, c)
  }

  function KeyTest(barcode: string): string -> bool {
    c => NormalizeKey(c) == NormalizeKey(barcode)
  }

  function WalkTest(barcode: string): string -> bool {
    c => WalkMatches(c, barcode)
  }

  function ResolveExact(barcode: string, candidates: seq<string>): Option<string> {
    var matched := Filter(ExactTest(barcode), candidates);
    if |matched| == 1 then Some(matched[0]) else None
  }

  datatype MatchResult =
    | Auto(model: string)
    | Propose(model: string)
    | NeedsInput(candidates: seq<string>)

  function ResolveModel(barcode: string, poModels: seq<string>): MatchResult {
    var exact := Filter(KeyTest(barcode), poModels);
    if |exact| == 1 then Auto(exact[0])
    else if |exact| >= 2 then NeedsInput(exact)
    else
      var walked := Filter(WalkTest(barcode), poModels);
      if |walked| == 1 then Propose(walked[0]) else NeedsInput(walked)
  }

  // In a duplicate-free list, a filter selects exactly one element iff exactly one passes.
  lemma UniqueSelection(p: string -> bool, s: seq<string>, m: string)
    requires Distinct(s)
    ensures (m in s && p(m) && (forall c :: c in s && p(c) ==> c == m)) <==> Filter(p, s) == [m]
  {
    FilterMembers(p, s);
    var f := Filter(p, s);
    FilterCount(p, s, m);
    DistinctCount(s, m);
    if m in s && p(m) && forall c :: c in s && p(c) ==> c == m {
      assert m in f;
      assert forall i :: 0 <= i < |f| ==> f[i] in f;
      if |f| >= 2 {
        MultiplicityAtLeastTwo(f, 0, 1);
      }
      assert f == [f[0]];
    }
    if f == [m] {
      assert m in f;
      forall c | c in s && p(c) ensures c == m { assert c in f; }
    }
  }

  lemma {:induction false} DistinctCount<T>(s: seq<T>, x: T)
    requires Distinct(s)
    ensures multiset(s)[x] <= 1
  {
    if s != [] {
      var rest := s[1..];
      assert forall i, j :: 0 <= i < j < |rest| ==> rest[i] == s[i + 1] && rest[j] == s[j + 1];
      DistinctCount(rest, x);
      assert s == [s[0]] + rest;
      if x in rest {
        var i :| 0 <= i < |rest| && rest[i] == x;
        assert s[i + 1] == x;
      }
    }
  }

  // Feeding the text `m` of a listed model back to the exact matcher finds `m` itself exactly
  // when the key of `m` is non-empty and no other listed model shares it.
  lemma FindsItselfIff(m: string, models: seq<string>)
    requires Distinct(models) && m in models
    ensures ResolveExact(m, models) == Some(m)
       <==> NormalizeKey(m) != "" && forall c :: c in models && NormalizeKey(c) == NormalizeKey(m) ==> c == m
  {
    UniqueSelection(ExactTest(m), models, m);
    if |Filter(ExactTest(m), models)| == 1 {
      assert Filter(ExactTest(m), models) == [Filter(ExactTest(m), models)[0]];
    }
  }

  // The answer is a function of the set of candidate models, not of their order.
  lemma ResolversIgnoreOrder(barcode: string, s: seq<string>, t: seq<string>)
    requires multiset(s) == multiset(t)
    ensures ResolveExact(barcode, s) == ResolveExact(barcode, t)
    ensures match (ResolveModel(barcode, s), ResolveModel(barcode, t))
            case (NeedsInput(a), NeedsInput(b)) => multiset(a) == multiset(b)
            case (a, b) => a == b
  {
    FilterPermutation(ExactTest(barcode), s, t);
    SingletonMultiset(Filter(ExactTest(barcode), s), Filter(ExactTest(barcode), t));
    FilterPermutation(KeyTest(barcode), s, t);
    SingletonMultiset(Filter(KeyTest(barcode), s), Filter(KeyTest(barcode), t));
    FilterPermutation(WalkTest(barcode), s, t);
    SingletonMultiset(Filter(WalkTest(barcode), s), Filter(WalkTest(barcode), t));
  }
}
