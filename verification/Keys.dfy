/** core/matching.py: what a normalised key forgets and what it keeps, and what that means for receiving. */
module Keys {
  import opened Wrappers
  import opened Sequences
  import opened Matching
  import opened ModelResolution
  import opened Tables

  // ---- Keys, character by character ---------------------------------------------------------------

  lemma LowerAppend(s: string, t: string)
    ensures Lower(s + t) == Lower(s) + Lower(t)
  {
  }

  lemma KeyAppend(s: string, t: string)
    ensures NormalizeKey(s + t) == NormalizeKey(s) + NormalizeKey(t)
  {
    LowerAppend(s, t);
    FilterAppend(c => c != '-', Lower(s), Lower(t));
    FilterAppend(c => c != ' ', Remove('-', Lower(s)), Remove('-', Lower(t)));
  }

  lemma KeyOfOne(c: char)
    ensures NormalizeKey([c])
         == if c == '-' || c == ' ' then "" else if 'A' <= c <= 'Z' then [(c as int + 32) as char] else [c]
  {
    var d := if 'A' <= c <= 'Z' then (c as int + 32) as char else c;
    var noHyphen := if d == '-' then "" else [d];
    assert Lower([c]) == [d];
    assert Filter(x => x != '-', [d]) == noHyphen by {
      assert [d][1..] == "" && Filter(x => x != '-', "") == "";
    }
    assert Filter(x => x != ' ', noHyphen) == (if d == ' ' then "" else noHyphen) by {
      assert [d][1..] == "" && Filter(x => x != ' ', "") == "";
    }
    assert NormalizeKey([c]) == Remove(' ', Remove('-', [d]));
  }

  // A separator anywhere in a text leaves no trace in its key.
  lemma KeyIgnoresSeparators(s: string, c: char, t: string)
    requires c == '-' || c == ' '
    ensures NormalizeKey(s + [c] + t) == NormalizeKey(s + t)
  {
    KeyOfOne(c);
    KeyAppend(s, [c]);
    KeyAppend(s + [c], t);
    KeyAppend(s, t);
    assert NormalizeKey(s) + "" == NormalizeKey(s);
  }

  // Nor does the case of an ASCII letter.
  lemma KeyIgnoresCase(s: string, c: char, t: string)
    requires 'A' <= c <= 'Z'
    ensures NormalizeKey(s + [c] + t) == NormalizeKey(s + [(c as int + 32) as char] + t)
  {
    var d := (c as int + 32) as char;
    KeyOfOne(c);
    KeyOfOne(d);
    KeyAppend(s, [c]);
    KeyAppend(s + [c], t);
    KeyAppend(s, [d]);
    KeyAppend(s + [d], t);
  }

  // A key holds no hyphen, no space and no upper-case letter, and a text without them is its own key.
  lemma {:induction false} KeyIsClean(s: string)
    ensures forall c :: c in NormalizeKey(s) ==> c != '-' && c != ' ' && !('A' <= c <= 'Z')
    ensures (forall c :: c in s ==> c != '-' && c != ' ' && !('A' <= c <= 'Z')) ==> NormalizeKey(s) == s
  {
    if s == "" {
      assert Lower(s) == "";
    } else {
      assert s == [s[0]] + s[1..];
      assert s[0] in s && forall c :: c in s[1..] ==> c in s;
      KeyIsClean(s[1..]);
      KeyOfOne(s[0]);
      KeyAppend([s[0]], s[1..]);
    }
  }

  // The characters of a text that are no separators, in lower case and in order.
  function Bare(s: string): string {
    if s == "" then ""
    else if s[0] == '-' || s[0] == ' ' then Bare(s[1..])
    else [if 'A' <= s[0] <= 'Z' then (s[0] as int + 32) as char else s[0]] + Bare(s[1..])
  }

  // Two texts have one key exactly when those agree.
  lemma {:induction false} KeyIsBare(s: string)
    ensures NormalizeKey(s) == Bare(s)
  {
    if s == "" {
      assert Lower(s) == "";
    } else {
      assert s == [s[0]] + s[1..];
      KeyIsBare(s[1..]);
      KeyOfOne(s[0]);
      KeyAppend([s[0]], s[1..]);
    }
  }

  lemma SameKeyIff(s: string, t: string)
    ensures NormalizeKey(s) == NormalizeKey(t) <==> Bare(s) == Bare(t)
  {
    KeyIsBare(s);
    KeyIsBare(t);
  }

  // ---- Consequences -----------------------------------------------------------------------------------

  // A text that differs from another only by case, spaces and hyphens binds the same row.
  lemma VariantBindsTheSame(text: string, model: string, rows: seq<InventoryRow>)
    requires Bare(text) == Bare(model)
    ensures MatchedRow(text, rows) == MatchedRow(model, rows)
    ensures CheckModelOnPo(text, rows) == CheckModelOnPo(model, rows)
  {
    SameKeyIff(text, model);
    FilterAgree(ExactTest(text), ExactTest(model), PoModels(rows));
  }

  // So a variant of a listed model's text is received as that model exactly when the text is not made of
  // separators alone and no other listed model is a variant of it.
  lemma VariantIsReceivedIff(text: string, model: string, rows: seq<InventoryRow>)
    requires Bare(text) == Bare(model) && exists r :: r in rows && r.modelNumber == model
    ensures (MatchedRow(text, rows).Some? && MatchedRow(text, rows).value.modelNumber == model)
       <==> Bare(text) != "" && forall r :: r in rows && Bare(r.modelNumber) == Bare(text) ==> r.modelNumber == model
  {
    VariantBindsTheSame(text, model, rows);
    ReceivesItselfIff(model, rows);
    KeyIsBare(model);
    forall r | r in rows ensures NormalizeKey(r.modelNumber) == Bare(r.modelNumber) {
      KeyIsBare(r.modelNumber);
    }
  }

  // The operator's typed model is on the PO exactly when some unclaimed model is a variant of it.
  lemma TypedIsOnPoIff(typed: string, rows: seq<InventoryRow>)
    ensures CheckModelOnPo(typed, rows)
       <==> Bare(typed) != "" && exists r :: r in rows && Bare(r.modelNumber) == Bare(typed)
  {
    KeyIsBare(typed);
    forall r | r in rows ensures NormalizeKey(r.modelNumber) == Bare(r.modelNumber) {
      KeyIsBare(r.modelNumber);
    }
  }

  // The walk ignores case too, on both sides.
  lemma WalkIgnoresCase(s: string, c: char, t: string, other: string)
    requires 'A' <= c <= 'Z'
    ensures var upper, lower := s + [c] + t, s + [(c as int + 32) as char] + t;
            && WalkMatches(upper, other) == WalkMatches(lower, other)
            && WalkMatches(other, upper) == WalkMatches(other, lower)
  {
    assert Lower(s + [c] + t) == Lower(s + [(c as int + 32) as char] + t);
  }

  // What the operator is asked to choose from: the models that are variants of the barcode if there are
  // two or more, and the walk's candidates if there are none.
  lemma AskedAmong(barcode: string, models: seq<string>, m: string)
    requires Distinct(models) && ResolveModel(barcode, models).NeedsInput?
    ensures m in ResolveModel(barcode, models).candidates
       <==> m in models && if exists k :: k in models && Bare(k) == Bare(barcode) then Bare(m) == Bare(barcode)
                           else WalkMatches(m, barcode)
  {
    KeyIsBare(barcode);
    forall k | k in models ensures KeyTest(barcode)(k) == (Bare(k) == Bare(barcode)) {
      KeyIsBare(k);
    }
    FilterMembers(KeyTest(barcode), models);
    FilterMembers(WalkTest(barcode), models);
    var exact := Filter(KeyTest(barcode), models);
    if k :| k in models && Bare(k) == Bare(barcode) {
      assert k in exact;
    } else {
      NoneSelected(KeyTest(barcode), models);
    }
  }

  // ---- Learned barcodes -------------------------------------------------------------------------------

  // A learned barcode is AUTO for its model, whatever the PO lists.
  lemma LearnedIsAuto(barcode: string, models: seq<string>, rows: seq<InventoryRow>, model: string)
    ensures ResolveScan(barcode, models, Some(model)) == AutoModel(model)
    ensures ResolveModelBarcode(barcode, rows, Some(model)) == AutoModel(model)
  {
  }

  // Typing a model once settles its barcode: the next scan of it is AUTO for the typed text, and is
  // received as a model exactly when that model is listed, is a variant of the text, and no other listed
  // model is.
  lemma LearnedIsReceivedIff(barcode: string, typed: string, rows: seq<InventoryRow>, model: string)
    requires exists r :: r in rows && r.modelNumber == model
    ensures var verdict := ResolveModelBarcode(barcode, rows, Some(typed));
            verdict == AutoModel(typed)
            && ((MatchedRow(verdict.model, rows).Some? && MatchedRow(verdict.model, rows).value.modelNumber == model)
                <==> Bare(typed) != "" && Bare(model) == Bare(typed)
                     && forall r :: r in rows && Bare(r.modelNumber) == Bare(typed) ==> r.modelNumber == model)
  {
    KeyIsBare(typed);
    KeyIsBare(model);
    if Bare(model) == Bare(typed) {
      VariantIsReceivedIff(typed, model, rows);
    } else {
      MatchedRowMeaning(typed, rows, set r | r in rows);
    }
  }
}
