/** core/model_resolution.py and services/model_resolution.py: learned, exact, walk, ask. */
module ModelResolution {
  import opened Wrappers
  import opened Sequences
  import opened Matching
  import opened Tables

  datatype ModelScanResult =
    | AutoModel(model: string)
    | ProposeModel(model: string)
    | NeedsModel

  function ResolveScan(rawBarcode: string, poModels: seq<string>, learned: Option<string>): ModelScanResult {
    if learned.Some? then AutoModel(learned.value)
    else
      var exact := ResolveExact(rawBarcode, poModels);
      if exact.Some? then AutoModel(exact.value)
      else match ResolveModel(rawBarcode, poModels)
        case Auto(m) => AutoModel(m)
        case Propose(m) => ProposeModel(m)
        case NeedsInput(_) => NeedsModel
  }

  // On a barcode with a key, the exact tests of the two resolvers select the same models.
  lemma ExactTestsAgree(barcode: string, models: seq<string>)
    requires NormalizeKey(barcode) != ""
    ensures Filter(KeyTest(barcode), models) == Filter(ExactTest(barcode), models)
  {
    FilterAgree(KeyTest(barcode), ExactTest(barcode), models);
  }

  lemma KeylessMatchesNothing(barcode: string, models: seq<string>)
    requires NormalizeKey(barcode) == ""
    ensures ResolveExact(barcode, models) == None
  {
    FilterMembers(ExactTest(barcode), models);
    var f := Filter(ExactTest(barcode), models);
    assert forall i :: 0 <= i < |f| ==> f[i] in f;
  }

  // The AUTO branch of step 3 is taken exactly when the barcode has no key and exactly one listed
  // model has none either.
  lemma WalkStepAutoIff(barcode: string, models: seq<string>)
    ensures ResolveExact(barcode, models).None? && ResolveModel(barcode, models).Auto?
       <==> NormalizeKey(barcode) == "" && |Filter(KeyTest(barcode), models)| == 1
  {
    if NormalizeKey(barcode) == "" {
      KeylessMatchesNothing(barcode, models);
    } else {
      ExactTestsAgree(barcode, models);
    }
  }

  // What each verdict means when nothing was learned: no verdict mentions list positions.
  ghost predicate OnlyPassing(test: string -> bool, models: seq<string>, m: string) {
    m in models && test(m) && forall c :: c in models && test(c) ==> c == m
  }

  ghost predicate NonePassing(test: string -> bool, models: seq<string>) {
    forall c :: c in models ==> !test(c)
  }

  lemma NoneSelected(test: string -> bool, models: seq<string>)
    ensures Filter(test, models) == [] <==> NonePassing(test, models)
  {
    FilterMembers(test, models);
    if Filter(test, models) == [] {
      assert forall c :: c in Filter(test, models) <==> c in models && test(c);
    } else {
      assert Filter(test, models)[0] in Filter(test, models);
    }
  }

  lemma VerdictMeaning(barcode: string, models: seq<string>, m: string)
    requires Distinct(models)
    ensures ResolveScan(barcode, models, None) == AutoModel(m)
       <==> OnlyPassing(KeyTest(barcode), models, m)
    ensures ResolveScan(barcode, models, None) == ProposeModel(m)
       <==> NonePassing(KeyTest(barcode), models) && OnlyPassing(WalkTest(barcode), models, m)
  {
    UniqueSelection(KeyTest(barcode), models, m);
    UniqueSelection(WalkTest(barcode), models, m);
    NoneSelected(KeyTest(barcode), models);
    if NormalizeKey(barcode) == "" {
      KeylessMatchesNothing(barcode, models);
    } else {
      ExactTestsAgree(barcode, models);
    }
    var exact, walked := Filter(KeyTest(barcode), models), Filter(WalkTest(barcode), models);
    if |exact| == 1 { assert exact == [exact[0]]; }
    if |walked| == 1 { assert walked == [walked[0]]; }
  }

  // A verdict carries the empty text as its model only if that was learned, or if the catalog
  // lists an empty model number and nothing else without a key while the barcode has no key.
  lemma EmptyModelIff(barcode: string, models: seq<string>, learned: Option<string>)
    requires Distinct(models)
    ensures (ResolveScan(barcode, models, learned).AutoModel?
             && ResolveScan(barcode, models, learned).model == "")
       <==> if learned.Some? then learned.value == "" else OnlyPassing(KeyTest(barcode), models, "")
    ensures ResolveScan(barcode, models, learned).ProposeModel? ==>
              ResolveScan(barcode, models, learned).model != ""
  {
    VerdictMeaning(barcode, models, "");
    var r := ResolveScan(barcode, models, None);
    if r.ProposeModel? {
      VerdictMeaning(barcode, models, r.model);
    }
  }

  // ---- The service ------------------------------------------------------------

  function ModelNames(rows: seq<InventoryRow>): seq<string> {
    if rows == [] then [] else [rows[0].modelNumber] + ModelNames(rows[1..])
  }

  lemma {:induction false} ModelNamesMembers(rows: seq<InventoryRow>)
    ensures forall m :: m in ModelNames(rows) <==> exists r :: r in rows && r.modelNumber == m
  {
    if rows != [] {
      ModelNamesMembers(rows[1..]);
      assert rows == [rows[0]] + rows[1..];
    }
  }

  // `list(dict.fromkeys(c["model_number"] for c in candidates))`
  function PoModels(rows: seq<InventoryRow>): seq<string> {
    Dedup(ModelNames(rows))
  }

  lemma PoModelsMeaning(rows: seq<InventoryRow>)
    ensures Distinct(PoModels(rows))
    ensures forall m :: m in PoModels(rows) <==> exists r :: r in rows && r.modelNumber == m
  {
    ModelNamesMembers(rows);
    DedupMembers(ModelNames(rows));
    DedupDistinct(ModelNames(rows));
  }

  function ResolveModelBarcode(rawBarcode: string, rows: seq<InventoryRow>, learned: Option<string>): ModelScanResult {
    ResolveScan(rawBarcode, PoModels(rows), learned)
  }

  predicate CheckModelOnPo(model: string, rows: seq<InventoryRow>) {
    exists r :: r in rows && ExactModelMatch(model, r.modelNumber)
  }

  // Two orders in which the database may return the same rows give the same verdict and model.
  lemma VerdictIgnoresRowOrder(barcode: string, s: seq<InventoryRow>, t: seq<InventoryRow>, learned: Option<string>)
    requires forall r :: r in s <==> r in t
    ensures ResolveModelBarcode(barcode, s, learned) == ResolveModelBarcode(barcode, t, learned)
    ensures ResolveExact(barcode, PoModels(s)) == ResolveExact(barcode, PoModels(t))
  {
    ModelNamesMembers(s);
    ModelNamesMembers(t);
    DedupPermutation(ModelNames(s), ModelNames(t));
    ResolversIgnoreOrder(barcode, PoModels(s), PoModels(t));
  }

  // ---- Composition with receiving -----------------------------------------------

  // The row process_scan binds a text to, from the unclaimed rows it read.
  function MatchedRow(barcode: string, rows: seq<InventoryRow>): Option<InventoryRow> {
    var best := ResolveExact(barcode, PoModels(rows));
    if best.None? || best.value == "" then None else FirstWithModel(rows, best.value)
  }

  function FirstWithModel(rows: seq<InventoryRow>, m: string): (r: Option<InventoryRow>)
    ensures r.Some? ==> r.value in rows && r.value.modelNumber == m
    ensures r.None? ==> forall c :: c in rows ==> c.modelNumber != m
  {
    if rows == [] then None
    else if rows[0].modelNumber == m then Some(rows[0])
    else FirstWithModel(rows[1..], m)
  }

  // Some listed row has model `m`, the text matches `m` exactly, and no other listed model matches it.
  ghost predicate BindsTo(barcode: string, rows: set<InventoryRow>, m: string) {
    && (exists r :: r in rows && r.modelNumber == m)
    && ExactModelMatch(barcode, m)
    && (forall r :: r in rows && ExactModelMatch(barcode, r.modelNumber) ==> r.modelNumber == m)
  }

  // A scan is matched exactly when one model binds its text, and then to a row of that model;
  // which row of the model depends on the order of the rows, the model does not.
  lemma MatchedRowMeaning(barcode: string, rows: seq<InventoryRow>, all: set<InventoryRow>)
    requires forall r :: r in rows <==> r in all
    ensures MatchedRow(barcode, rows).Some? ==>
              MatchedRow(barcode, rows).value in all
              && BindsTo(barcode, all, MatchedRow(barcode, rows).value.modelNumber)
    ensures forall m :: BindsTo(barcode, all, m) ==>
              MatchedRow(barcode, rows).Some? && MatchedRow(barcode, rows).value.modelNumber == m
  {
    var models := PoModels(rows);
    PoModelsMeaning(rows);
    var f := Filter(ExactTest(barcode), models);
    if MatchedRow(barcode, rows).Some? {
      assert f == [f[0]];
      UniqueSelection(ExactTest(barcode), models, f[0]);
      forall r | r in all && ExactModelMatch(barcode, r.modelNumber) ensures r.modelNumber == f[0] {
        assert r in rows && r.modelNumber in models;
      }
    }
    forall m | BindsTo(barcode, all, m)
      ensures MatchedRow(barcode, rows).Some? && MatchedRow(barcode, rows).value.modelNumber == m
    {
      UniqueSelection(ExactTest(barcode), models, m);
      assert m != "" by { assert NormalizeKey("") == ""; }
    }
  }

  // Every fact about `MatchedRow` of the text `m` of a listed model, as one equivalence.
  lemma ReceivesItselfIff(m: string, rows: seq<InventoryRow>)
    requires exists r :: r in rows && r.modelNumber == m
    ensures (MatchedRow(m, rows).Some? && MatchedRow(m, rows).value.modelNumber == m)
       <==> NormalizeKey(m) != ""
            && forall r :: r in rows && NormalizeKey(r.modelNumber) == NormalizeKey(m) ==> r.modelNumber == m
  {
    PoModelsMeaning(rows);
    FindsItselfIff(m, PoModels(rows));
    assert NormalizeKey("") == "";
    if NormalizeKey(m) != ""
       && forall r :: r in rows && NormalizeKey(r.modelNumber) == NormalizeKey(m) ==> r.modelNumber == m {
      assert ResolveExact(m, PoModels(rows)) == Some(m);
    } else if NormalizeKey(m) != "" {
      var r :| r in rows && NormalizeKey(r.modelNumber) == NormalizeKey(m) && r.modelNumber != m;
      assert r.modelNumber in PoModels(rows);
    }
  }

  // An unlearned AUTO verdict for a barcode with a key is always received as the model it names.
  lemma AutoIsReceived(barcode: string, rows: seq<InventoryRow>)
    requires NormalizeKey(barcode) != ""
    requires ResolveModelBarcode(barcode, rows, None).AutoModel?
    ensures var m := ResolveModelBarcode(barcode, rows, None).model;
            MatchedRow(m, rows).Some? && MatchedRow(m, rows).value.modelNumber == m
  {
    var m := ResolveModelBarcode(barcode, rows, None).model;
    PoModelsMeaning(rows);
    VerdictMeaning(barcode, PoModels(rows), m);
    forall r | r in rows && NormalizeKey(r.modelNumber) == NormalizeKey(m) ensures r.modelNumber == m {
      assert r.modelNumber in PoModels(rows);
      assert KeyTest(barcode)(r.modelNumber);
    }
    ReceivesItselfIff(m, rows);
  }

  // A confirmed proposal is received as the model shown exactly when that model has a key that no
  // other unclaimed model shares.
  lemma ProposalIsReceivedIff(barcode: string, rows: seq<InventoryRow>)
    requires ResolveModelBarcode(barcode, rows, None).ProposeModel?
    ensures var m := ResolveModelBarcode(barcode, rows, None).model;
            (MatchedRow(m, rows).Some? && MatchedRow(m, rows).value.modelNumber == m)
            <==> NormalizeKey(m) != ""
                 && forall r :: r in rows && NormalizeKey(r.modelNumber) == NormalizeKey(m) ==> r.modelNumber == m
  {
    var m := ResolveModelBarcode(barcode, rows, None).model;
    PoModelsMeaning(rows);
    VerdictMeaning(barcode, PoModels(rows), m);
    ReceivesItselfIff(m, rows);
  }

  ghost predicate OneModelFor(typed: string, rows: seq<InventoryRow>) {
    forall r, q | r in rows && q in rows ::
      ExactModelMatch(typed, r.modelNumber) && ExactModelMatch(typed, q.modelNumber)
      ==> r.modelNumber == q.modelNumber
  }

  // The proposal shown for "XAB" on a PO listing AB and A-B is AB; confirming it is received as nothing.
  lemma ProposalNotReceived()
    ensures var rows := [InventoryRow("1", "7", "AB", None, None, None, None, None),
                         InventoryRow("2", "7", "A-B", None, None, None, None, None)];
            ResolveModelBarcode("XAB", rows, None) == ProposeModel("AB") && MatchedRow("AB", rows) == None
  {
    var rows := [InventoryRow("1", "7", "AB", None, None, None, None, None),
                 InventoryRow("2", "7", "A-B", None, None, None, None, None)];
    ExactWithoutWalk();
    assert ModelNames(rows) == ["AB", "A-B"] by {
      assert ModelNames(rows[1..]) == ["A-B"] by { assert ModelNames(rows[1..][1..]) == []; }
    }
    PoModelsMeaning(rows);
    ModelNamesMembers(rows);
    assert forall m :: m in PoModels(rows) <==> m in ModelNames(rows);
    KeyOfXab();
    assert rows[0] in rows && rows[1] in rows;
    VerdictMeaning("XAB", PoModels(rows), "AB");
    ReceivesItselfIff("AB", rows);
    MatchedRowMeaning("AB", rows, set r | r in rows);
  }

  lemma KeyOfXab()
    ensures NormalizeKey("XAB") == "xab" && NormalizeKey("AB") == "ab" && NormalizeKey("A-B") == "ab"
    ensures WalkMatches("AB", "XAB") && !WalkMatches("A-B", "XAB")
  {
    ExactWithoutWalk();
    assert Lower("XAB") == "xab" && Lower("AB") == "ab" && Lower("A-B") == "a-b";
    FilterAll(c => c != '-', "xab");
    FilterAll(c => c != ' ', "xab");
    FilterAll(c => c != '-', "ab");
    FilterAll(c => c != ' ', "ab");
    WalkIsLeftmost([1, 2], "ab", "xab");
    TwinsReject("A-B", "XAB");
    assert Lower("A-B")[1] == '-' && Lower("XAB")[1] == 'a';
  }

  // A typed model that is on the PO is received, as some model with its key, exactly when the
  // unclaimed models with its key are one.
  lemma TypedIsReceivedIff(typed: string, rows: seq<InventoryRow>)
    requires CheckModelOnPo(typed, rows)
    ensures MatchedRow(typed, rows).Some?
       <==> OneModelFor(typed, rows)
  {
    var all := set r | r in rows;
    MatchedRowMeaning(typed, rows, all);
    var r0 :| r0 in rows && ExactModelMatch(typed, r0.modelNumber);
    if OneModelFor(typed, rows) {
      assert BindsTo(typed, all, r0.modelNumber);
    }
  }
}
