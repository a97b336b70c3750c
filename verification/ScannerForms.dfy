/** adapters/ui: the entry form of NEEDS_MODEL, and what is learned from it. */
module ScannerForms {
  import opened Wrappers
  import opened Text
  import opened ModelResolution
  import opened ScanDispatch
  import opened ScannerStates
  import opened ScannerRuns
  import opened ScannerHistory
  import opened ScannerOrder

  // ---- Typed models ----------------------------------------------------------------------------------------

  predicate NeedsMoves(ui: Ui, e: Event, next: Ui)
    requires Enabled(ui, e)
  {
    next.phase.NeedsModel? ==>
      if IsVerdict(e) then e.result.value.NeedsModel? && next.pendingBarcode == Some(ui.resolutions[e.k].barcode)
      else if e.ModelTyped? && Strip(e.text) == "" then next.pendingBarcode == Some(OrEmpty(ui.pendingBarcode))
      else ui.phase.NeedsModel? && next.pendingBarcode == ui.pendingBarcode
  }

  lemma UserNeedsChange(ui: Ui, e: Event)
    requires Enabled(ui, e) && ByUser(e)
    ensures NeedsMoves(ui, e, Next(ui, e))
  {
  }

  lemma OtherNeedsChange(ui: Ui, e: Event)
    requires Enabled(ui, e) && !ByUser(e)
    ensures NeedsMoves(ui, e, Next(ui, e))
  {
  }

  lemma {:induction false} NeedsModelIsAsked(run: seq<Event>)
    requires Legal(run)
    ensures Reach(run).phase.NeedsModel? ==> AskedFor(run).Some? && Reach(run).pendingBarcode == AskedFor(run)
    decreases |run|
  {
    if run != [] {
      NeedsModelIsAsked(Init(run));
      var ui, e := Reach(Init(run)), Last(run);
      if ByUser(e) { UserNeedsChange(ui, e); } else { OtherNeedsChange(ui, e); }
    }
  }

  // What an event sets the pending barcode to, if it sets it.
  function SetsPending(ui: Ui, e: Event): Option<string>
    requires Enabled(ui, e)
  {
    if e.Scanned? && DecideScanAction(ui.phase, Strip(e.raw), ui.currentPo != "", true, ui.activePos).Resolve?
    then Some(Strip(e.raw))
    else if IsVerdict(e) && !e.result.value.AutoModel? then Some(ui.resolutions[e.k].barcode)
    else if e.ModelTyped? && Strip(e.text) == "" then Some(OrEmpty(ui.pendingBarcode))
    else None
  }

  // What the last event to set the pending barcode set it to.
  ghost function LastSet(run: seq<Event>): Option<string>
    requires Legal(run)
    decreases |run|
  {
    if run == [] then None
    else if SetsPending(Reach(Init(run)), Last(run)).Some? then SetsPending(Reach(Init(run)), Last(run))
    else LastSet(Init(run))
  }

  predicate SetMoves(ui: Ui, e: Event, next: Ui)
    requires Enabled(ui, e)
  {
    && next.pendingBarcode == (if SetsPending(ui, e).Some? then SetsPending(ui, e) else ui.pendingBarcode)
    && (next.needsShown ==> ui.needsShown || (IsVerdict(e) && e.result.value.NeedsModel?)
                            || (e.ModelTyped? && Strip(e.text) == ""))
  }

  lemma UserSetChange(ui: Ui, e: Event)
    requires Enabled(ui, e) && ByUser(e)
    ensures SetMoves(ui, e, Next(ui, e))
  {
  }

  lemma OtherSetChange(ui: Ui, e: Event)
    requires Enabled(ui, e) && !ByUser(e)
    ensures SetMoves(ui, e, Next(ui, e))
  {
  }

  lemma {:induction false} PendingIsLastSet(run: seq<Event>)
    requires Legal(run)
    ensures Reach(run).pendingBarcode == LastSet(run)
    ensures Reach(run).needsShown ==> AskedFor(run).Some? && LastSet(run).Some?
    decreases |run|
  {
    if run != [] {
      PendingIsLastSet(Init(run));
      var ui, e := Reach(Init(run)), Last(run);
      if ByUser(e) { UserSetChange(ui, e); } else { OtherSetChange(ui, e); }
    }
  }

  predicate Learns(ui: Ui, e: Event) {
    e.ModelTyped? && Strip(e.text) != "" && ui.currentPo != ""
  }

  // A typed model is learned for the barcode the form was opened for exactly when the last event to set
  // the pending barcode set it to that one. It has in NEEDS_MODEL.
  lemma TypedModelIsLearnedIff(run: seq<Event>, text: string, checked: Option<bool>)
    requires Legal(run) && Enabled(Reach(run), ModelTyped(text, checked))
    requires Learns(Reach(run), ModelTyped(text, checked))
    ensures Legal(run + [ModelTyped(text, checked)]) && AskedFor(run).Some? && LastSet(run).Some?
    ensures Reach(run + [ModelTyped(text, checked)]).saves
         == Reach(run).saves + [Mapping(LastSet(run).value, Strip(text))]
    ensures LastSet(run) == AskedFor(run) <==>
              Reach(run + [ModelTyped(text, checked)]).saves
              == Reach(run).saves + [Mapping(AskedFor(run).value, Strip(text))]
    ensures Reach(run).phase.NeedsModel? ==> LastSet(run) == AskedFor(run)
  {
    PendingIsLastSet(run);
    NeedsModelIsAsked(run);
    var more := Grow(run, ModelTyped(text, checked));
    var asked, set0 := Mapping(AskedFor(run).value, Strip(text)), Mapping(LastSet(run).value, Strip(text));
    var was := Reach(run).saves;
    assert (was + [asked])[|was|] == asked && (was + [set0])[|was|] == set0;
  }

  ghost predicate EachLearnedForAsked(run: seq<Event>)
    requires Legal(run)
    decreases |run|
  {
    run == []
    || (EachLearnedForAsked(Init(run))
        && (Learns(Reach(Init(run)), Last(run)) ==>
              AskedFor(Init(run)).Some?
              && Reach(run).saves
              == Reach(Init(run)).saves + [Mapping(AskedFor(Init(run)).value, Strip(Last(run).text))]))
  }

  ghost predicate EachSetWasAsked(run: seq<Event>)
    requires Legal(run)
    decreases |run|
  {
    run == []
    || (EachSetWasAsked(Init(run))
        && (Learns(Reach(Init(run)), Last(run)) ==> LastSet(Init(run)) == AskedFor(Init(run))))
  }

  // Over a run, every typed model is learned for the barcode asked about exactly when that is the one
  // last set at every typing.
  lemma {:induction false} TypedModelsAreLearnedIff(run: seq<Event>)
    requires Legal(run)
    ensures EachLearnedForAsked(run) <==> EachSetWasAsked(run)
    decreases |run|
  {
    if run != [] {
      TypedModelsAreLearnedIff(Init(run));
      var ui, e := Reach(Init(run)), Last(run);
      if Learns(ui, e) {
        TypedModelIsLearnedIff(Init(run), e.text, e.checked);
        assert Init(run) + [ModelTyped(e.text, e.checked)] == run;
      }
    }
  }

  // In another state it need not be: loading a PO leaves the form open for B1, the next scan makes B2
  // the pending barcode, and what is then typed is learned for B2.
  lemma TypedModelLearnedForAnother() returns (run: seq<Event>)
    ensures Legal(run) && Reach(run).saves == [Mapping("B2", "M")] && AskedFor(run) == Some("B1")
  {
    assert Plain("B1") && Plain("B2") && Plain("M") && IsPoNumber("1");
    run := GrowPo([], "1");
    run := GrowModelScan(run, "B1");
    run := GrowVerdict(run, ModelScanResult.NeedsModel);
    run := GrowPo(run, "1");
    run := GrowModelScan(run, "B2");
    run := Grow(run, ModelTyped("M", Some(true)));
  }

  // ---- The entry form ------------------------------------------------------------------------------------------

  predicate FormOpen(ui: Ui) {
    ui.phase.NeedsModel? ==> ui.needsShown
  }

  // A typed model whose check against the PO raises.
  predicate CheckRaises(ui: Ui, e: Event) {
    ui.phase.NeedsModel? && e.ModelTyped? && Strip(e.text) != "" && ui.currentPo != "" && e.checked.None?
  }

  lemma UserFormChange(ui: Ui, e: Event)
    requires Enabled(ui, e) && ByUser(e) && FormOpen(ui)
    ensures FormOpen(Next(ui, e)) <==> !CheckRaises(ui, e)
  {
  }

  lemma OtherFormChange(ui: Ui, e: Event)
    requires Enabled(ui, e) && !ByUser(e) && FormOpen(ui)
    ensures FormOpen(Next(ui, e))
  {
  }

  ghost predicate AlwaysOpen(run: seq<Event>)
    requires Legal(run)
    decreases |run|
  {
    FormOpen(Reach(run)) && (run == [] || AlwaysOpen(Init(run)))
  }

  ghost predicate NoCheckRaises(run: seq<Event>)
    requires Legal(run)
    decreases |run|
  {
    run == [] || (NoCheckRaises(Init(run)) && !CheckRaises(Reach(Init(run)), Last(run)))
  }

  // NEEDS_MODEL blocks the scanner; the form that ends it is open throughout a run exactly when no check
  // of a model typed in that state raises.
  lemma {:induction false} FormStaysOpenIff(run: seq<Event>)
    requires Legal(run)
    ensures AlwaysOpen(run) <==> NoCheckRaises(run)
    decreases |run|
  {
    if run != [] {
      var ui, e := Reach(Init(run)), Last(run);
      FormStaysOpenIff(Init(run));
      if FormOpen(ui) {
        if ByUser(e) { UserFormChange(ui, e); } else { OtherFormChange(ui, e); }
      }
      assert !FormOpen(ui) ==> !AlwaysOpen(Init(run));
    }
  }

  // A check that raises closes the form and leaves the window blocked without it.
  lemma FailedCheckLosesForm() returns (run: seq<Event>)
    ensures Legal(run) && Reach(run).phase.NeedsModel? && !Reach(run).needsShown
  {
    assert Plain("B") && Plain("M") && IsPoNumber("1");
    run := GrowPo([], "1");
    run := GrowModelScan(run, "B");
    run := GrowVerdict(run, ModelScanResult.NeedsModel);
    run := Grow(run, ModelTyped("M", None));
  }
}
