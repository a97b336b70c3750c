/** adapters/ui: on which PO a scanned model is received. */
module ScannerPos {
  import opened Wrappers
  import opened Text
  import opened ModelResolution
  import opened ScanDispatch
  import opened ScannerStates
  import opened ScannerRuns
  import opened ScannerHistory
  import opened ScannerOrder

  // ---- The PO behind the model in MID_SCAN -------------------------------------------------------------

  // The events that enter MID_SCAN, and the model they bring.
  predicate Enters(ui: Ui, e: Event)
    requires Enabled(ui, e)
  {
    || (IsVerdict(e) && e.result.value.AutoModel?)
    || (e.ModelTyped? && Strip(e.text) != "" && ui.currentPo != "" && e.checked == Some(true))
    || (e.PostedRuns? && ui.posted.value.ProposeScan? && ui.pendingBarcode == Some(ui.posted.value.incoming))
  }

  function EnteringModel(ui: Ui, e: Event): string
    requires Enabled(ui, e) && Enters(ui, e)
  {
    if e.VerdictArrives? then e.result.value.model
    else if e.ModelTyped? then Strip(e.text)
    else OrEmpty(ui.proposedModel)
  }

  // The PO that speaks for it: where the verdict was asked, where the model was typed, where the last
  // proposal was resolved.
  ghost function EnteringPo(before: seq<Event>, e: Event): string
    requires Legal(before) && Enabled(Reach(before), e) && Enters(Reach(before), e)
  {
    if e.VerdictArrives? then Reach(before).resolutions[e.k].po
    else if e.ModelTyped? then Reach(before).currentPo
    else if LastProposal(before).Some? then LastProposal(before).value.po
    else ""
  }

  // The PO that spoke for the model MID_SCAN holds.
  ghost function HeldPo(run: seq<Event>): string
    requires Legal(run)
    decreases |run|
  {
    if run == [] then ""
    else if Enters(Reach(Init(run)), Last(run)) then EnteringPo(Init(run), Last(run))
    else HeldPo(Init(run))
  }

  // MID_SCAN was last entered on the PO that speaks for its model.
  ghost predicate EnteredOnItsPo(run: seq<Event>)
    requires Legal(run)
    decreases |run|
  {
    run != []
    && if Enters(Reach(Init(run)), Last(run)) then EnteringPo(Init(run), Last(run)) == Reach(Init(run)).currentPo
       else EnteredOnItsPo(Init(run))
  }

  predicate MidScanKeeps(ui: Ui, e: Event, next: Ui)
    requires Enabled(ui, e)
  {
    next.phase.MidScan? ==>
      && next.currentPo == ui.currentPo
      && if Enters(ui, e) then next.modelScan == Some(EnteringModel(ui, e))
         else ui.phase.MidScan? && next.modelScan == ui.modelScan
  }

  lemma UserMidScanKeeps(ui: Ui, e: Event)
    requires Enabled(ui, e) && ByUser(e)
    ensures MidScanKeeps(ui, e, Next(ui, e))
  {
  }

  lemma OtherMidScanKeeps(ui: Ui, e: Event)
    requires Enabled(ui, e) && !ByUser(e)
    ensures MidScanKeeps(ui, e, Next(ui, e))
  {
  }

  ghost predicate HeldRight(run: seq<Event>)
    requires Legal(run)
  {
    var ui := Reach(run);
    ui.phase.MidScan? ==>
      && ui.modelScan.Some? && Sourced(run, ui.modelScan.value, HeldPo(run))
      && (HeldPo(run) == ui.currentPo <==> EnteredOnItsPo(run))
  }

  lemma EnteringVouches(run: seq<Event>)
    requires run != [] && Legal(run) && ProposalHeld(Init(run)) && ConfirmationHeld(Init(run))
    requires Enters(Reach(Init(run)), Last(run))
    ensures Sourced(run, EnteringModel(Reach(Init(run)), Last(run)), HeldPo(run))
  {
    assert Vouches(Init(run), Last(run), EnteringModel(Reach(Init(run)), Last(run)), HeldPo(run));
  }

  lemma HeldRightKept(run: seq<Event>)
    requires run != [] && Legal(run) && HeldRight(Init(run)) && ProposalHeld(Init(run)) && ConfirmationHeld(Init(run))
    ensures HeldRight(run)
  {
    var ui, e := Reach(Init(run)), Last(run);
    if ByUser(e) { UserMidScanKeeps(ui, e); } else { OtherMidScanKeeps(ui, e); }
    if Enters(ui, e) {
      EnteringVouches(run);
    }
  }

  // In MID_SCAN the model held was vouched for on HeldPo, which is the PO in use exactly when MID_SCAN
  // was entered on it.
  lemma {:induction false} MidScanPoIff(run: seq<Event>)
    requires Legal(run)
    ensures HeldRight(run)
    decreases |run|
  {
    if run != [] {
      MidScanPoIff(Init(run));
      ProposalsAreHeld(Init(run));
      HeldRightKept(run);
    }
  }

  // A serial scan: `process` is called with the PO in use.
  predicate CallsWithSerial(ui: Ui, e: Event) {
    ui.phase.MidScan? && e.Scanned? && !IsPoLabel(Strip(e.raw))
  }

  // The call carries a PO its model was vouched for on exactly when MID_SCAN was entered on it.
  lemma CallKeepsItsPoIff(run: seq<Event>, raw: string)
    requires Legal(run) && Enabled(Reach(run), Scanned(raw)) && CallsWithSerial(Reach(run), Scanned(raw))
    ensures Legal(run + [Scanned(raw)])
    ensures var ui, job := Reach(run), MatchJob(OrEmpty(Reach(run).modelScan), Strip(raw), Reach(run).currentPo);
            && Reach(run + [Scanned(raw)]).calls == ui.calls + [job]
            && Sourced(run, job.model, HeldPo(run))
            && (job.po == HeldPo(run) <==> EnteredOnItsPo(run))
  {
    MidScanPoIff(run);
    Extend(run, Scanned(raw));
  }

  ghost predicate EachCallOnItsPo(run: seq<Event>)
    requires Legal(run)
    decreases |run|
  {
    run == []
    || (EachCallOnItsPo(Init(run))
        && (CallsWithSerial(Reach(Init(run)), Last(run)) ==> Reach(Init(run)).currentPo == HeldPo(Init(run))))
  }

  ghost predicate EachEntryOnItsPo(run: seq<Event>)
    requires Legal(run)
    decreases |run|
  {
    run == []
    || (EachEntryOnItsPo(Init(run))
        && (CallsWithSerial(Reach(Init(run)), Last(run)) ==> EnteredOnItsPo(Init(run))))
  }

  // Every serial of a run is received on a PO its model was vouched for on exactly when every MID_SCAN
  // that led to one was entered on that PO.
  lemma {:induction false} CallsKeepTheirPoIff(run: seq<Event>)
    requires Legal(run)
    ensures EachCallOnItsPo(run) <==> EachEntryOnItsPo(run)
    decreases |run|
  {
    if run != [] {
      CallsKeepTheirPoIff(Init(run));
      MidScanPoIff(Init(run));
    }
  }

  // ---- Late verdicts and stale callbacks ---------------------------------------------------------------

  // An AUTO or PROPOSE verdict lands on another PO than it was asked on, or a re-scan confirms what was
  // proposed on another PO.
  ghost predicate Crosses(before: seq<Event>, e: Event)
    requires Legal(before) && Enabled(Reach(before), e)
  {
    var ui := Reach(before);
    || (IsVerdict(e) && !e.result.value.NeedsModel? && ui.resolutions[e.k].po != ui.currentPo)
    || (e.PostedRuns? && Enters(ui, e) && EnteringPo(before, e) != ui.currentPo)
  }

  // What MID_SCAN holds or PROPOSE shows belongs to the PO in use.
  ghost predicate OnItsPo(run: seq<Event>)
    requires Legal(run)
  {
    var ui, last := Reach(run), LastProposal(run);
    && (ui.phase.MidScan? ==> HeldPo(run) == ui.currentPo)
    && (ui.phase.Propose? ==> last.Some? && last.value.po == ui.currentPo)
  }

  predicate ProposeKeeps(ui: Ui, e: Event, next: Ui)
    requires Enabled(ui, e)
  {
    && (next.phase.Propose? ==> next.currentPo == ui.currentPo && (IsVerdict(e) || ui.phase.Propose?))
    && (IsVerdict(e) && e.result.value.ProposeModel? ==> next.phase.Propose?)
    && (Enters(ui, e) ==> next.phase.MidScan?)
  }

  lemma UserProposeKeeps(ui: Ui, e: Event)
    requires Enabled(ui, e) && ByUser(e)
    ensures ProposeKeeps(ui, e, Next(ui, e))
  {
  }

  lemma OtherProposeKeeps(ui: Ui, e: Event)
    requires Enabled(ui, e) && !ByUser(e)
    ensures ProposeKeeps(ui, e, Next(ui, e))
  {
  }

  lemma OnItsPoKeptIff(run: seq<Event>)
    requires run != [] && Legal(run) && OnItsPo(Init(run))
    ensures OnItsPo(run) <==> !Crosses(Init(run), Last(run))
  {
    var ui, e := Reach(Init(run)), Last(run);
    if ByUser(e) {
      UserMidScanKeeps(ui, e);
      UserProposeKeeps(ui, e);
      UserProposeChange(ui, e);
    } else {
      OtherMidScanKeeps(ui, e);
      OtherProposeKeeps(ui, e);
      OtherProposeChange(ui, e);
    }
  }

  ghost predicate AlwaysOnItsPo(run: seq<Event>)
    requires Legal(run)
    decreases |run|
  {
    OnItsPo(run) && (run == [] || AlwaysOnItsPo(Init(run)))
  }

  ghost predicate NeverCrosses(run: seq<Event>)
    requires Legal(run)
    decreases |run|
  {
    run == [] || (NeverCrosses(Init(run)) && !Crosses(Init(run), Last(run)))
  }

  ghost predicate CallsOnPo(run: seq<Event>)
    requires Legal(run)
  {
    forall j | 0 <= j < |Reach(run).calls| :: Sourced(run, Reach(run).calls[j].model, Reach(run).calls[j].po)
  }

  lemma CallsOnPoKept(run: seq<Event>)
    requires run != [] && Legal(run) && CallsOnPo(Init(run)) && OnItsPo(Init(run)) && HeldRight(Init(run))
    ensures CallsOnPo(run)
  {
    var ui, e := Reach(Init(run)), Last(run);
    if ByUser(e) { UserCallChange(ui, e); } else { OtherCallChange(ui, e); }
    forall j | 0 <= j < |Next(ui, e).calls|
      ensures Sourced(run, Next(ui, e).calls[j].model, Next(ui, e).calls[j].po)
    {
      var job := Next(ui, e).calls[j];
      if j < |ui.calls| || e.Scanned? {
        assert Sourced(Init(run), job.model, job.po);
      } else {
        assert Vouches(Init(run), e, job.model, job.po);
      }
    }
  }

  // MID_SCAN and PROPOSE belong to the PO in use throughout a run exactly when no verdict and no
  // confirmation crosses; then every call of `process`, scanned or typed, carries a PO its model was
  // vouched for on.
  lemma {:induction false} AlwaysOnItsPoIff(run: seq<Event>)
    requires Legal(run)
    ensures AlwaysOnItsPo(run) <==> NeverCrosses(run)
    ensures NeverCrosses(run) ==> CallsOnPo(run)
    decreases |run|
  {
    if run != [] {
      AlwaysOnItsPoIff(Init(run));
      MidScanPoIff(Init(run));
      if OnItsPo(Init(run)) {
        OnItsPoKeptIff(run);
      }
      assert !OnItsPo(Init(run)) ==> !AlwaysOnItsPo(Init(run));
      if NeverCrosses(run) {
        CallsOnPoKept(run);
      }
    }
  }

  // Without that, a verdict asked on PO 1 can land after PO 2 was loaded, and its model be received on
  // PO 2, for which nothing vouches.
  lemma LateVerdictCrossesPo() returns (run: seq<Event>)
    ensures Legal(run) && Reach(run).calls == [MatchJob("M", "S", "2")]
    ensures Sourced(run, "M", "1") && !Sourced(run, "M", "2")
  {
    assert Plain("B") && Plain("S") && IsPoNumber("1") && IsPoNumber("2");
    run := GrowPo([], "1");
    run := GrowModelScan(run, "B");
    run := GrowPo(run, "2");
    run := GrowVerdict(run, AutoModel("M"));
    run := GrowSerialScan(run, "S");
  }
}
