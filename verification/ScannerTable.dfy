/** adapters/ui: what each event leaves of the window, written out. */
module ScannerTable {
  import opened Wrappers
  import opened Text
  import opened ModelResolution
  import opened ScanDispatch
  import opened ScannerStates

  // ---- Scans ---------------------------------------------------------------------------------------

  // A scan in PROPOSE only posts the turnstile; a busy or NEEDS_MODEL window ignores it.
  lemma BlockedScanLeaves(ui: Ui, raw: string)
    requires Enabled(ui, Scanned(raw))
    requires ui.phase.Propose? || ui.phase.NeedsModel? || ui.phase.Matching? || ui.phase.Resolving?
    ensures Next(ui, Scanned(raw)) == if ui.phase.Propose? then ui.(posted := Some(ProposeScan(Strip(raw)))) else ui
  {
  }

  // Elsewhere a label posts the switch if its PO is loaded, and nothing else happens.
  lemma LabelScanLeaves(ui: Ui, raw: string)
    requires Enabled(ui, Scanned(raw)) && IsPoLabel(Strip(raw))
    requires !ui.phase.Propose? && !ui.phase.NeedsModel? && !ui.phase.Matching? && !ui.phase.Resolving?
    ensures Next(ui, Scanned(raw))
         == if PoOfLabel(Strip(raw)) in ui.activePos then ui.(posted := Some(LockPo(PoOfLabel(Strip(raw))))) else ui
  {
  }

  // Any other text starts a resolution in IDLE and MATCH_FOUND under a PO, is the serial of a match in
  // MID_SCAN, and is dropped in every other state.
  lemma TextScanLeaves(ui: Ui, raw: string)
    requires Enabled(ui, Scanned(raw)) && !IsPoLabel(Strip(raw))
    requires !ui.phase.Propose? && !ui.phase.NeedsModel? && !ui.phase.Matching? && !ui.phase.Resolving?
    ensures var text, next := Strip(raw), Next(ui, Scanned(raw));
            && ((ui.phase.Idle? || ui.phase.MatchFound?) && ui.currentPo != "" ==>
                  next == ui.(phase := Resolving, pendingBarcode := Some(text),
                              resolutions := ui.resolutions + [ResolutionJob(text, ui.currentPo)]))
            && (ui.phase.MidScan? && ui.modelScan.Some? ==>
                  next == ui.(phase := Matching,
                              matches := ui.matches + [MatchJob(ui.modelScan.value, text, ui.currentPo)],
                              calls := ui.calls + [MatchJob(ui.modelScan.value, text, ui.currentPo)]))
            && (!ui.phase.MidScan? && !((ui.phase.Idle? || ui.phase.MatchFound?) && ui.currentPo != "") ==> next == ui)
  {
  }

  // ---- Workers -------------------------------------------------------------------------------------

  lemma VerdictLeaves(ui: Ui, k: nat, result: Option<ModelScanResult>)
    requires Enabled(ui, VerdictArrives(k, result))
    ensures var job, rest := ui.resolutions[k], ui.(resolutions := ui.resolutions[..k] + ui.resolutions[k + 1..]);
            Next(ui, VerdictArrives(k, result))
            == match result
               case None => rest.(phase := Idle, modelScan := None, manualShown := false, resetShown := false)
               case Some(AutoModel(m)) => rest.(phase := MidScan, modelScan := Some(m), resetShown := true)
               case Some(ProposeModel(m)) =>
                 rest.(phase := Propose, pendingBarcode := Some(job.barcode), proposedModel := Some(m),
                       resetShown := true)
               case Some(NeedsModel) =>
                 rest.(phase := Phase.NeedsModel, pendingBarcode := Some(job.barcode), resetShown := false,
                       needsShown := true)
  {
  }

  lemma OutcomeLeaves(ui: Ui, k: nat, outcome: Option<ScanOutcome>)
    requires Enabled(ui, OutcomeArrives(k, outcome))
    ensures var rest := ui.(matches := ui.matches[..k] + ui.matches[k + 1..]);
            Next(ui, OutcomeArrives(k, outcome))
            == match outcome
               case None => rest.(phase := Idle, modelScan := None, manualShown := false, resetShown := false)
               case Some(Received) => rest.(phase := MatchFound, modelScan := None, timers := ui.timers + 1)
               case Some(Unmatched) => rest.(phase := NoMatch, resetShown := true)
               case Some(Already) =>
                 rest.(phase := AlreadyScanned, modelScan := None, resetShown := false, timers := ui.timers + 1)
               case Some(LabelFailed) => rest.(phase := PrintFailed, resetShown := true)
  {
  }

  // ---- Callbacks, timers, POs, polls ----------------------------------------------------------------------

  // The posted callback: a re-scan of the pending barcode enters MID_SCAN with the model proposed, any
  // other is forgotten; a label switches the PO and goes to IDLE.
  lemma CallbackLeaves(ui: Ui)
    requires Enabled(ui, PostedRuns)
    ensures var idle := ui.(posted := None);
            Next(ui, PostedRuns)
            == match ui.posted.value
               case ProposeScan(incoming) =>
                 if ui.pendingBarcode == Some(incoming)
                 then idle.(phase := MidScan, resetShown := true,
                            modelScan := Some(if ui.proposedModel.Some? then ui.proposedModel.value else ""))
                 else idle
               case LockPo(po) =>
                 idle.(currentPo := po, phase := Idle, modelScan := None, manualShown := false, resetShown := false)
  {
  }

  lemma AmbientLeaves(ui: Ui, e: Event)
    requires Enabled(ui, e) && (e.TimerExpires? || e.PoLoaded? || e.StopSeen?)
    ensures Next(ui, e)
         == match e
            case TimerExpires =>
              ui.(timers := ui.timers - 1, phase := Idle, modelScan := None, manualShown := false, resetShown := false)
            case PoLoaded(po) =>
              ui.(currentPo := po, activePos := if po in ui.activePos then ui.activePos else ui.activePos + [po],
                  phase := Idle, modelScan := None, manualShown := false, resetShown := false)
            case _ =>
              if ui.phase.SyncStopped? || ui.phase.Matching? then ui
              else ui.(phase := SyncStopped, resetShown := false)
  {
  }

  // ---- Keys and forms -----------------------------------------------------------------------------------------

  // Esc leaves NO_MATCH, PRINT_FAILED, ALREADY_SCANNED, PROPOSE, NEEDS_MODEL and SYNC_STOPPED for IDLE, and
  // no other state; Reset leaves any.
  lemma DismissLeaves(ui: Ui)
    ensures var idle := ui.(phase := Idle, modelScan := None, manualShown := false, resetShown := false);
            && (ui.resetShown && ui.posted.None? ==> Enabled(ui, Reset) && Next(ui, Reset) == idle)
            && (ui.posted.None? ==>
                  Next(ui, Escape)
                  == if ui.phase.NoMatch? || ui.phase.PrintFailed? || ui.phase.AlreadyScanned? || ui.phase.Propose?
                        || ui.phase.NeedsModel?
                     then idle.(needsShown := false)
                     else if ui.phase.SyncStopped? then idle
                     else ui)
  {
  }

  // A typed model: blank asks again; without a PO it is dropped; otherwise it is learned for the pending
  // barcode and then held, if it is on the PO, or matched with a blank serial, if it is not.
  lemma TypedLeaves(ui: Ui, text: string, checked: Option<bool>)
    requires Enabled(ui, ModelTyped(text, checked))
    ensures var model, hidden := Strip(text), ui.(needsShown := false);
            var barcode := if ui.pendingBarcode.Some? then ui.pendingBarcode.value else "";
            var saved := hidden.(saves := ui.saves + [Mapping(barcode, model)]);
            Next(ui, ModelTyped(text, checked))
            == if model == ""
               then ui.(phase := Phase.NeedsModel, pendingBarcode := Some(barcode), resetShown := false,
                        needsShown := true)
               else if ui.currentPo == ""
               then hidden.(phase := Idle, modelScan := None, manualShown := false, resetShown := false)
               else if checked == None then saved
               else if checked == Some(true)
               then saved.(phase := MidScan, modelScan := Some(model), resetShown := true)
               else saved.(phase := Matching, matches := ui.matches + [MatchJob(model, "", ui.currentPo)],
                           calls := ui.calls + [MatchJob(model, "", ui.currentPo)])
  {
  }

  lemma ManualLeaves(ui: Ui, m: string, s: string)
    requires Enabled(ui, ManualSubmitted(m, s))
    ensures Next(ui, ManualSubmitted(m, s))
         == if Strip(m) == "" || ui.currentPo == "" then ui.(manualShown := false)
            else ui.(manualShown := false, modelScan := Some(Strip(m)), phase := Matching,
                     matches := ui.matches + [MatchJob(Strip(m), Strip(s), ui.currentPo)],
                     calls := ui.calls + [MatchJob(Strip(m), Strip(s), ui.currentPo)])
  {
  }

  lemma ManualFormLeaves(ui: Ui)
    requires ui.posted.None?
    ensures Next(ui, ManualOpened)
         == if (ui.phase.Idle? || ui.phase.MatchFound?) && ui.currentPo != "" then ui.(manualShown := true) else ui
    ensures ui.manualShown ==> Next(ui, ManualCancelled) == ui.(manualShown := false)
  {
  }
}
