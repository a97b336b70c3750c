/** adapters/ui: ReceivingUI, the window whose methods the toolkit calls one at a time. */
module ScannerUi {
  import opened Wrappers
  import opened Text
  import opened ModelResolution
  import opened ScanDispatch
  import opened S = ScannerStates
  import opened ScannerRuns
  import opened ScannerHistory

  class ReceivingUI {
    var phase: Phase
    var currentPo: string
    var activePos: seq<string>
    var modelScan: Option<string>
    var pendingBarcode: Option<string>
    var proposedModel: Option<string>
    var resetShown: bool
    var manualShown: bool
    var needsShown: bool
    var posted: Option<Callback>
    var timers: nat
    var resolutions: seq<ResolutionJob>
    var matches: seq<MatchJob>
    var calls: seq<MatchJob>
    var saves: seq<Mapping>
    ghost var history: seq<Event>  // the events handled so far

    ghost function View(): Ui
      reads this
    {
      Ui(phase, currentPo, activePos, modelScan, pendingBarcode, proposedModel, resetShown, manualShown,
         needsShown, posted, timers, resolutions, matches, calls, saves)
    }

    // The window is where its history leads.
    ghost predicate Valid()
      reads this
    {
      Legal(history) && Reach(history) == View()
    }

    // What every history guarantees of the window.
    ghost predicate Safe()
      requires Legal(history)
      reads this
    {
      && Sound(View())
      && (phase.Propose? ==> LastProposal(history).Some?
                             && pendingBarcode == Some(LastProposal(history).value.barcode)
                             && proposedModel == Some(LastProposal(history).value.model))
      && (modelScan.Some? ==> SourcedSomewhere(history, modelScan.value))
      && (forall j | 0 <= j < |calls| :: SourcedSomewhere(history, calls[j].model) && IsPoNumber(calls[j].po))
    }

    lemma ValidIsSafe()
      requires Valid()
      ensures Safe()
    {
      ReachableIsSound(history);
      ModelsAreSourced(history);
      if phase.Propose? {
        ProposeIsOneVerdict(history);
      }
    }

    constructor ()
      ensures View() == INITIAL && history == [] && Valid() && Safe()
    {
      phase, currentPo, activePos := Idle, "", [];
      modelScan, pendingBarcode, proposedModel := None, None, None;
      resetShown, manualShown, needsShown := false, false, false;
      posted, timers, resolutions, matches, calls, saves := None, 0, [], [], [], [];
      history := [];
      new;
      ValidIsSafe();
    }

    // ---- State entry --------------------------------------------------------------------

    method EnterIdle()
      modifies this
      ensures View() == S.SetIdle(old(View()))
      ensures history == old(history)
    {
      phase, modelScan := Idle, None;
      manualShown, resetShown := false, false;
    }

    method EnterMidScan()
      modifies this
      ensures View() == S.SetMidScan(old(View()))
      ensures history == old(history)
    {
      phase, resetShown := MidScan, true;
    }

    method EnterPropose(raw: string, model: string)
      modifies this
      ensures View() == S.SetPropose(old(View()), raw, model)
      ensures history == old(history)
    {
      phase, pendingBarcode, proposedModel := Propose, Some(raw), Some(model);
      resetShown := true;
    }

    method EnterNeedsModel(raw: string)
      modifies this
      ensures View() == S.SetNeedsModel(old(View()), raw)
      ensures history == old(history)
    {
      phase, pendingBarcode := Phase.NeedsModel, Some(raw);
      resetShown, needsShown := false, true;
    }

    method StartMatch(model: string, serial: string, po: string)
      modifies this
      ensures View() == S.Launch(old(View()), MatchJob(model, serial, po))
      ensures history == old(history)
    {
      phase := Matching;
      matches, calls := matches + [MatchJob(model, serial, po)], calls + [MatchJob(model, serial, po)];
    }

    // ---- Handlers -------------------------------------------------------------------------

    method OnScan(raw: string)
      modifies this
      ensures View() == S.OnScan(old(View()), raw)
      ensures history == old(history)
    {
      var action := DecideScanAction(phase, Strip(raw), currentPo != "", true, activePos);
      match action {
        case Turnstile(barcode) => posted := Some(ProposeScan(barcode));
        case PoSwitch(po) => posted := Some(LockPo(po));
        case Resolve(barcode) =>
          pendingBarcode, phase := Some(barcode), Resolving;
          resolutions := resolutions + [ResolutionJob(barcode, currentPo)];
        case SerialMatch(serial) => StartMatch(OrEmpty(modelScan), serial, currentPo);
        case _ =>
      }
    }

    method HandleProposeScan(incoming: string)
      modifies this
      ensures View() == S.HandleProposeScan(old(View()), incoming)
      ensures history == old(history)
    {
      if pendingBarcode == Some(incoming) {
        modelScan := Some(OrEmpty(proposedModel));
        EnterMidScan();
      }
    }

    method LockCurrentPo(po: string)
      modifies this
      ensures View() == S.SetIdle(old(View()).(currentPo := po))
      ensures history == old(history)
    {
      currentPo, modelScan := po, None;
      EnterIdle();
    }

    // The toolkit takes the posted callback off its queue.
    method RunPosted()
      modifies this
      ensures View() == S.RunPosted(old(View()))
      ensures history == old(history)
    {
      var callback := posted;
      posted := None;
      match callback {
        case Some(ProposeScan(incoming)) => HandleProposeScan(incoming);
        case Some(LockPo(po)) => LockCurrentPo(po);
        case None =>
      }
    }

    method ApplyVerdict(result: ModelScanResult, raw: string)
      modifies this
      ensures View() == S.ApplyVerdict(old(View()), result, raw)
      ensures history == old(history)
    {
      match result {
        case AutoModel(model) =>
          modelScan := Some(model);
          EnterMidScan();
        case ProposeModel(model) =>
          proposedModel := Some(model);
          EnterPropose(raw, model);
        case NeedsModel =>
          EnterNeedsModel(raw);
      }
    }

    method EndResolution(k: nat, result: Option<ModelScanResult>)
      requires k < |resolutions|
      modifies this
      ensures View() == S.EndResolution(old(View()), k, result)
      ensures history == old(history)
    {
      var job := resolutions[k];
      resolutions := Without(resolutions, k);
      if result.Some? {
        ApplyVerdict(result.value, job.barcode);
      } else {
        EnterIdle();
      }
    }

    method ApplyOutcome(outcome: ScanOutcome)
      modifies this
      ensures View() == S.ApplyOutcome(old(View()), outcome)
      ensures history == old(history)
    {
      match outcome {
        case Received =>
          phase, modelScan := MatchFound, None;
          timers := timers + 1;
        case Unmatched =>
          phase, resetShown := NoMatch, true;
        case Already =>
          phase, modelScan, resetShown := AlreadyScanned, None, false;
          timers := timers + 1;
        case LabelFailed =>
          phase, resetShown := PrintFailed, true;
      }
    }

    method EndMatch(k: nat, outcome: Option<ScanOutcome>)
      requires k < |matches|
      modifies this
      ensures View() == S.EndMatch(old(View()), k, outcome)
      ensures history == old(history)
    {
      matches := Without(matches, k);
      if outcome.Some? {
        ApplyOutcome(outcome.value);
      } else {
        EnterIdle();
      }
    }

    method DismissNoMatch()
      modifies this
      ensures View() == S.Dismiss(old(View()))
      ensures history == old(history)
    {
      if phase.NoMatch? || phase.PrintFailed? || phase.AlreadyScanned? || phase.Propose? || phase.NeedsModel? {
        needsShown := false;
        EnterIdle();
      } else if phase.SyncStopped? {
        EnterIdle();
      }
    }

    method OnNeedsModelSubmit(text: string, checked: Option<bool>)
      modifies this
      ensures View() == S.OnNeedsModelSubmit(old(View()), text, checked)
      ensures history == old(history)
    {
      var model := Strip(text);
      needsShown := false;
      if model == "" {
        EnterNeedsModel(OrEmpty(pendingBarcode));
        return;
      }
      if currentPo == "" {
        EnterIdle();
        return;
      }
      saves := saves + [Mapping(OrEmpty(pendingBarcode), model)];
      if checked.None? {
        return;
      }
      if checked.value {
        modelScan := Some(model);
        EnterMidScan();
      } else {
        StartMatch(model, "", currentPo);
      }
    }

    method ShowManualEntry()
      modifies this
      ensures View() == S.ShowManualEntry(old(View()))
      ensures history == old(history)
    {
      if !(phase.Idle? || phase.MatchFound?) {
        return;
      }
      if currentPo == "" {
        return;
      }
      manualShown := true;
    }

    method OnManualSubmit(modelText: string, serialText: string)
      modifies this
      ensures View() == S.OnManualSubmit(old(View()), modelText, serialText)
      ensures history == old(history)
    {
      var model := Strip(modelText);
      manualShown := false;
      if model == "" || currentPo == "" {
        return;
      }
      modelScan := Some(model);
      StartMatch(model, Strip(serialText), currentPo);
    }

    method AddPo(po: string)
      modifies this
      ensures View() == S.AddPo(old(View()), po)
      ensures history == old(history)
    {
      if po !in activePos {
        activePos := activePos + [po];
      }
      currentPo := po;
      EnterIdle();
    }

    method AlertStop()
      modifies this
      ensures View() == S.AlertStop(old(View()))
      ensures history == old(history)
    {
      if !phase.SyncStopped? && !phase.Matching? {
        phase, resetShown := SyncStopped, false;
      }
    }

    // ---- The event loop -------------------------------------------------------------------------

    method Perform(e: Event)
      requires Enabled(View(), e)
      modifies this
      ensures View() == Next(old(View()), e)
      ensures history == old(history)
    {
      match e {
        case Scanned(raw) => OnScan(raw);
        case Escape => DismissNoMatch();
        case Reset => EnterIdle();
        case ManualOpened => ShowManualEntry();
        case ManualCancelled => manualShown := false;
        case ManualSubmitted(model, serial) => OnManualSubmit(model, serial);
        case ModelTyped(text, checked) => OnNeedsModelSubmit(text, checked);
        case PostedRuns => RunPosted();
        case VerdictArrives(k, result) => EndResolution(k, result);
        case OutcomeArrives(k, outcome) => EndMatch(k, outcome);
        case TimerExpires =>
          timers := timers - 1;
          EnterIdle();
        case PoLoaded(po) => AddPo(po);
        case StopSeen => AlertStop();
      }
    }

    // One enabled event: the window takes the machine's step, and stays safe.
    method Handle(e: Event)
      requires Valid() && Enabled(View(), e)
      modifies this
      ensures Valid() && history == old(history) + [e] && View() == Next(old(View()), e)
      ensures Safe()
    {
      Extend(history, e);
      Perform(e);
      history := history + [e];
      ValidIsSafe();
    }
  }
}
