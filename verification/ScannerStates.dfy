/** adapters/ui: the receiving window as a value, and its transitions. Widgets are erased. */
module ScannerStates {
  import opened Wrappers
  import opened Text
  import opened ModelResolution
  import opened ScanDispatch

  // A worker thread's arguments.
  datatype ResolutionJob = ResolutionJob(barcode: string, po: string)
  datatype MatchJob = MatchJob(model: string, serial: string, po: string)

  // A learned mapping handed to the repository.
  datatype Mapping = Mapping(barcode: string, model: string)

  // A scan's `after(0)` callback; the others change no state.
  datatype Callback = ProposeScan(incoming: string) | LockPo(po: string)

  datatype ScanOutcome = Received | Unmatched | Already | LabelFailed

  datatype Ui = Ui(
    phase: Phase, currentPo: string, activePos: seq<string>,
    modelScan: Option<string>, pendingBarcode: Option<string>, proposedModel: Option<string>,
    resetShown: bool, manualShown: bool, needsShown: bool,
    posted: Option<Callback>, timers: nat,
    resolutions: seq<ResolutionJob>, matches: seq<MatchJob>,  // workers in flight
    calls: seq<MatchJob>, saves: seq<Mapping>)                // every call of `process` and `save_mapping`

  const INITIAL := Ui(Idle, "", [], None, None, None, false, false, false, None, 0, [], [], [], [])

  function OrEmpty(s: Option<string>): string {
    if s.Some? then s.value else ""
  }

  function Without<T>(s: seq<T>, k: nat): seq<T>
    requires k < |s|
  {
    s[..k] + s[k + 1..]
  }

  // ---- State entry --------------------------------------------------------------------------

  function SetIdle(ui: Ui): Ui {
    ui.(phase := Idle, modelScan := None, manualShown := false, resetShown := false)
  }

  function SetMidScan(ui: Ui): Ui {
    ui.(phase := MidScan, resetShown := true)
  }

  function SetPropose(ui: Ui, raw: string, model: string): Ui {
    ui.(phase := Propose, pendingBarcode := Some(raw), proposedModel := Some(model), resetShown := true)
  }

  function SetNeedsModel(ui: Ui, raw: string): Ui {
    ui.(phase := Phase.NeedsModel, pendingBarcode := Some(raw), resetShown := false, needsShown := true)
  }

  function Launch(ui: Ui, job: MatchJob): Ui {
    ui.(phase := Matching, matches := ui.matches + [job], calls := ui.calls + [job])
  }

  // ---- Handlers -----------------------------------------------------------------------------

  function OnScan(ui: Ui, raw: string): Ui {
    match DecideScanAction(ui.phase, Strip(raw), ui.currentPo != "", true, ui.activePos)
    case Turnstile(b) => ui.(posted := Some(ProposeScan(b)))
    case PoSwitch(po) => ui.(posted := Some(LockPo(po)))
    case Resolve(b) =>
      ui.(pendingBarcode := Some(b), phase := Resolving,
          resolutions := ui.resolutions + [ResolutionJob(b, ui.currentPo)])
    case SerialMatch(s) => Launch(ui, MatchJob(OrEmpty(ui.modelScan), s, ui.currentPo))
    case _ => ui
  }

  function HandleProposeScan(ui: Ui, incoming: string): Ui {
    if ui.pendingBarcode == Some(incoming) then
      SetMidScan(ui.(modelScan := Some(OrEmpty(ui.proposedModel))))
    else ui
  }

  function RunPosted(ui: Ui): Ui {
    var idle := ui.(posted := None);
    match ui.posted
    case Some(ProposeScan(b)) => HandleProposeScan(idle, b)
    case Some(LockPo(po)) => SetIdle(idle.(currentPo := po))
    case None => idle
  }

  function ApplyVerdict(ui: Ui, result: ModelScanResult, raw: string): Ui {
    match result
    case AutoModel(m) => SetMidScan(ui.(modelScan := Some(m)))
    case ProposeModel(m) => SetPropose(ui, raw, m)
    case NeedsModel => SetNeedsModel(ui, raw)
  }

  // A resolution worker ends; None is an exception in the resolver.
  function EndResolution(ui: Ui, k: nat, result: Option<ModelScanResult>): Ui
    requires k < |ui.resolutions|
  {
    var rest := ui.(resolutions := Without(ui.resolutions, k));
    if result.Some? then ApplyVerdict(rest, result.value, ui.resolutions[k].barcode) else SetIdle(rest)
  }

  function ApplyOutcome(ui: Ui, outcome: ScanOutcome): Ui {
    match outcome
    case Received => ui.(phase := MatchFound, modelScan := None, timers := ui.timers + 1)
    case Unmatched => ui.(phase := NoMatch, resetShown := true)
    case Already => ui.(phase := AlreadyScanned, modelScan := None, resetShown := false, timers := ui.timers + 1)
    case LabelFailed => ui.(phase := PrintFailed, resetShown := true)
  }

  // A match worker ends; None is an exception in `process`.
  function EndMatch(ui: Ui, k: nat, outcome: Option<ScanOutcome>): Ui
    requires k < |ui.matches|
  {
    var rest := ui.(matches := Without(ui.matches, k));
    if outcome.Some? then ApplyOutcome(rest, outcome.value) else SetIdle(rest)
  }

  function Dismiss(ui: Ui): Ui {
    match ui.phase
    case NoMatch => SetIdle(ui.(needsShown := false))
    case PrintFailed => SetIdle(ui.(needsShown := false))
    case AlreadyScanned => SetIdle(ui.(needsShown := false))
    case Propose => SetIdle(ui.(needsShown := false))
    case NeedsModel => SetIdle(ui.(needsShown := false))
    case SyncStopped => SetIdle(ui)
    case _ => ui
  }

  // `checked` is what check_model_on_po says, None when it raises; a failing save is only logged.
  function OnNeedsModelSubmit(ui: Ui, text: string, checked: Option<bool>): Ui {
    var model, hidden := Strip(text), ui.(needsShown := false);
    if model == "" then SetNeedsModel(hidden, OrEmpty(ui.pendingBarcode))
    else if ui.currentPo == "" then SetIdle(hidden)
    else
      var saved := hidden.(saves := ui.saves + [Mapping(OrEmpty(ui.pendingBarcode), model)]);
      if checked.None? then saved
      else if checked.value then SetMidScan(saved.(modelScan := Some(model)))
      else Launch(saved, MatchJob(model, "", ui.currentPo))
  }

  function ShowManualEntry(ui: Ui): Ui {
    if (ui.phase.Idle? || ui.phase.MatchFound?) && ui.currentPo != "" then ui.(manualShown := true) else ui
  }

  function OnManualSubmit(ui: Ui, modelText: string, serialText: string): Ui {
    var model, hidden := Strip(modelText), ui.(manualShown := false);
    if model == "" || ui.currentPo == "" then hidden
    else Launch(hidden.(modelScan := Some(model)), MatchJob(model, Strip(serialText), ui.currentPo))
  }

  function AddPo(ui: Ui, po: string): Ui {
    SetIdle(ui.(activePos := if po in ui.activePos then ui.activePos else ui.activePos + [po], currentPo := po))
  }

  function TimerFires(ui: Ui): Ui
    requires ui.timers > 0
  {
    SetIdle(ui.(timers := ui.timers - 1))
  }

  // The sync poll, once it has found a stop to alert on.
  function AlertStop(ui: Ui): Ui {
    if ui.phase.SyncStopped? || ui.phase.Matching? then ui else ui.(phase := SyncStopped, resetShown := false)
  }

  // ---- Events -----------------------------------------------------------------------------------

  datatype Event =
    | Scanned(raw: string)
    | Escape
    | Reset
    | ManualOpened
    | ManualCancelled
    | ManualSubmitted(modelText: string, serialText: string)
    | ModelTyped(text: string, checked: Option<bool>)
    | PostedRuns
    | VerdictArrives(k: nat, result: Option<ModelScanResult>)
    | OutcomeArrives(k: nat, outcome: Option<ScanOutcome>)
    | TimerExpires
    | PoLoaded(po: string)
    | StopSeen

  predicate ByUser(e: Event) {
    e.Scanned? || e.Escape? || e.Reset? || e.ManualOpened? || e.ManualCancelled? || e.ManualSubmitted? || e.ModelTyped?
  }

  predicate IsPoNumber(po: string) {
    po != "" && forall i | 0 <= i < |po| :: '0' <= po[i] <= '9'
  }

  // A posted callback runs before the next user event; workers, timers and polls come at any time.
  predicate Enabled(ui: Ui, e: Event) {
    && (ByUser(e) ==> ui.posted.None?)
    && match e
       case Scanned(raw) => Strip(raw) != ""
       case Reset => ui.resetShown
       case ManualCancelled => ui.manualShown
       case ManualSubmitted(_, _) => ui.manualShown
       case ModelTyped(_, _) => ui.needsShown
       case PostedRuns => ui.posted.Some?
       case VerdictArrives(k, _) => k < |ui.resolutions|
       case OutcomeArrives(k, _) => k < |ui.matches|
       case TimerExpires => ui.timers > 0
       case PoLoaded(po) => IsPoNumber(po)
       case _ => true
  }

  function Next(ui: Ui, e: Event): Ui
    requires Enabled(ui, e)
  {
    match e
    case Scanned(raw) => OnScan(ui, raw)
    case Escape => Dismiss(ui)
    case Reset => SetIdle(ui)
    case ManualOpened => ShowManualEntry(ui)
    case ManualCancelled => ui.(manualShown := false)
    case ManualSubmitted(m, s) => OnManualSubmit(ui, m, s)
    case ModelTyped(text, checked) => OnNeedsModelSubmit(ui, text, checked)
    case PostedRuns => RunPosted(ui)
    case VerdictArrives(k, result) => EndResolution(ui, k, result)
    case OutcomeArrives(k, outcome) => EndMatch(ui, k, outcome)
    case TimerExpires => TimerFires(ui)
    case PoLoaded(po) => AddPo(ui, po)
    case StopSeen => AlertStop(ui)
  }
}
