/** adapters/ui: what holds in every reachable state of the receiving window. */
module ScannerRuns {
  import opened Wrappers
  import opened Text
  import opened ModelResolution
  import opened ScanDispatch
  import opened ScannerStates

  // ---- Runs from an empty window ------------------------------------------------------------

  ghost predicate Legal(run: seq<Event>)
    decreases |run|, 0
  {
    run == [] || (Legal(run[..|run| - 1]) && Enabled(Reach(run[..|run| - 1]), run[|run| - 1]))
  }

  ghost function Reach(run: seq<Event>): Ui
    requires Legal(run)
    decreases |run|, 1
  {
    if run == [] then INITIAL else Next(Reach(run[..|run| - 1]), run[|run| - 1])
  }

  lemma Extend(run: seq<Event>, e: Event)
    requires Legal(run) && Enabled(Reach(run), e)
    ensures Legal(run + [e]) && Reach(run + [e]) == Next(Reach(run), e)
  {
    assert (run + [e])[..|run|] == run;
  }

  // ---- State invariants ------------------------------------------------------------------------

  // Each state holds what its handlers will read.
  ghost predicate Equipped(ui: Ui) {
    && (ui.phase.MidScan? ==> ui.modelScan.Some?)
    && (ui.phase.Propose? ==> ui.pendingBarcode.Some? && ui.proposedModel.Some?)
    && (ui.posted.Some? && ui.posted.value.ProposeScan? ==> ui.proposedModel.Some?)
  }

  // Every state has a way out: a worker in flight, a timer running, the Reset button or Esc.
  ghost predicate HasExit(ui: Ui) {
    && (ui.phase.Resolving? ==> ui.resolutions != [])
    && (ui.phase.Matching? ==> ui.matches != [])
    && (ui.phase.MatchFound? || ui.phase.AlreadyScanned? ==> ui.timers > 0)
    && (ui.phase.MidScan? || ui.phase.Propose? || ui.phase.NoMatch? || ui.phase.PrintFailed? ==> ui.resetShown)
  }

  // The PO in use has been loaded, and whatever will reach `process` was begun under one.
  ghost predicate PoLocked(ui: Ui) {
    && (ui.currentPo != "" ==> ui.currentPo in ui.activePos)
    && (forall po :: po in ui.activePos ==> IsPoNumber(po))
    && (ui.phase.MidScan? || ui.phase.Propose? || ui.resolutions != [] ==> ui.currentPo != "")
    && (ui.posted.Some? && ui.posted.value.ProposeScan? ==> ui.currentPo != "")
    && (ui.posted.Some? && ui.posted.value.LockPo? ==> ui.posted.value.po in ui.activePos)
  }

  ghost predicate CallsOnLoadedPos(ui: Ui) {
    forall j | 0 <= j < |ui.calls| :: ui.calls[j].po in ui.activePos
  }

  ghost predicate Sound(ui: Ui) {
    Equipped(ui) && HasExit(ui) && PoLocked(ui) && CallsOnLoadedPos(ui)
  }

  lemma IdleIsSound(ui: Ui)
    requires Sound(ui)
    ensures Sound(SetIdle(ui))
  {
  }

  lemma BlockIsSound(ui: Ui, raw: string)
    requires Sound(ui)
    ensures Sound(SetNeedsModel(ui, raw))
  {
  }

  lemma ModelIsSound(ui: Ui, m: string)
    requires Sound(ui) && ui.currentPo != ""
    ensures Sound(SetMidScan(ui.(modelScan := Some(m))))
  {
  }

  lemma LaunchIsSound(ui: Ui, job: MatchJob)
    requires Sound(ui) && job.po == ui.currentPo != ""
    ensures Sound(Launch(ui, job))
  {
  }

  lemma OverlaysAreErased(ui: Ui, manual: bool, needs: bool, saves: seq<Mapping>)
    requires Sound(ui)
    ensures Sound(ui.(manualShown := manual)) && Sound(ui.(needsShown := needs))
    ensures Sound(ui.(needsShown := needs, saves := saves))
  {
  }

  lemma ScanIsSound(ui: Ui, raw: string)
    requires Sound(ui)
    ensures Sound(OnScan(ui, raw))
  {
    if ui.phase.MidScan? {
      LaunchIsSound(ui, MatchJob(OrEmpty(ui.modelScan), Strip(raw), ui.currentPo));
    }
  }

  lemma PostedIsSound(ui: Ui)
    requires Sound(ui)
    ensures Sound(RunPosted(ui))
  {
    assert Sound(ui.(posted := None));
  }

  lemma VerdictIsSound(ui: Ui, k: nat, result: Option<ModelScanResult>)
    requires Sound(ui) && k < |ui.resolutions|
    ensures Sound(EndResolution(ui, k, result))
  {
    var rest := Without(ui.resolutions, k);
    if result.Some? {
      VerdictShownIsSound(ui, rest, result.value, ui.resolutions[k].barcode);
    } else {
      assert Sound(SetIdle(ui.(resolutions := rest)));
    }
  }

  lemma VerdictShownIsSound(ui: Ui, rest: seq<ResolutionJob>, result: ModelScanResult, raw: string)
    requires Sound(ui) && ui.currentPo != ""
    ensures Sound(ApplyVerdict(ui.(resolutions := rest), result, raw))
  {
  }

  lemma OutcomeIsSound(ui: Ui, k: nat, outcome: Option<ScanOutcome>)
    requires Sound(ui) && k < |ui.matches|
    ensures Sound(EndMatch(ui, k, outcome))
  {
    var rest := Without(ui.matches, k);
    FreedIsSound(ui, rest, NoMatch);
    FreedIsSound(ui, rest, PrintFailed);
    ClearedIsSound(ui, rest, MatchFound, ui.resetShown);
    ClearedIsSound(ui, rest, AlreadyScanned, false);
  }

  // A finished match gives way to a state that nothing is asked of, or to one a timer will end.
  lemma FreedIsSound(ui: Ui, rest: seq<MatchJob>, phase: Phase)
    requires Sound(ui) && (phase.NoMatch? || phase.PrintFailed?)
    ensures Sound(ui.(matches := rest, phase := phase, resetShown := true))
    ensures Sound(SetIdle(ui.(matches := rest)))
  {
  }

  lemma ClearedIsSound(ui: Ui, rest: seq<MatchJob>, phase: Phase, reset: bool)
    requires Sound(ui) && (phase.MatchFound? || phase.AlreadyScanned?)
    ensures Sound(ui.(matches := rest, phase := phase, modelScan := None, resetShown := reset, timers := ui.timers + 1))
  {
  }

  lemma TypedIsSound(ui: Ui, text: string, checked: Option<bool>)
    requires Sound(ui)
    ensures Sound(OnNeedsModelSubmit(ui, text, checked))
  {
    var hidden := ui.(needsShown := false);
    var saved := hidden.(saves := ui.saves + [Mapping(OrEmpty(ui.pendingBarcode), Strip(text))]);
    OverlaysAreErased(ui, false, false, saved.saves);
    BlockIsSound(hidden, OrEmpty(ui.pendingBarcode));
    IdleIsSound(hidden);
    if ui.currentPo != "" {
      ModelIsSound(saved, Strip(text));
      LaunchIsSound(saved, MatchJob(Strip(text), "", ui.currentPo));
    }
  }

  lemma ManualIsSound(ui: Ui, m: string, s: string)
    requires Sound(ui)
    ensures Sound(OnManualSubmit(ui, m, s))
  {
  }

  lemma PoIsSound(ui: Ui, po: string)
    requires Sound(ui) && IsPoNumber(po)
    ensures Sound(AddPo(ui, po))
  {
  }

  lemma DismissIsSound(ui: Ui)
    requires Sound(ui)
    ensures Sound(Dismiss(ui))
  {
    OverlaysAreErased(ui, false, false, ui.saves);
    IdleIsSound(ui);
    IdleIsSound(ui.(needsShown := false));
  }

  lemma NextIsSound(ui: Ui, e: Event)
    requires Enabled(ui, e) && Sound(ui)
    ensures Sound(Next(ui, e))
  {
    match e {
      case Scanned(raw) => ScanIsSound(ui, raw);
      case Escape => DismissIsSound(ui);
      case Reset => IdleIsSound(ui);
      case ManualOpened => OverlaysAreErased(ui, true, ui.needsShown, ui.saves);
      case ManualCancelled => OverlaysAreErased(ui, false, ui.needsShown, ui.saves);
      case ManualSubmitted(m, s) => ManualIsSound(ui, m, s);
      case ModelTyped(text, checked) => TypedIsSound(ui, text, checked);
      case PostedRuns => PostedIsSound(ui);
      case VerdictArrives(k, result) => VerdictIsSound(ui, k, result);
      case OutcomeArrives(k, outcome) => OutcomeIsSound(ui, k, outcome);
      case TimerExpires => TimerIsSound(ui);
      case PoLoaded(po) => PoIsSound(ui, po);
      case StopSeen => AlertIsSound(ui);
    }
  }

  lemma TimerIsSound(ui: Ui)
    requires Sound(ui) && ui.timers > 0
    ensures Sound(TimerFires(ui))
  {
  }

  lemma AlertIsSound(ui: Ui)
    requires Sound(ui)
    ensures Sound(AlertStop(ui))
  {
  }

  // In every reachable state: MID_SCAN holds a model, PROPOSE a barcode and a model, a busy window has
  // the worker that will free it, and every call of `process` names a loaded PO.
  lemma {:induction false} ReachableIsSound(run: seq<Event>)
    requires Legal(run)
    ensures Sound(Reach(run))
    decreases |run|
  {
    if run != [] {
      var before, e := run[..|run| - 1], run[|run| - 1];
      ReachableIsSound(before);
      NextIsSound(Reach(before), e);
    }
  }

  // ---- No dead ends --------------------------------------------------------------------------------

  // The event that brings each state that is not busy back to IDLE.
  function WayOut(phase: Phase): Event {
    match phase
    case MatchFound => TimerExpires
    case MidScan => Reset
    case _ => Escape
  }

  predicate Busy(phase: Phase) {
    phase.Resolving? || phase.Matching?
  }

  lemma WayOutIdles(ui: Ui)
    requires Sound(ui) && ui.posted.None? && !ui.phase.Idle? && !Busy(ui.phase)
    ensures Enabled(ui, WayOut(ui.phase)) && Next(ui, WayOut(ui.phase)).phase.Idle?
  {
  }

  // The end of the first worker of a busy window, whatever it brings.
  function WorkerEnds(phase: Phase, verdict: Option<ModelScanResult>, outcome: Option<ScanOutcome>): Event {
    if phase.Resolving? then VerdictArrives(0, verdict) else OutcomeArrives(0, outcome)
  }

  lemma WorkerFrees(ui: Ui, verdict: Option<ModelScanResult>, outcome: Option<ScanOutcome>)
    requires Sound(ui) && ui.posted.None? && Busy(ui.phase)
    ensures var e := WorkerEnds(ui.phase, verdict, outcome);
            Enabled(ui, e) && !Busy(Next(ui, e).phase) && Next(ui, e).posted.None?
  {
  }

  lemma PostedIsTaken(ui: Ui)
    ensures RunPosted(ui).posted.None?
  {
  }

  // The workers that end in a run bring only these results.
  predicate Brings(run: seq<Event>, verdict: Option<ModelScanResult>, outcome: Option<ScanOutcome>) {
    forall i | 0 <= i < |run| ::
      && (run[i].VerdictArrives? ==> run[i].result == verdict)
      && (run[i].OutcomeArrives? ==> run[i].outcome == outcome)
  }

  lemma CalmWayOut(run: seq<Event>, verdict: Option<ModelScanResult>, outcome: Option<ScanOutcome>)
    returns (more: seq<Event>)
    requires Legal(run) && Reach(run).posted.None? && !Busy(Reach(run).phase)
    ensures |more| <= 1 && Legal(run + more) && Reach(run + more).phase.Idle? && Brings(more, verdict, outcome)
  {
    assert run + [] == run;
    ReachableIsSound(run);
    if Reach(run).phase.Idle? {
      return [];
    }
    WayOutIdles(Reach(run));
    Extend(run, WayOut(Reach(run).phase));
    more := [WayOut(Reach(run).phase)];
  }

  lemma BusyWayOut(run: seq<Event>, verdict: Option<ModelScanResult>, outcome: Option<ScanOutcome>)
    returns (more: seq<Event>)
    requires Legal(run) && Reach(run).posted.None?
    ensures |more| <= 2 && Legal(run + more) && Reach(run + more).phase.Idle? && Brings(more, verdict, outcome)
  {
    if !Busy(Reach(run).phase) {
      more := CalmWayOut(run, verdict, outcome);
      return;
    }
    ReachableIsSound(run);
    WorkerFrees(Reach(run), verdict, outcome);
    var e := WorkerEnds(Reach(run).phase, verdict, outcome);
    Extend(run, e);
    var rest := CalmWayOut(run + [e], verdict, outcome);
    LeadIn(run, e, rest, verdict, outcome);
    more := [e] + rest;
  }

  lemma LeadIn(run: seq<Event>, e: Event, rest: seq<Event>, verdict: Option<ModelScanResult>,
               outcome: Option<ScanOutcome>)
    requires Brings(rest, verdict, outcome)
    requires (e.VerdictArrives? ==> e.result == verdict) && (e.OutcomeArrives? ==> e.outcome == outcome)
    ensures run + ([e] + rest) == run + [e] + rest && Brings([e] + rest, verdict, outcome)
  {
  }

  lemma RunPostedFirst(run: seq<Event>)
    requires Legal(run) && Reach(run).posted.Some?
    ensures Legal(run + [PostedRuns]) && Reach(run + [PostedRuns]).posted.None?
  {
    Extend(run, PostedRuns);
    PostedIsTaken(Reach(run));
  }

  // From every reachable state at most three events lead to IDLE: the posted callback, the end of the
  // worker a busy window waits for, whatever it brings, and then Reset, Esc or the timer.
  lemma NeverStuck(run: seq<Event>, verdict: Option<ModelScanResult>, outcome: Option<ScanOutcome>)
    returns (more: seq<Event>)
    requires Legal(run)
    ensures |more| <= 3 && Legal(run + more) && Reach(run + more).phase.Idle? && Brings(more, verdict, outcome)
  {
    if Reach(run).posted.None? {
      more := BusyWayOut(run, verdict, outcome);
      return;
    }
    RunPostedFirst(run);
    var rest := BusyWayOut(run + [PostedRuns], verdict, outcome);
    LeadIn(run, PostedRuns, rest, verdict, outcome);
    more := [PostedRuns] + rest;
  }

  // While the window is busy or blocked, a scan launches nothing, switches no PO and leaves the state
  // alone: the block wins over a PO label too.
  lemma BlockedScansAreInert(ui: Ui, raw: string)
    requires ui.phase.Resolving? || ui.phase.Matching? || ui.phase.Propose? || ui.phase.NeedsModel?
    ensures OnScan(ui, raw) == ui.(posted := OnScan(ui, raw).posted)
    ensures OnScan(ui, raw).posted == if ui.phase.Propose? then Some(ProposeScan(Strip(raw))) else ui.posted
  {
  }

  // ---- How many matches are in flight ---------------------------------------------------------------

  // The events that call `process`: a serial in MID_SCAN, a typed model that is not on the PO, a manual entry.
  predicate Launches(ui: Ui, e: Event) {
    || (e.Scanned? && ui.phase.MidScan? && !IsPoLabel(Strip(e.raw)))
    || (e.ModelTyped? && Strip(e.text) != "" && ui.currentPo != "" && e.checked == Some(false))
    || (e.ManualSubmitted? && Strip(e.modelText) != "" && ui.currentPo != "")
  }

  predicate MatchesMove(ui: Ui, e: Event, next: Ui) {
    |next.matches| == |ui.matches| + (if Launches(ui, e) then 1 else 0) - if e.OutcomeArrives? then 1 else 0
  }

  lemma UserMatchesChange(ui: Ui, e: Event)
    requires Enabled(ui, e) && ByUser(e)
    ensures MatchesMove(ui, e, Next(ui, e))
  {
  }

  lemma OtherMatchesChange(ui: Ui, e: Event)
    requires Enabled(ui, e) && !ByUser(e)
    ensures MatchesMove(ui, e, Next(ui, e))
  {
  }

  // A run in which at no point more than one match is in flight.
  ghost predicate NeverTwo(run: seq<Event>)
    requires Legal(run)
    decreases |run|
  {
    |Reach(run).matches| <= 1 && (run == [] || NeverTwo(run[..|run| - 1]))
  }

  // A run in which no event calls `process` while a match is in flight.
  ghost predicate NeverOverlaps(run: seq<Event>)
    requires Legal(run)
    decreases |run|
  {
    run == []
    || (NeverOverlaps(run[..|run| - 1])
        && !(Reach(run[..|run| - 1]).matches != [] && Launches(Reach(run[..|run| - 1]), run[|run| - 1])))
  }

  // At most one call of `process` is ever under way exactly when no event calls it during one.
  lemma {:induction false} OneMatchAtATimeIff(run: seq<Event>)
    requires Legal(run)
    ensures NeverTwo(run) <==> NeverOverlaps(run)
    decreases |run|
  {
    if run != [] {
      var ui, e := Reach(run[..|run| - 1]), run[|run| - 1];
      OneMatchAtATimeIff(run[..|run| - 1]);
      if ByUser(e) { UserMatchesChange(ui, e); } else { OtherMatchesChange(ui, e); }
    }
  }

  // What takes the window out of MATCHING, or calls `process` again, while a match is in flight: any end
  // of a resolution, a timer, a PO, Reset, a submitted form that is acted on, a callback that does something.
  predicate Disturbs(ui: Ui, e: Event)
    requires Enabled(ui, e)
  {
    ui.matches != []
    && match e
       case VerdictArrives(_, _) => true
       case TimerExpires => true
       case PoLoaded(_) => true
       case Reset => true
       case ManualSubmitted(m, _) => Strip(m) != "" && ui.currentPo != ""
       case ModelTyped(text, checked) => Strip(text) == "" || ui.currentPo == "" || checked.Some?
       case PostedRuns => ui.posted.value.LockPo? || ui.pendingBarcode == Some(ui.posted.value.incoming)
       case _ => false
  }

  ghost predicate Undisturbed(run: seq<Event>)
    requires Legal(run)
    decreases |run|
  {
    run == [] || (Undisturbed(run[..|run| - 1]) && !Disturbs(Reach(run[..|run| - 1]), run[|run| - 1]))
  }

  ghost predicate OneMatch(ui: Ui) {
    |ui.matches| <= 1 && (ui.matches != [] ==> ui.phase.Matching?)
  }

  ghost predicate MatchingThroughout(run: seq<Event>)
    requires Legal(run)
    decreases |run|
  {
    OneMatch(Reach(run)) && (run == [] || MatchingThroughout(run[..|run| - 1]))
  }

  lemma UserOneMatch(ui: Ui, e: Event)
    requires Enabled(ui, e) && OneMatch(ui) && ByUser(e)
    ensures OneMatch(Next(ui, e)) <==> !Disturbs(ui, e)
  {
    if e.Scanned? {
      assert ui.matches != [] ==> OnScan(ui, e.raw) == ui;
    }
  }

  lemma OtherOneMatch(ui: Ui, e: Event)
    requires Enabled(ui, e) && OneMatch(ui) && !ByUser(e)
    ensures OneMatch(Next(ui, e)) <==> !Disturbs(ui, e)
  {
    if e.OutcomeArrives? {
      assert ui.matches == [ui.matches[0]];
      assert EndMatch(ui, e.k, e.outcome).matches == [];
    }
  }

  // The window stays in MATCHING throughout every match of a run, and so has one at a time, exactly when
  // nothing disturbs one.
  lemma {:induction false} MatchingThroughoutIff(run: seq<Event>)
    requires Legal(run)
    ensures MatchingThroughout(run) <==> Undisturbed(run)
    ensures Undisturbed(run) ==> NeverTwo(run)
    decreases |run|
  {
    if run != [] {
      var ui, e := Reach(run[..|run| - 1]), run[|run| - 1];
      MatchingThroughoutIff(run[..|run| - 1]);
      if OneMatch(ui) {
        if ByUser(e) { UserOneMatch(ui, e); } else { OtherOneMatch(ui, e); }
      }
      assert !OneMatch(ui) ==> !MatchingThroughout(run[..|run| - 1]);
    }
  }
}
