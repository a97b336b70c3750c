/** adapters/ui: where the models that reach `process` come from, over whole runs of the window. */
module ScannerHistory {
  import opened Wrappers
  import opened Text
  import opened ModelResolution
  import opened ScanDispatch
  import opened ScannerStates
  import opened ScannerRuns

  function Init(run: seq<Event>): seq<Event>
    requires run != []
  {
    run[..|run| - 1]
  }

  function Last(run: seq<Event>): Event
    requires run != []
  {
    run[|run| - 1]
  }

  // ---- What a run remembers ----------------------------------------------------------------------

  // A PROPOSE verdict: the barcode it answers, its model, and the PO it was resolved on.
  datatype Proposal = Proposal(barcode: string, model: string, po: string)

  predicate IsVerdict(e: Event) {
    e.VerdictArrives? && e.result.Some?
  }

  ghost function LastProposal(run: seq<Event>): Option<Proposal>
    requires Legal(run)
    decreases |run|
  {
    if run == [] then None
    else if IsVerdict(Last(run)) && Last(run).result.value.ProposeModel? then
      var job := Reach(Init(run)).resolutions[Last(run).k];
      Some(Proposal(job.barcode, Last(run).result.value.model, job.po))
    else LastProposal(Init(run))
  }

  // The barcode of the last NEEDS_MODEL verdict since the last PROPOSE verdict.
  ghost function BlockedSince(run: seq<Event>): Option<string>
    requires Legal(run)
    decreases |run|
  {
    if run == [] then None
    else if IsVerdict(Last(run)) && Last(run).result.value.ProposeModel? then None
    else if IsVerdict(Last(run)) && Last(run).result.value.NeedsModel? then
      Some(Reach(Init(run)).resolutions[Last(run).k].barcode)
    else BlockedSince(Init(run))
  }

  // The barcode the entry form was last opened for.
  ghost function AskedFor(run: seq<Event>): Option<string>
    requires Legal(run)
    decreases |run|
  {
    if run == [] then None
    else if IsVerdict(Last(run)) && Last(run).result.value.NeedsModel? then
      Some(Reach(Init(run)).resolutions[Last(run).k].barcode)
    else if Last(run).ModelTyped? && Strip(Last(run).text) == "" then
      Some(OrEmpty(Reach(Init(run)).pendingBarcode))
    else AskedFor(Init(run))
  }

  // Some scan of c was made while the window showed a proposal.
  ghost predicate Rescanned(run: seq<Event>, c: string)
    requires Legal(run)
    decreases |run|
  {
    run != [] && ((Last(run).Scanned? && Strip(Last(run).raw) == c && Reach(Init(run)).phase.Propose?)
                  || Rescanned(Init(run), c))
  }

  // Event e, after `before`, vouches for model m on PO po: an AUTO verdict resolved on po, the operator
  // typing it while po is locked, or the re-scan that confirms what was last proposed.
  ghost predicate Vouches(before: seq<Event>, e: Event, m: string, po: string)
    requires Legal(before) && Enabled(Reach(before), e)
  {
    var ui := Reach(before);
    match e
    case VerdictArrives(k, result) => result == Some(AutoModel(m)) && ui.resolutions[k].po == po
    case ModelTyped(text, _) => Strip(text) == m && m != "" && ui.currentPo == po
    case ManualSubmitted(text, _) => Strip(text) == m && m != "" && ui.currentPo == po
    case PostedRuns =>
      && ui.posted.value.ProposeScan? && ui.pendingBarcode == Some(ui.posted.value.incoming)
      && Rescanned(before, ui.posted.value.incoming)
      && LastProposal(before).Some? && LastProposal(before).value.model == m && LastProposal(before).value.po == po
    case _ => false
  }

  ghost predicate Sourced(run: seq<Event>, m: string, po: string)
    requires Legal(run)
    decreases |run|
  {
    run != [] && (Vouches(Init(run), Last(run), m, po) || Sourced(Init(run), m, po))
  }

  ghost predicate SourcedSomewhere(run: seq<Event>, m: string)
    requires Legal(run)
  {
    exists po :: Sourced(run, m, po)
  }

  // ---- What one event changes ------------------------------------------------------------------------

  // The events that can change the model held, and what they make of it.
  predicate ModelMoves(ui: Ui, e: Event, m: Option<string>)
    requires Enabled(ui, e)
  {
    || m == ui.modelScan || m == None
    || (e.VerdictArrives? && e.result.Some? && e.result.value.AutoModel? && m == Some(e.result.value.model))
    || (e.ModelTyped? && m == Some(Strip(e.text)) && m != Some(""))
    || (e.ManualSubmitted? && m == Some(Strip(e.modelText)) && m != Some(""))
    || (e.PostedRuns? && ui.posted.value.ProposeScan? && m == Some(OrEmpty(ui.proposedModel))
        && ui.pendingBarcode == Some(ui.posted.value.incoming))
  }

  lemma UserModelChange(ui: Ui, e: Event)
    requires Enabled(ui, e) && ByUser(e)
    ensures ModelMoves(ui, e, Next(ui, e).modelScan)
  {
  }

  lemma OtherModelChange(ui: Ui, e: Event)
    requires Enabled(ui, e) && !ByUser(e)
    ensures ModelMoves(ui, e, Next(ui, e).modelScan)
  {
  }

  // The events that call `process`, and with what.
  predicate CallMoves(ui: Ui, e: Event, calls: seq<MatchJob>) {
    || calls == ui.calls
    || (e.Scanned? && ui.phase.MidScan?
        && calls == ui.calls + [MatchJob(OrEmpty(ui.modelScan), Strip(e.raw), ui.currentPo)])
    || (e.ModelTyped? && Strip(e.text) != "" && calls == ui.calls + [MatchJob(Strip(e.text), "", ui.currentPo)])
    || (e.ManualSubmitted? && Strip(e.modelText) != ""
        && calls == ui.calls + [MatchJob(Strip(e.modelText), Strip(e.serialText), ui.currentPo)])
  }

  lemma UserCallChange(ui: Ui, e: Event)
    requires Enabled(ui, e) && ByUser(e)
    ensures CallMoves(ui, e, Next(ui, e).calls)
  {
  }

  lemma OtherCallChange(ui: Ui, e: Event)
    requires Enabled(ui, e) && !ByUser(e)
    ensures CallMoves(ui, e, Next(ui, e).calls)
  {
  }

  lemma ProposalChange(ui: Ui, e: Event)
    requires Enabled(ui, e)
    ensures Next(ui, e).proposedModel
         == if IsVerdict(e) && e.result.value.ProposeModel? then Some(e.result.value.model) else ui.proposedModel
  {
  }

  lemma PostedChange(ui: Ui, e: Event)
    requires Enabled(ui, e)
    ensures var p := Next(ui, e).posted;
            || (e.PostedRuns? && p == None)
            || p == ui.posted
            || (e.Scanned? && ui.phase.Propose? && p == Some(ProposeScan(Strip(e.raw))))
            || (p.Some? && p.value.LockPo?)
  {
  }

  // The events that change the pending barcode.
  predicate PendingMoves(ui: Ui, e: Event, next: Ui)
    requires Enabled(ui, e)
  {
    || next.pendingBarcode == ui.pendingBarcode
    || (e.Scanned? && next.phase.Resolving?)
    || (e.ModelTyped? && next.phase.NeedsModel?)
    || (IsVerdict(e) && !e.result.value.AutoModel?
        && next.pendingBarcode == Some(ui.resolutions[e.k].barcode))
  }

  // PROPOSE is entered by a PROPOSE verdict, and nothing that stays in it changes the pending barcode.
  predicate ProposeMoves(ui: Ui, e: Event, next: Ui)
    requires Enabled(ui, e)
  {
    next.phase.Propose? ==>
      if IsVerdict(e) then e.result.value.ProposeModel? && next.pendingBarcode == Some(ui.resolutions[e.k].barcode)
      else ui.phase.Propose? && next.pendingBarcode == ui.pendingBarcode
  }

  lemma UserPendingChange(ui: Ui, e: Event)
    requires Enabled(ui, e) && ByUser(e)
    ensures PendingMoves(ui, e, Next(ui, e))
  {
  }

  lemma OtherPendingChange(ui: Ui, e: Event)
    requires Enabled(ui, e) && !ByUser(e)
    ensures PendingMoves(ui, e, Next(ui, e))
  {
  }

  lemma UserProposeChange(ui: Ui, e: Event)
    requires Enabled(ui, e) && ByUser(e)
    ensures ProposeMoves(ui, e, Next(ui, e))
  {
  }

  lemma OtherProposeChange(ui: Ui, e: Event)
    requires Enabled(ui, e) && !ByUser(e)
    ensures ProposeMoves(ui, e, Next(ui, e))
  {
  }

  lemma NeedsVerdict(ui: Ui, e: Event)
    requires Enabled(ui, e) && IsVerdict(e) && !e.result.value.AutoModel?
    ensures Next(ui, e).pendingBarcode == Some(ui.resolutions[e.k].barcode)
  {
  }

  // ---- Proposals ---------------------------------------------------------------------------------------

  ghost predicate ProposalHeld(run: seq<Event>)
    requires Legal(run)
  {
    var ui, last := Reach(run), LastProposal(run);
    && ui.proposedModel == (if last.Some? then Some(last.value.model) else None)
    && (ui.phase.Propose? ==> last.Some? && ui.pendingBarcode == Some(last.value.barcode) && BlockedSince(run).None?)
  }

  ghost predicate ConfirmationHeld(run: seq<Event>)
    requires Legal(run)
  {
    var ui, last := Reach(run), LastProposal(run);
    ui.posted.Some? && ui.posted.value.ProposeScan? ==>
      && last.Some? && Rescanned(run, ui.posted.value.incoming)
      && ui.pendingBarcode == (if BlockedSince(run).Some? then BlockedSince(run) else Some(last.value.barcode))
  }

  lemma ProposalHeldKept(run: seq<Event>)
    requires run != [] && Legal(run) && ProposalHeld(Init(run))
    ensures ProposalHeld(run)
  {
    var ui, e := Reach(Init(run)), Last(run);
    ProposalChange(ui, e);
    if ByUser(e) { UserProposeChange(ui, e); } else { OtherProposeChange(ui, e); }
  }

  lemma ConfirmationHeldKept(run: seq<Event>)
    requires run != [] && Legal(run) && ProposalHeld(Init(run)) && ConfirmationHeld(Init(run))
    ensures ConfirmationHeld(run)
  {
    var ui, e := Reach(Init(run)), Last(run);
    PostedChange(ui, e);
    if ByUser(e) { UserPendingChange(ui, e); } else { OtherPendingChange(ui, e); }
    if IsVerdict(e) && !e.result.value.AutoModel? {
      NeedsVerdict(ui, e);
    }
  }

  lemma {:induction false} ProposalsAreHeld(run: seq<Event>)
    requires Legal(run)
    ensures ProposalHeld(run) && ConfirmationHeld(run)
    decreases |run|
  {
    if run != [] {
      ProposalsAreHeld(Init(run));
      ProposalHeldKept(run);
      ConfirmationHeldKept(run);
    }
  }

  // In PROPOSE the barcode and the model shown come from one PROPOSE verdict, the last one.
  lemma ProposeIsOneVerdict(run: seq<Event>)
    requires Legal(run) && Reach(run).phase.Propose?
    ensures LastProposal(run).Some?
    ensures Reach(run).pendingBarcode == Some(LastProposal(run).value.barcode)
    ensures Reach(run).proposedModel == Some(LastProposal(run).value.model)
  {
    ProposalsAreHeld(run);
  }

  // ---- Provenance -----------------------------------------------------------------------------------------

  ghost predicate ModelSourced(run: seq<Event>)
    requires Legal(run)
  {
    Reach(run).modelScan.Some? ==> SourcedSomewhere(run, Reach(run).modelScan.value)
  }

  ghost predicate CallsSourced(run: seq<Event>)
    requires Legal(run)
  {
    forall j | 0 <= j < |Reach(run).calls| :: SourcedSomewhere(run, Reach(run).calls[j].model)
  }

  lemma StillSourced(run: seq<Event>, m: string)
    requires run != [] && Legal(run) && SourcedSomewhere(Init(run), m)
    ensures SourcedSomewhere(run, m)
  {
    var po :| Sourced(Init(run), m, po);
    assert Sourced(run, m, po);
  }

  lemma SourcedHere(run: seq<Event>, m: string, po: string)
    requires run != [] && Legal(run) && Vouches(Init(run), Last(run), m, po)
    ensures SourcedSomewhere(run, m)
  {
    assert Sourced(run, m, po);
  }

  lemma ModelSourcedKept(run: seq<Event>)
    requires run != [] && Legal(run) && ModelSourced(Init(run))
    requires ProposalHeld(Init(run)) && ConfirmationHeld(Init(run))
    ensures ModelSourced(run)
  {
    var before, e := Init(run), Last(run);
    var ui, next := Reach(before), Next(Reach(before), e);
    if ByUser(e) { UserModelChange(ui, e); } else { OtherModelChange(ui, e); }
    if next.modelScan.Some? {
      var m := next.modelScan.value;
      if next.modelScan == ui.modelScan {
        StillSourced(run, m);
      } else if e.VerdictArrives? {
        SourcedHere(run, m, ui.resolutions[e.k].po);
      } else if e.PostedRuns? {
        SourcedHere(run, m, LastProposal(before).value.po);
      } else {
        SourcedHere(run, m, ui.currentPo);
      }
    }
  }

  lemma CallsSourcedKept(run: seq<Event>)
    requires run != [] && Legal(run) && CallsSourced(Init(run)) && ModelSourced(Init(run)) && Equipped(Reach(Init(run)))
    ensures CallsSourced(run)
  {
    var ui, e := Reach(Init(run)), Last(run);
    var next := Next(ui, e);
    if ByUser(e) { UserCallChange(ui, e); } else { OtherCallChange(ui, e); }
    forall j | 0 <= j < |next.calls| ensures SourcedSomewhere(run, next.calls[j].model) {
      var m := next.calls[j].model;
      if j < |ui.calls| {
        StillSourced(run, m);
      } else if e.Scanned? {
        StillSourced(run, m);
      } else {
        SourcedHere(run, m, ui.currentPo);
      }
    }
  }

  // Every model held, and every model ever passed to `process`, comes from an AUTO verdict, from the
  // last proposal once a barcode was re-scanned in PROPOSE, or from the operator's typing.
  lemma {:induction false} ModelsAreSourced(run: seq<Event>)
    requires Legal(run)
    ensures ModelSourced(run) && CallsSourced(run)
    decreases |run|
  {
    if run != [] {
      ModelsAreSourced(Init(run));
      ProposalsAreHeld(Init(run));
      ReachableIsSound(Init(run));
      ModelSourcedKept(run);
      CallsSourcedKept(run);
    }
  }
}
