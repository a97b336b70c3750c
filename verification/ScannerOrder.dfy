/** adapters/ui: what late workers and stale callbacks can do to a scan, and what rules them out. */
module ScannerOrder {
  import opened Wrappers
  import opened Text
  import opened ModelResolution
  import opened ScanDispatch
  import opened ScannerStates
  import opened ScannerRuns
  import opened ScannerHistory

  // ---- Blank models ----------------------------------------------------------------------------

  ghost predicate SomeBlankVerdict(run: seq<Event>) {
    exists e :: e in run && IsVerdict(e) && (e.result.value == AutoModel("") || e.result.value == ProposeModel(""))
  }

  lemma {:induction false} BlankProposal(run: seq<Event>)
    requires Legal(run) && LastProposal(run).Some? && LastProposal(run).value.model == ""
    ensures SomeBlankVerdict(run)
    decreases |run|
  {
    if !(IsVerdict(Last(run)) && Last(run).result.value.ProposeModel?) {
      BlankProposal(Init(run));
    }
  }

  lemma {:induction false} BlankSource(run: seq<Event>, po: string)
    requires Legal(run) && Sourced(run, "", po)
    ensures SomeBlankVerdict(run)
    decreases |run|
  {
    if Vouches(Init(run), Last(run), "", po) {
      if Last(run).PostedRuns? {
        BlankProposal(Init(run));
      } else {
        assert Last(run) in run;
      }
    } else {
      BlankSource(Init(run), po);
    }
  }

  // MID_SCAN holds a model, and neither it nor any model passed to `process` is blank unless some
  // verdict named a blank one.
  lemma MidScanHasModel(run: seq<Event>)
    requires Legal(run) && !SomeBlankVerdict(run)
    ensures Reach(run).phase.MidScan? ==> Reach(run).modelScan.Some? && Reach(run).modelScan.value != ""
    ensures forall j | 0 <= j < |Reach(run).calls| ::
              Reach(run).calls[j].model != "" && IsPoNumber(Reach(run).calls[j].po)
  {
    ReachableIsSound(run);
    ModelsAreSourced(run);
    if SourcedSomewhere(run, "") {
      var po :| Sourced(run, "", po);
      BlankSource(run, po);
    }
  }

  // ---- Stale confirmations -------------------------------------------------------------------------

  // The callback of a re-scan of c either confirms what was last proposed or changes nothing, and it
  // confirms a model that was proposed for another barcode exactly when a NEEDS_MODEL verdict for c
  // has landed since that proposal. A window still in PROPOSE never does.
  lemma ConfirmsWrongIff(run: seq<Event>, c: string)
    requires Legal(run) && Reach(run).posted == Some(ProposeScan(c))
    ensures LastProposal(run).Some? && Legal(run + [PostedRuns])
    ensures Reach(run + [PostedRuns])
         == if Reach(run).pendingBarcode == Some(c)
            then SetMidScan(Reach(run).(posted := None, modelScan := Some(LastProposal(run).value.model)))
            else Reach(run).(posted := None)
    ensures var b := LastProposal(run).value.barcode;
            && (Reach(run).pendingBarcode == Some(c) && b != c <==> BlockedSince(run) == Some(c) && b != c)
            && (Reach(run).phase.Propose? ==> (Reach(run).pendingBarcode == Some(c) <==> b == c))
  {
    ProposalsAreHeld(run);
    Extend(run, PostedRuns);
  }

  // ---- Runs, one event at a time ---------------------------------------------------------------------

  lemma Grow(run: seq<Event>, e: Event) returns (more: seq<Event>)
    requires Legal(run) && Enabled(Reach(run), e)
    ensures more == run + [e] && more != [] && Init(more) == run && Last(more) == e
    ensures Legal(more) && Reach(more) == Next(Reach(run), e)
  {
    more := run + [e];
    Extend(run, e);
  }

  ghost predicate SameMemory(run: seq<Event>, more: seq<Event>)
    requires Legal(run) && Legal(more)
  {
    && LastProposal(more) == LastProposal(run) && BlockedSince(more) == BlockedSince(run)
    && AskedFor(more) == AskedFor(run)
    && forall m, po :: Sourced(more, m, po) == Sourced(run, m, po)
  }

  predicate Plain(text: string) {
    text != "" && Strip(text) == text && !IsPoLabel(text)
  }

  lemma GrowPo(run: seq<Event>, po: string) returns (more: seq<Event>)
    requires Legal(run) && IsPoNumber(po)
    ensures Legal(more) && Reach(more) == AddPo(Reach(run), po) && SameMemory(run, more)
  {
    more := Grow(run, PoLoaded(po));
  }

  lemma GrowModelScan(run: seq<Event>, b: string) returns (more: seq<Event>)
    requires Legal(run) && Plain(b)
    requires var ui := Reach(run); (ui.phase.Idle? || ui.phase.MatchFound?) && ui.posted.None? && ui.currentPo != ""
    ensures Legal(more) && SameMemory(run, more)
    ensures Reach(more)
         == Reach(run).(phase := Resolving, pendingBarcode := Some(b),
                        resolutions := Reach(run).resolutions + [ResolutionJob(b, Reach(run).currentPo)])
  {
    more := Grow(run, Scanned(b));
  }

  lemma GrowRescan(run: seq<Event>, b: string) returns (more: seq<Event>)
    requires Legal(run) && Plain(b) && Reach(run).phase.Propose? && Reach(run).posted.None?
    ensures Legal(more) && SameMemory(run, more) && Reach(more) == Reach(run).(posted := Some(ProposeScan(b)))
  {
    more := Grow(run, Scanned(b));
  }

  lemma GrowSerialScan(run: seq<Event>, s: string) returns (more: seq<Event>)
    requires Legal(run) && Plain(s) && Reach(run).phase.MidScan? && Reach(run).posted.None?
    ensures more == run + [Scanned(s)] && Legal(more) && SameMemory(run, more)
    ensures Reach(more) == Launch(Reach(run), MatchJob(OrEmpty(Reach(run).modelScan), s, Reach(run).currentPo))
  {
    more := Grow(run, Scanned(s));
  }

  lemma GrowVerdict(run: seq<Event>, r: ModelScanResult) returns (more: seq<Event>)
    requires Legal(run) && Reach(run).resolutions != []
    ensures Legal(more)
    ensures Reach(more)
         == ApplyVerdict(Reach(run).(resolutions := Reach(run).resolutions[1..]), r, Reach(run).resolutions[0].barcode)
    ensures var job := Reach(run).resolutions[0];
            && LastProposal(more)
            == (if r.ProposeModel? then Some(Proposal(job.barcode, r.model, job.po)) else LastProposal(run))
            && BlockedSince(more)
            == (if r.ProposeModel? then None else if r.NeedsModel? then Some(job.barcode) else BlockedSince(run))
            && AskedFor(more) == (if r.NeedsModel? then Some(job.barcode) else AskedFor(run))
            && forall m, po :: Sourced(more, m, po) <==> (Sourced(run, m, po) || (r == AutoModel(m) && job.po == po))
  {
    more := Grow(run, VerdictArrives(0, Some(r)));
    assert Without(Reach(run).resolutions, 0) == Reach(run).resolutions[1..];
  }

  // Such a run: B2 is re-scanned against the proposal made for B1, B2's own verdict lands before the
  // callback, and a serial is matched under B1's model.
  lemma WrongModelConfirmed() returns (run: seq<Event>, more: seq<Event>)
    ensures Legal(run) && Reach(run).posted == Some(ProposeScan("B2")) && Reach(run).pendingBarcode == Some("B2")
    ensures LastProposal(run) == Some(Proposal("B1", "M1", "1")) && BlockedSince(run) == Some("B2")
    ensures |more| == 2 && more[0] == PostedRuns && more[1] == Scanned("S") && Legal(run + more)
    ensures Reach(run + more).calls == [MatchJob("M1", "S", "1")]
  {
    run := StaleConfirmation();
    ConfirmsWrongIff(run, "B2");
    var confirmed := run + [PostedRuns];
    assert Plain("S");
    var called := GrowSerialScan(confirmed, "S");
    more := [PostedRuns, Scanned("S")];
    assert run + more == confirmed + [Scanned("S")];
  }

  lemma StaleConfirmation() returns (run: seq<Event>)
    ensures Legal(run) && Reach(run).posted == Some(ProposeScan("B2")) && Reach(run).pendingBarcode == Some("B2")
    ensures LastProposal(run) == Some(Proposal("B1", "M1", "1")) && BlockedSince(run) == Some("B2")
    ensures Reach(run).currentPo == "1" && Reach(run).calls == []
  {
    assert Plain("B1") && Plain("B2") && IsPoNumber("1");
    run := GrowPo([], "1");
    run := GrowModelScan(run, "B1");
    run := GrowPo(run, "1");
    run := GrowModelScan(run, "B2");
    run := GrowVerdict(run, ProposeModel("M1"));
    run := GrowRescan(run, "B2");
    run := GrowVerdict(run, ModelScanResult.NeedsModel);
  }

  // ---- Overlapping matches -----------------------------------------------------------------------------

  ghost predicate Ready(ui: Ui) {
    (ui.phase.Idle? || ui.phase.MatchFound?) && ui.posted.None? && ui.currentPo != "" && ui.resolutions == []
  }

  // A model scan, its AUTO verdict, a serial scan: one more match in flight.
  lemma GrowPair(run: seq<Event>, m: string, s: string) returns (more: seq<Event>)
    requires Legal(run) && Ready(Reach(run)) && Plain(m) && Plain(s)
    ensures Legal(more)
    ensures var ui, job := Reach(run), MatchJob(m, s, Reach(run).currentPo);
            Reach(more) == ui.(phase := Matching, pendingBarcode := Some(m), modelScan := Some(m), resetShown := true,
                               matches := ui.matches + [job], calls := ui.calls + [job])
  {
    more := GrowModelScan(run, m);
    more := GrowVerdict(more, AutoModel(m));
    more := GrowSerialScan(more, s);
  }

  lemma GrowReceived(run: seq<Event>) returns (more: seq<Event>)
    requires Legal(run) && Reach(run).matches != []
    ensures Legal(more)
    ensures Reach(more) == Reach(run).(matches := Reach(run).matches[1..], phase := MatchFound, modelScan := None,
                                       timers := Reach(run).timers + 1)
  {
    more := Grow(run, OutcomeArrives(0, Some(Received)));
    assert Without(Reach(run).matches, 0) == Reach(run).matches[1..];
  }

  lemma GrowTimer(run: seq<Event>) returns (more: seq<Event>)
    requires Legal(run) && Reach(run).timers > 0
    ensures Legal(more) && Reach(more) == TimerFires(Reach(run))
  {
    more := Grow(run, TimerExpires);
  }

  lemma OneReceived() returns (run: seq<Event>)
    ensures Legal(run) && Ready(Reach(run)) && Reach(run).currentPo == "1"
    ensures Reach(run).matches == [] && Reach(run).timers == 1
  {
    assert Plain("M") && Plain("S1") && IsPoNumber("1");
    run := GrowPo([], "1");
    run := GrowPair(run, "M", "S1");
    run := GrowReceived(run);
  }

  // The two-second timer of a finished match fires during the next one and lets a third scan start
  // another before that one has ended.
  lemma TwoMatchesInFlight() returns (run: seq<Event>)
    ensures Legal(run) && Reach(run).matches == [MatchJob("M", "S2", "1"), MatchJob("M", "S3", "1")]
  {
    assert Plain("M") && Plain("S2") && Plain("S3");
    run := OneReceived();
    run := GrowPair(run, "M", "S2");
    run := GrowTimer(run);
    run := GrowPair(run, "M", "S3");
  }
}
