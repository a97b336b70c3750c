/** adapters/ui: which PO is in use, from the events alone. */
module ScannerLabels {
  import opened Wrappers
  import opened Text
  import opened ModelResolution
  import opened ScanDispatch
  import opened ScannerStates
  import opened ScannerRuns
  import opened ScannerHistory

  // ---- Labels ---------------------------------------------------------------------------------------

  // The text of a label: "PO:" in any case, then the number, white space around either.
  lemma LabelNames(left: string, mark: string, between: string, po: string, right: string)
    requires mark in ["PO:", "Po:", "pO:", "po:"]
    requires AllSpaces(left) && AllSpaces(between) && AllSpaces(right) && IsPoNumber(po)
    ensures var cleaned := Strip(left + (mark + between + po) + right);
            IsPoLabel(cleaned) && PoOfLabel(cleaned) == po
  {
    var text := mark + between + po;
    SpacesAreThese(text[0]);
    SpacesAreThese(po[0]);
    SpacesAreThese(po[|po| - 1]);
    assert text[|text| - 1] == po[|po| - 1];
    StripOf(left, text, right);
    assert text[3..] == between + po + "";
    StripOf(between, po, "");
  }

  lemma LabelIs(cleaned: string)
    ensures IsPoLabel(cleaned) <==> |cleaned| >= 3 && cleaned[..3] in ["PO:", "Po:", "pO:", "po:"]
  {
    if |cleaned| >= 3 {
      assert cleaned[..3] == [cleaned[0], cleaned[1], cleaned[2]];
    }
  }

  // ---- The PO in use, from the events ---------------------------------------------------------------------

  predicate Loaded(run: seq<Event>, po: string) {
    PoLoaded(po) in run
  }

  // A scan, in a state that is neither busy nor blocked, of the label of a loaded PO.
  ghost predicate ScansLabel(before: seq<Event>, e: Event, po: string)
    requires Legal(before)
  {
    var phase := Reach(before).phase;
    && e.Scanned? && !phase.Matching? && !phase.Resolving? && !phase.Propose? && !phase.NeedsModel?
    && IsPoLabel(Strip(e.raw)) && PoOfLabel(Strip(e.raw)) == po && Loaded(before, po)
  }

  // The PO of a scanned label whose callback has not run yet.
  ghost function LabelWaiting(run: seq<Event>): Option<string>
    requires Legal(run)
    decreases |run|
  {
    if run == [] || Last(run).PostedRuns? then None
    else if Last(run).Scanned? && ScansLabel(Init(run), Last(run), LabelOf(Last(run))) then Some(LabelOf(Last(run)))
    else LabelWaiting(Init(run))
  }

  function LabelOf(e: Event): string {
    if e.Scanned? && IsPoLabel(Strip(e.raw)) then PoOfLabel(Strip(e.raw)) else ""
  }

  // The PO last loaded, or last switched to by a label.
  ghost function PoInUse(run: seq<Event>): string
    requires Legal(run)
    decreases |run|
  {
    if run == [] then ""
    else if Last(run).PoLoaded? then Last(run).po
    else if Last(run).PostedRuns? && LabelWaiting(Init(run)).Some? then LabelWaiting(Init(run)).value
    else PoInUse(Init(run))
  }

  predicate LabelMoves(ui: Ui, e: Event, next: Ui)
    requires Enabled(ui, e)
  {
    && next.activePos == (if e.PoLoaded? && e.po !in ui.activePos then ui.activePos + [e.po] else ui.activePos)
    && next.currentPo == (if e.PoLoaded? then e.po
                          else if e.PostedRuns? && ui.posted.value.LockPo? then ui.posted.value.po
                          else ui.currentPo)
  }

  lemma UserLabelChange(ui: Ui, e: Event)
    requires Enabled(ui, e) && ByUser(e)
    ensures LabelMoves(ui, e, Next(ui, e))
  {
  }

  lemma OtherLabelChange(ui: Ui, e: Event)
    requires Enabled(ui, e) && !ByUser(e)
    ensures LabelMoves(ui, e, Next(ui, e))
  {
  }

  // The label callback a scan posts, if it posts one.
  lemma ScanPosts(ui: Ui, e: Event)
    requires Enabled(ui, e) && e.Scanned?
    ensures var po := LabelOf(e);
            var switches := !ui.phase.Matching? && !ui.phase.Resolving? && !ui.phase.Propose? && !ui.phase.NeedsModel?
                            && IsPoLabel(Strip(e.raw)) && po in ui.activePos;
            && (switches ==> Next(ui, e).posted == Some(LockPo(po)))
            && (!switches ==> Next(ui, e).posted.None? || Next(ui, e).posted.value.ProposeScan?)
  {
  }

  predicate PostedKeeps(ui: Ui, e: Event, next: Ui) {
    !e.Scanned? ==> next.posted == if e.PostedRuns? then None else ui.posted
  }

  lemma UserPostedKeeps(ui: Ui, e: Event)
    requires Enabled(ui, e) && ByUser(e)
    ensures PostedKeeps(ui, e, Next(ui, e))
  {
  }

  lemma OtherPostedKeeps(ui: Ui, e: Event)
    requires Enabled(ui, e) && !ByUser(e)
    ensures PostedKeeps(ui, e, Next(ui, e))
  {
  }

  lemma {:induction false} ActiveAreLoaded(run: seq<Event>, po: string)
    requires Legal(run)
    ensures po in Reach(run).activePos <==> Loaded(run, po)
    decreases |run|
  {
    if run != [] {
      var ui, e := Reach(Init(run)), Last(run);
      ActiveAreLoaded(Init(run), po);
      assert run == Init(run) + [e];
      if ByUser(e) { UserLabelChange(ui, e); } else { OtherLabelChange(ui, e); }
    }
  }

  ghost predicate WaitingIsPosted(run: seq<Event>)
    requires Legal(run)
  {
    forall po :: LabelWaiting(run) == Some(po) <==> Reach(run).posted == Some(LockPo(po))
  }

  lemma {:induction false} WaitingIsPostedAlways(run: seq<Event>)
    requires Legal(run)
    ensures WaitingIsPosted(run)
    decreases |run|
  {
    if run != [] {
      var ui, e := Reach(Init(run)), Last(run);
      WaitingIsPostedAlways(Init(run));
      if ByUser(e) { UserPostedKeeps(ui, e); } else { OtherPostedKeeps(ui, e); }
      if e.Scanned? {
        ActiveAreLoaded(Init(run), LabelOf(e));
        ScanPosts(ui, e);
      }
    }
  }

  // In every reachable state the PO in use is the one last loaded or last switched to.
  lemma {:induction false} CurrentPoIsInUse(run: seq<Event>)
    requires Legal(run)
    ensures Reach(run).currentPo == PoInUse(run)
    decreases |run|
  {
    if run != [] {
      var ui, e := Reach(Init(run)), Last(run);
      CurrentPoIsInUse(Init(run));
      WaitingIsPostedAlways(Init(run));
      if ByUser(e) { UserLabelChange(ui, e); } else { OtherLabelChange(ui, e); }
      if e.PostedRuns? && ui.posted.value.LockPo? {
        assert LabelWaiting(Init(run)) == Some(ui.posted.value.po);
      }
      if e.PostedRuns? && LabelWaiting(Init(run)).Some? {
        assert ui.posted == Some(LockPo(LabelWaiting(Init(run)).value));
      }
    }
  }

  // Scanning the label of a loaded PO in such a state, and running its callback, leaves that PO in use, the
  // window idle and no model held.
  lemma LabelSwitches(run: seq<Event>, raw: string, po: string)
    requires Legal(run) && Enabled(Reach(run), Scanned(raw)) && ScansLabel(run, Scanned(raw), po)
    ensures Legal(run + [Scanned(raw)]) && Legal(run + [Scanned(raw), PostedRuns])
    ensures var ui := Reach(run + [Scanned(raw), PostedRuns]);
            && ui.currentPo == po && ui.phase == Idle && ui.modelScan == None && ui.posted == None
            && ui.matches == Reach(run).matches && ui.calls == Reach(run).calls
            && ui.resolutions == Reach(run).resolutions && ui.activePos == Reach(run).activePos
  {
    ActiveAreLoaded(run, po);
    Extend(run, Scanned(raw));
    ScanPosts(Reach(run), Scanned(raw));
    Extend(run + [Scanned(raw)], PostedRuns);
    assert run + [Scanned(raw)] + [PostedRuns] == run + [Scanned(raw), PostedRuns];
  }

  // So does the label text of a loaded number, in any case and with white space.
  lemma LabelTextSwitches(run: seq<Event>, mark: string, po: string)
    requires Legal(run) && mark in ["PO:", "Po:", "pO:", "po:"] && IsPoNumber(po) && Loaded(run, po)
    requires var ui := Reach(run);
             && ui.posted.None? && !ui.phase.Matching? && !ui.phase.Resolving?
             && !ui.phase.Propose? && !ui.phase.NeedsModel?
    ensures Legal(run + [Scanned(mark + po), PostedRuns])
    ensures Reach(run + [Scanned(mark + po), PostedRuns]).currentPo == po
  {
    assert ScansLabel(run, Scanned(mark + po), po) by {
      assert mark + po == "" + (mark + "" + po) + "";
      LabelNames("", mark, "", po, "");
    }
    LabelSwitches(run, mark + po, po);
  }
}
