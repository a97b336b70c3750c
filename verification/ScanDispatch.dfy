/** core/scan_dispatch.py: what a scan asks the window to do. */
module ScanDispatch {
  import opened Text

  datatype Phase =
    | Idle | Resolving | MidScan | Propose | NeedsModel | Matching
    | MatchFound | NoMatch | PrintFailed | AlreadyScanned | SyncStopped

  datatype ScanAction =
    | DropBusy
    | PoSwitch(po: string)
    | PoNotLoaded(po: string)
    | Turnstile(barcode: string)
    | BlockedRealert
    | NeedPo
    | Resolve(barcode: string)
    | MidScanDirect(barcode: string)
    | SerialMatch(serial: string)

  // `cleaned.upper().startswith("PO:")`
  predicate IsPoLabel(cleaned: string) {
    |cleaned| >= 3 && cleaned[0] in "Pp" && cleaned[1] in "Oo" && cleaned[2] == ':'
  }

  function PoOfLabel(cleaned: string): string
    requires IsPoLabel(cleaned)
  {
    Strip(cleaned[3..])
  }

  function DecideScanAction(state: Phase, cleaned: string, hasCurrentPo: bool, hasResolver: bool,
                            activePos: seq<string>): ScanAction
  {
    if state.Matching? || state.Resolving? then DropBusy
    else if state.Propose? then Turnstile(cleaned)
    else if state.NeedsModel? then BlockedRealert
    else if IsPoLabel(cleaned) then
      if PoOfLabel(cleaned) in activePos then PoSwitch(PoOfLabel(cleaned)) else PoNotLoaded(PoOfLabel(cleaned))
    else if state.Idle? || state.MatchFound? then
      if !hasCurrentPo then NeedPo
      else if hasResolver then Resolve(cleaned)
      else MidScanDirect(cleaned)
    else if state.MidScan? then SerialMatch(cleaned)
    else DropBusy
  }

  // Which scans ask for what. The block wins over a PO label, a serial is matched only in MID_SCAN,
  // and every other window state drops what is not a PO label.
  lemma DispatchMeaning(state: Phase, cleaned: string, hasPo: bool, hasResolver: bool, activePos: seq<string>)
    ensures var a := DecideScanAction(state, cleaned, hasPo, hasResolver, activePos);
            var blocked, busy := state.Propose? || state.NeedsModel?, state.Matching? || state.Resolving?;
            && (a.SerialMatch? <==> state.MidScan? && !IsPoLabel(cleaned))
            && (a.Resolve? <==> (state.Idle? || state.MatchFound?) && hasPo && hasResolver && !IsPoLabel(cleaned))
            && (a.Turnstile? <==> state.Propose?)
            && (a.BlockedRealert? <==> state.NeedsModel?)
            && (a.PoSwitch? || a.PoNotLoaded? <==> IsPoLabel(cleaned) && !blocked && !busy)
            && (a.PoSwitch? ==> a.po in activePos && a.po == PoOfLabel(cleaned))
            && (a.PoNotLoaded? ==> a.po !in activePos && a.po == PoOfLabel(cleaned))
            && (a.DropBusy? <==> busy || (!IsPoLabel(cleaned) && (state.NoMatch? || state.PrintFailed?
                                                                  || state.AlreadyScanned? || state.SyncStopped?)))
            && (a.Turnstile? ==> a.barcode == cleaned) && (a.Resolve? ==> a.barcode == cleaned)
            && (a.SerialMatch? ==> a.serial == cleaned)
  {
  }
}
