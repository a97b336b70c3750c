/** Claimed slots against stored receipts, over every run of the protocol. */
module Claims {
  import opened Wrappers
  import opened Schema
  import opened Tables
  import opened ScanRecords
  import opened Receive
  import opened Sessions
  import opened Protocol

  function ClaimedRows(inventory: Inventory): set<string> {
    set i | i in inventory && inventory[i].claimedAt.Some?
  }

  function ReceivedIds(items: Receipts): set<string> {
    set rid | rid in items && items[rid].matchStatus == "received"
  }

  function RowsOf(claims: set<ScanKey>): set<string> {
    set k | k in claims && k.inventoryId.Some? :: k.inventoryId.value
  }

  // ---- Claims since the last refresh ----------------------------------------------------

  ghost predicate ClaimsExact(s: State) {
    && Shape(s)
    && (forall k :: k in s.claims ==> k.inventoryId.Some? && k in s.keys)
    && ClaimedRows(s.inventory) == RowsOf(s.claims)
  }

  lemma ClaimRowClaims(inventory: Inventory, i: string, at: string)
    ensures ClaimedRows(ClaimRow(inventory, i, at)) == ClaimedRows(inventory) + if i in inventory then {i} else {}
    ensures ClaimRow(inventory, i, at).Keys == inventory.Keys
    ensures forall j :: ClaimOf(inventory, j).Some? ==> ClaimOf(ClaimRow(inventory, i, at), j) == ClaimOf(inventory, j)
  {
  }

  lemma RowsOfGrows(claims: set<ScanKey>, k: ScanKey)
    requires k.inventoryId.Some?
    ensures RowsOf(claims + {k}) == RowsOf(claims) + {k.inventoryId.value}
  {
    assert k in claims + {k};
  }

  lemma ClaimsExactKept(s: State, a: Action)
    requires ClaimsExact(s) && Enabled(s, a)
    ensures ClaimsExact(After(s, a))
  {
    ShapeKept(s, a);
    if a.Replace? {
      UpsertKeepsClaims(map[], a.catalog);
      var t := UpsertAll(map[], a.catalog);
      assert forall i :: i in ClaimedRows(t) <==> ClaimOf(t, i).Some?;
      assert forall i :: ClaimOf(t, i) == ClaimOf(map[], i) == None;
      assert ClaimedRows(t) == {};
    } else if a.Upsert? {
      UpsertKeepsClaims(s.inventory, a.catalog);
      var t := UpsertAll(s.inventory, a.catalog);
      assert forall i :: i in ClaimedRows(t) <==> ClaimOf(t, i).Some?;
      assert forall i :: i in ClaimedRows(s.inventory) <==> ClaimOf(s.inventory, i).Some?;
    } else if Commits(a) && s.workers[a.w].pc.matched.Some? {
      var scan, row := s.workers[a.w].pc.scan, s.workers[a.w].pc.matched.value;
      ClaimRowClaims(s.inventory, row.inventoryId, scan.now);
      RowsOfGrows(s.claims, ScanKeyOf(scan, Some(row)));
    }
  }

  // In every reachable state the claimed rows are exactly the rows of the claiming commits since
  // the last refresh.
  lemma {:induction false} ClaimsAreExact(s: State, acts: seq<Action>)
    requires ClaimsExact(s) && Legal(s, acts)
    ensures ClaimsExact(Final(s, acts))
    decreases |acts|
  {
    if acts != [] {
      ClaimsExactKept(s, acts[0]);
      ClaimsAreExact(After(s, acts[0]), acts[1..]);
    }
  }

  predicate NoRefresh(acts: seq<Action>) {
    forall k :: 0 <= k < |acts| ==> !acts[k].Replace?
  }

  // Between refreshes no row disappears and a claimed row keeps the time it was claimed at, for any
  // number of workers racing for it.
  lemma {:induction false} ClaimIsPermanent(s: State, acts: seq<Action>, i: string)
    requires Legal(s, acts) && NoRefresh(acts)
    ensures i in s.inventory ==> i in Final(s, acts).inventory
    ensures ClaimOf(s.inventory, i).Some? ==> ClaimOf(Final(s, acts).inventory, i) == ClaimOf(s.inventory, i)
    decreases |acts|
  {
    if acts != [] {
      var a := acts[0];
      assert !acts[0].Replace?;
      if a.Upsert? {
        UpsertKeepsClaims(s.inventory, a.catalog);
      } else if Commits(a) && s.workers[a.w].pc.matched.Some? {
        ClaimRowClaims(s.inventory, s.workers[a.w].pc.matched.value.inventoryId, s.workers[a.w].pc.scan.now);
      }
      assert forall k :: 0 <= k < |acts[1..]| ==> acts[1..][k] == acts[k + 1];
      ClaimIsPermanent(After(s, a), acts[1..], i);
    }
  }

  // ---- The record of commits --------------------------------------------------------------

  // The keys of the commits of a run, in order.
  ghost function CommitLog(s: State, acts: seq<Action>): seq<ScanKey>
    requires Legal(s, acts)
    decreases |acts|
  {
    if acts == [] then [] else Committed(s, acts[0]) + CommitLog(After(s, acts[0]), acts[1..])
  }

  ghost function Committed(s: State, a: Action): seq<ScanKey>
    requires Enabled(s, a)
  {
    if Commits(a) then [ScanKeyOf(s.workers[a.w].pc.scan, s.workers[a.w].pc.matched)] else []
  }

  // The last commit whose key was hashed from this text.
  function LastOf(log: seq<ScanKey>, text: string): (k: Option<ScanKey>)
    ensures k.Some? ==> k.value in log && TextOf(k.value) == text
    ensures k.None? ==> forall j :: j in log ==> TextOf(j) != text
  {
    if log == [] then None
    else
      var last := log[|log| - 1];
      if TextOf(last) == text then Some(last)
      else
        assert log == log[..|log| - 1] + [last];
        LastOf(log[..|log| - 1], text)
  }

  lemma LastOfSnoc(log: seq<ScanKey>, k: ScanKey, text: string)
    ensures LastOf(log + [k], text) == if TextOf(k) == text then Some(k) else LastOf(log, text)
  {
    assert (log + [k])[..|log|] == log;
  }

  // What is stored under an id tells of the last commit of its text, and nothing else is stored.
  ghost predicate Tells(items: Receipts, k: ScanKey) {
    && RidOf(k) in items
    && items[RidOf(k)].inventoryId == OrBlank(k.inventoryId)
    && (items[RidOf(k)].matchStatus == "received" <==> k.inventoryId.Some?)
  }

  ghost predicate Ledger(items: Receipts, log: seq<ScanKey>) {
    HasCommits(items, log) && LastsTell(items, log)
  }

  ghost predicate HasCommits(items: Receipts, log: seq<ScanKey>) {
    forall rid :: rid in items ==> exists k :: k in log && RidOf(k) == rid
  }

  ghost predicate LastsTell(items: Receipts, log: seq<ScanKey>) {
    forall k :: k in log && LastOf(log, TextOf(k)) == Some(k) ==> Tells(items, k)
  }

  lemma RecordIsUnder(scan: Scan, matched: Option<InventoryRow>)
    ensures RecordFor(scan, matched).receivingId == RidOf(ScanKeyOf(scan, matched))
  {
  }

  lemma SameRidIff(a: ScanKey, b: ScanKey)
    ensures RidOf(a) == RidOf(b) <==> TextOf(a) == TextOf(b)
  {
    assert Sha256Hex(TextOf(a))[1..] == TextOf(a);
    assert Sha256Hex(TextOf(b))[1..] == TextOf(b);
  }

  lemma SavedHasCommits(items: Receipts, log: seq<ScanKey>, scan: Scan, matched: Option<InventoryRow>)
    requires HasCommits(items, log)
    ensures HasCommits(SaveRow(items, RecordFor(scan, matched)), log + [ScanKeyOf(scan, matched)])
  {
    var key := ScanKeyOf(scan, matched);
    var saved, longer := SaveRow(items, RecordFor(scan, matched)), log + [key];
    RecordIsUnder(scan, matched);
    assert key in longer;
    forall rid | rid in saved ensures exists k :: k in longer && RidOf(k) == rid {
      if rid != RidOf(key) {
        assert rid in items;
        var k :| k in log && RidOf(k) == rid;
        assert k in longer;
      }
    }
  }

  lemma SavedTells(items: Receipts, k: ScanKey, scan: Scan, matched: Option<InventoryRow>)
    requires k == ScanKeyOf(scan, matched) || (Tells(items, k) && TextOf(k) != TextOf(ScanKeyOf(scan, matched)))
    ensures Tells(SaveRow(items, RecordFor(scan, matched)), k)
  {
    RecordIsUnder(scan, matched);
    SameRidIff(k, ScanKeyOf(scan, matched));
  }

  lemma SavedLastsTell(items: Receipts, log: seq<ScanKey>, scan: Scan, matched: Option<InventoryRow>)
    requires LastsTell(items, log)
    ensures LastsTell(SaveRow(items, RecordFor(scan, matched)), log + [ScanKeyOf(scan, matched)])
  {
    var key := ScanKeyOf(scan, matched);
    var saved, longer := SaveRow(items, RecordFor(scan, matched)), log + [key];
    forall k | k in longer && LastOf(longer, TextOf(k)) == Some(k) ensures Tells(saved, k) {
      LastOfSnoc(log, key, TextOf(k));
      SavedTells(items, k, scan, matched);
    }
  }

  lemma MarkedTells(items: Receipts, k: ScanKey, rid: string)
    requires Tells(items, k)
    ensures Tells(MarkRow(items, rid), k)
  {
  }

  lemma MarkedLedger(items: Receipts, log: seq<ScanKey>, rid: string)
    requires Ledger(items, log)
    ensures Ledger(MarkRow(items, rid), log)
  {
    forall k | k in log && LastOf(log, TextOf(k)) == Some(k) ensures Tells(MarkRow(items, rid), k) {
      MarkedTells(items, k, rid);
    }
    assert MarkRow(items, rid).Keys == items.Keys;
  }

  lemma LedgerKept(s: State, a: Action, log: seq<ScanKey>)
    requires Ledger(s.items, log) && Enabled(s, a)
    ensures Ledger(ItemsAfter(s, a), log + Committed(s, a))
  {
    assert log + [] == log;
    if Commits(a) {
      SavedHasCommits(s.items, log, s.workers[a.w].pc.scan, s.workers[a.w].pc.matched);
      SavedLastsTell(s.items, log, s.workers[a.w].pc.scan, s.workers[a.w].pc.matched);
    } else if a.Does? && a.move.Mark? {
      MarkedLedger(s.items, log, s.workers[a.w].pc.record.receivingId);
    }
  }

  lemma LogGrows(s: State, acts: seq<Action>, log: seq<ScanKey>)
    requires Legal(s, acts)
    ensures if acts == [] then log + CommitLog(s, acts) == log
            else log + CommitLog(s, acts) == log + Committed(s, acts[0]) + CommitLog(After(s, acts[0]), acts[1..])
  {
  }

  // Over any run, refreshed or not, each stored receipt is that of the last commit of its text.
  lemma {:induction false} ReceiptIsOfLastCommit(s: State, acts: seq<Action>, log: seq<ScanKey>)
    requires Ledger(s.items, log) && Legal(s, acts)
    ensures Ledger(Final(s, acts).items, log + CommitLog(s, acts))
    decreases |acts|
  {
    LogGrows(s, acts, log);
    if acts != [] {
      LedgerKept(s, acts[0], log);
      ReceiptIsOfLastCommit(After(s, acts[0]), acts[1..], log + Committed(s, acts[0]));
    }
  }

  // ---- Claims are commits ------------------------------------------------------------------

  // What a worker is about to claim is still in the catalog.
  ghost predicate ChosenExists(s: State) {
    forall w :: w in s.workers && s.workers[w].pc.Chosen? && s.workers[w].pc.matched.Some? ==>
      s.workers[w].pc.matched.value.inventoryId in s.inventory
  }

  lemma ChosenExistsKept(s: State, a: Action)
    requires Shape(s) && ChosenExists(s) && Enabled(s, a) && !a.Replace?
    ensures ChosenExists(After(s, a))
  {
    if a.Upsert? {
      UpsertKeepsClaims(s.inventory, a.catalog);
    }
    assert s.inventory.Keys <= InventoryAfter(s, a).Keys;
    var inventory, workers := InventoryAfter(s, a), WorkersAfter(s, a);
    forall w | w in workers && workers[w].pc.Chosen? && workers[w].pc.matched.Some?
      ensures workers[w].pc.matched.value.inventoryId in inventory
    {
      if a.Does? && a.w == w && a.move.Read? {
        assert a.move.matched.value in Unclaimed(s.inventory, a.move.scan.po);
      } else if a.Does? && a.w == w {
      } else {
        assert workers[w] == s.workers[w];
      }
    }
  }

  // The claims are the commits of matched scans, and all commits are in the history.
  ghost predicate ClaimsLogged(s: State, log: seq<ScanKey>) {
    && (forall k :: k in s.claims <==> k in log && k.inventoryId.Some?)
    && (forall k :: k in log <==> k in s.keys)
  }

  lemma ClaimsLoggedKept(s: State, a: Action, log: seq<ScanKey>)
    requires ClaimsLogged(s, log) && ChosenExists(s) && Enabled(s, a) && !a.Replace?
    ensures ClaimsLogged(After(s, a), log + Committed(s, a))
  {
  }

  // Nothing has been scanned: the catalog may still be replaced.
  ghost predicate Unscanned(s: State) {
    && s.items == map[] && s.claims == {} && s.keys == {}
    && forall w :: w in s.workers ==> !s.workers[w].pc.Looked? && !s.workers[w].pc.Chosen?
  }

  predicate Reads(a: Action) {
    a.Does? && a.move.Read?
  }

  // The catalog may be replaced until the first scan, and not after it.
  predicate RefreshesFirst(acts: seq<Action>) {
    forall j, k :: 0 <= j < k < |acts| && Reads(acts[j]) ==> !acts[k].Replace?
  }

  lemma UnscannedKept(s: State, a: Action)
    requires Unscanned(s) && Enabled(s, a) && !Reads(a)
    ensures Unscanned(After(s, a)) && Committed(s, a) == [] && ChosenExists(After(s, a))
  {
    var workers := WorkersAfter(s, a);
    forall w | w in workers ensures !workers[w].pc.Looked? && !workers[w].pc.Chosen? {
      assert (a.Does? && a.w == w) || (a.Spawn? && w == s.spawned) || workers[w] == s.workers[w];
    }
  }

  ghost predicate Logged(s: State, log: seq<ScanKey>) {
    ClaimsExact(s) && ChosenExists(s) && ClaimsLogged(s, log)
  }

  lemma LoggedKept(s: State, a: Action, log: seq<ScanKey>)
    requires Logged(s, log) && Enabled(s, a) && (a.Replace? ==> log == [] && Unscanned(s))
    ensures Logged(After(s, a), log + Committed(s, a))
  {
    ClaimsExactKept(s, a);
    if a.Replace? {
      UnscannedKept(s, a);
    } else {
      ChosenExistsKept(s, a);
      ClaimsLoggedKept(s, a, log);
    }
  }

  lemma {:induction false} ClaimsAreLogged(s: State, acts: seq<Action>, log: seq<ScanKey>)
    requires Logged(s, log) && Legal(s, acts)
    requires NoRefresh(acts) || (log == [] && Unscanned(s) && RefreshesFirst(acts))
    ensures Logged(Final(s, acts), log + CommitLog(s, acts))
    decreases |acts|
  {
    LogGrows(s, acts, log);
    if acts != [] {
      var a, rest := acts[0], acts[1..];
      LoggedKept(s, a, log);
      NoRefreshLater(acts);
      if !NoRefresh(rest) {
        UnscannedKept(s, a);
      }
      ClaimsAreLogged(After(s, a), rest, log + Committed(s, a));
    }
  }

  lemma NoRefreshLater(acts: seq<Action>)
    requires acts != []
    ensures NoRefresh(acts) ==> !acts[0].Replace? && NoRefresh(acts[1..])
    ensures RefreshesFirst(acts) ==> RefreshesFirst(acts[1..]) && (Reads(acts[0]) ==> NoRefresh(acts[1..]))
  {
    assert forall k :: 0 <= k < |acts[1..]| ==> acts[1..][k] == acts[k + 1];
  }

  // ---- Claims against receipts ---------------------------------------------------------------

  ghost predicate NamedByReceipt(s: State, i: string) {
    exists rid :: rid in ReceivedIds(s.items) && s.items[rid].inventoryId == i
  }

  // The claiming keys that no later commit hashed the text of.
  function Survivors(claims: set<ScanKey>, log: seq<ScanKey>): set<ScanKey> {
    set k | k in claims && LastOf(log, TextOf(k)) == Some(k)
  }

  // No two different scans that committed hash one text.
  predicate KeysApart(keys: set<ScanKey>) {
    forall a, b :: a in keys && b in keys ==> Apart(a, b)
  }

  lemma ApartSurvive(s: State, log: seq<ScanKey>)
    requires ClaimsLogged(s, log) && KeysApart(s.keys)
    ensures Survivors(s.claims, log) == s.claims
  {
    forall k | k in s.claims ensures LastOf(log, TextOf(k)) == Some(k) {
      var last := LastOf(log, TextOf(k)).value;
      assert Apart(last, k);
    }
  }

  // The received records are those of the surviving claims.
  lemma ReceivedIsImage(s: State, log: seq<ScanKey>)
    requires ClaimsLogged(s, log) && Ledger(s.items, log)
    ensures ReceivedIds(s.items) == Image(RidOf, Survivors(s.claims, log))
    ensures InjectiveOn(RidOf, Survivors(s.claims, log))
    ensures forall k :: k in Survivors(s.claims, log) ==> Some(s.items[RidOf(k)].inventoryId) == k.inventoryId
  {
    var live := Survivors(s.claims, log);
    forall rid | rid in ReceivedIds(s.items) ensures rid in Image(RidOf, live) {
      var k :| k in log && RidOf(k) == rid;
      var last := LastOf(log, TextOf(k)).value;
      SameRidIff(k, last);
      assert Tells(s.items, last);
      assert last in live && RidOf(last) == rid;
    }
    forall k | k in live
      ensures RidOf(k) in ReceivedIds(s.items) && Some(s.items[RidOf(k)].inventoryId) == k.inventoryId
    {
      assert Tells(s.items, k);
    }
    forall a, b | a in live && b in live && RidOf(a) == RidOf(b) ensures a == b {
      SameRidIff(a, b);
    }
  }

  lemma HistoryIsLogged(acts: seq<Action>)
    requires Legal(INIT, acts) && RefreshesFirst(acts)
    ensures var t, log := Final(INIT, acts), CommitLog(INIT, acts);
            ClaimsExact(t) && ClaimsLogged(t, log) && Ledger(t.items, log)
  {
    ClaimsAreLogged(INIT, acts, []);
    ReceiptIsOfLastCommit(INIT, acts, []);
    assert [] + CommitLog(INIT, acts) == CommitLog(INIT, acts);
  }

  // Once the catalog is loaded, and before any refresh after that: a row is claimed exactly when some
  // commit claimed it, and is named by a received record exactly when one of those commits is the last
  // of its text. The two agree when no two different scans hash one text.
  lemma ClaimedIffReceived(acts: seq<Action>, i: string)
    requires Legal(INIT, acts) && RefreshesFirst(acts)
    ensures var t, log := Final(INIT, acts), CommitLog(INIT, acts);
            && (i in ClaimedRows(t.inventory) <==> exists k :: k in log && k.inventoryId == Some(i))
            && (NamedByReceipt(t, i) <==>
                  exists k :: k in log && k.inventoryId == Some(i) && LastOf(log, TextOf(k)) == Some(k))
            && (KeysApart(t.keys) ==> (NamedByReceipt(t, i) <==> i in ClaimedRows(t.inventory)))
  {
    var t, log := Final(INIT, acts), CommitLog(INIT, acts);
    var live := Survivors(t.claims, log);
    HistoryIsLogged(acts);
    ReceivedIsImage(t, log);
    assert i in RowsOf(t.claims) <==> exists k :: k in t.claims && k.inventoryId == Some(i);
    if NamedByReceipt(t, i) {
      var rid :| rid in ReceivedIds(t.items) && t.items[rid].inventoryId == i;
      var k :| k in live && RidOf(k) == rid;
      assert k in log && k.inventoryId == Some(i);
    }
    if k :| k in log && k.inventoryId == Some(i) && LastOf(log, TextOf(k)) == Some(k) {
      assert k in live && RidOf(k) in Image(RidOf, live);
    }
    if KeysApart(t.keys) && i in ClaimedRows(t.inventory) {
      ApartSurvive(t, log);
      var k :| k in t.claims && k.inventoryId == Some(i);
      assert k in live && RidOf(k) in Image(RidOf, live);
    }
  }

  // No unit was claimed through two different texts.
  predicate OneTextPerRow(claims: set<ScanKey>) {
    forall a, b :: a in claims && b in claims && a.inventoryId == b.inventoryId ==> a == b
  }

  function Image(f: ScanKey -> string, keys: set<ScanKey>): set<string> {
    set k | k in keys :: f(k)
  }

  predicate InjectiveOn(f: ScanKey -> string, keys: set<ScanKey>) {
    forall a, b :: a in keys && b in keys && f(a) == f(b) ==> a == b
  }

  lemma {:induction false} ImageSize(f: ScanKey -> string, keys: set<ScanKey>)
    ensures |Image(f, keys)| <= |keys|
    ensures |Image(f, keys)| == |keys| <==> InjectiveOn(f, keys)
    decreases |keys|
  {
    if keys != {} {
      var k :| k in keys;
      var rest := keys - {k};
      ImageSize(f, rest);
      assert keys == rest + {k};
      assert Image(f, keys) == Image(f, rest) + {f(k)};
      if f(k) in Image(f, rest) {
        var b :| b in rest && f(b) == f(k);
        assert !InjectiveOn(f, keys);
      } else {
        assert forall b :: b in rest ==> f(b) in Image(f, rest);
        assert InjectiveOn(f, keys) <==> InjectiveOn(f, rest);
      }
    }
  }

  lemma ClaimedIsImage(s: State)
    requires ClaimsExact(s)
    ensures ClaimedRows(s.inventory) == Image(RowOfKey, s.claims)
    ensures InjectiveOn(RowOfKey, s.claims) <==> OneTextPerRow(s.claims)
  {
  }

  function RowOfKey(k: ScanKey): string {
    OrBlank(k.inventoryId)
  }

  // Each claimed row is named by exactly one received record.
  ghost predicate OneReceiptEach(s: State) {
    forall i :: i in ClaimedRows(s.inventory) ==>
      NamedByReceipt(s, i)
      && forall a, b :: Names(s, a, i) && Names(s, b, i) ==> a == b
  }

  ghost predicate Names(s: State, rid: string, i: string) {
    rid in ReceivedIds(s.items) && s.items[rid].inventoryId == i
  }

  // Each claimed row has exactly one surviving claim.
  ghost predicate OneSurvivorEach(claims: set<ScanKey>, live: set<ScanKey>) {
    OneTextPerRow(live) && RowsOf(claims) == RowsOf(live)
  }

  lemma NamesAreSurvivors(s: State, live: set<ScanKey>, i: string)
    requires ReceivedIds(s.items) == Image(RidOf, live)
    requires forall k :: k in live ==> RidOf(k) in s.items && Some(s.items[RidOf(k)].inventoryId) == k.inventoryId
    ensures forall rid :: Names(s, rid, i) <==> exists k :: k in live && RidOf(k) == rid && k.inventoryId == Some(i)
    ensures NamedByReceipt(s, i) <==> i in RowsOf(live)
  {
    forall rid ensures Names(s, rid, i) <==> exists k :: k in live && RidOf(k) == rid && k.inventoryId == Some(i) {
      if Names(s, rid, i) {
        var k :| k in live && RidOf(k) == rid;
        assert k.inventoryId == Some(i);
      }
      if k :| k in live && RidOf(k) == rid && k.inventoryId == Some(i) {
        assert rid in Image(RidOf, live);
      }
    }
    if NamedByReceipt(s, i) {
      var rid :| rid in ReceivedIds(s.items) && s.items[rid].inventoryId == i;
      assert Names(s, rid, i);
    }
    if i in RowsOf(live) {
      var k :| k in live && k.inventoryId == Some(i);
      assert Names(s, RidOf(k), i);
    }
  }

  lemma PairedIff(s: State, log: seq<ScanKey>)
    requires ClaimsExact(s) && ClaimsLogged(s, log) && Ledger(s.items, log)
    ensures OneReceiptEach(s) <==> OneSurvivorEach(s.claims, Survivors(s.claims, log))
  {
    var live := Survivors(s.claims, log);
    ReceivedIsImage(s, log);
    assert forall i :: i in RowsOf(live) ==> i in RowsOf(s.claims);
    forall i {
      NamesAreSurvivors(s, live, i);
    }
    if OneReceiptEach(s) {
      NamedHasSurvivor(s, live);
    }
    if OneSurvivorEach(s.claims, live) {
      SurvivorIsNamed(s, live);
    }
  }

  ghost predicate NamesSurvive(s: State, live: set<ScanKey>) {
    && (forall rid, i :: Names(s, rid, i) <==> exists k :: k in live && RidOf(k) == rid && k.inventoryId == Some(i))
    && (forall i :: NamedByReceipt(s, i) <==> i in RowsOf(live))
    && (forall k :: k in live ==> k.inventoryId.Some? && k.inventoryId.value in ClaimedRows(s.inventory))
    && InjectiveOn(RidOf, live) && ClaimedRows(s.inventory) == RowsOf(s.claims)
  }

  lemma NamedHasSurvivor(s: State, live: set<ScanKey>)
    requires NamesSurvive(s, live) && OneReceiptEach(s)
    ensures OneSurvivorEach(s.claims, live)
  {
    forall a, b | a in live && b in live && a.inventoryId == b.inventoryId ensures a == b {
      var i := a.inventoryId.value;
      assert Names(s, RidOf(a), i) && Names(s, RidOf(b), i);
    }
  }

  lemma SurvivorIsNamed(s: State, live: set<ScanKey>)
    requires NamesSurvive(s, live) && OneSurvivorEach(s.claims, live)
    ensures OneReceiptEach(s)
  {
    forall i, a, b | i in ClaimedRows(s.inventory) && Names(s, a, i) && Names(s, b, i) ensures a == b {
      var k :| k in live && RidOf(k) == a && k.inventoryId == Some(i);
      var l :| l in live && RidOf(l) == b && l.inventoryId == Some(i);
    }
  }

  // Once the catalog is loaded, and before any refresh after that: there is one received record for
  // each surviving claim, and records and claimed rows pair up exactly when each claimed row has one
  // survivor. If scans hash apart, there are at least as many records as rows, and exactly as many
  // if and only if no unit was claimed through two texts.
  lemma ReceiptsMatchClaimsIff(acts: seq<Action>)
    requires Legal(INIT, acts) && RefreshesFirst(acts)
    ensures var t := Final(INIT, acts); var live := Survivors(t.claims, CommitLog(INIT, acts));
            && |ReceivedIds(t.items)| == |live|
            && (OneReceiptEach(t) <==> OneSurvivorEach(t.claims, live))
            && (KeysApart(t.keys) ==>
                  && |ClaimedRows(t.inventory)| <= |ReceivedIds(t.items)|
                  && (|ClaimedRows(t.inventory)| == |ReceivedIds(t.items)| <==> OneTextPerRow(t.claims)))
  {
    var t, log := Final(INIT, acts), CommitLog(INIT, acts);
    HistoryIsLogged(acts);
    ReceivedIsImage(t, log);
    ImageSize(RidOf, Survivors(t.claims, log));
    PairedIff(t, log);
    if KeysApart(t.keys) {
      ApartSurvive(t, log);
      ClaimedIsImage(t);
      ImageSize(RowOfKey, t.claims);
    }
  }
}
