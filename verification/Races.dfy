/** Two workers on one row, and two scans on one receiving id. */
module Races {
  import opened Wrappers
  import opened Tables
  import opened Matching
  import opened ScanRecords
  import opened Schema
  import opened Receive
  import opened Protocol
  import opened Claims

  // ---- Races ------------------------------------------------------------------------------

  // Two workers read before either commits.
  function Race(w: nat, first: Scan, v: nat, second: Scan, row: InventoryRow): seq<Action> {
    [Does(w, Read(first, Some(row))), Does(v, Read(second, Some(row))), Does(w, Commit), Does(v, Commit)]
  }

  ghost predicate CanRace(s: State, w: nat, first: Scan, v: nat, second: Scan, row: InventoryRow) {
    && Shape(s) && w != v && w in s.workers && v in s.workers
    && s.workers[w].pc == Idle && s.workers[w].queue == [] && s.workers[v].pc == Idle && s.workers[v].queue == []
    && first.po == second.po && Chooses(s.inventory, first, Some(row)) && Chooses(s.inventory, second, Some(row))
  }

  lemma ReadLeads(s: State, w: nat, scan: Scan, matched: Option<InventoryRow>)
    requires w in s.workers && s.workers[w].pc == Idle && s.workers[w].queue == []
    requires Chooses(s.inventory, scan, matched) && (matched.Some? || scan.serial == "")
    ensures Enabled(s, Does(w, Read(scan, matched)))
    ensures After(s, Does(w, Read(scan, matched)))
         == s.(workers := s.workers[w := s.workers[w].(pc := Chosen(scan, matched))])
  {
  }

  lemma CommitLeads(s: State, w: nat, scan: Scan, matched: Option<InventoryRow>)
    requires w in s.workers && s.workers[w].pc == Chosen(scan, matched)
    ensures Enabled(s, Does(w, Commit))
    ensures var t := After(s, Does(w, Commit));
            t == s.(inventory := Claimed(s.inventory, scan, matched),
                    items := SaveRow(s.items, RecordFor(scan, matched)),
                    workers := s.workers[w := s.workers[w].(pc := Saved(RecordFor(scan, matched)))],
                    claims := t.claims, keys := t.keys)
  {
  }

  lemma RaiseLeads(s: State, w: nat, rec: Record)
    requires w in s.workers && s.workers[w].pc == Saved(rec)
    ensures Enabled(s, Does(w, Raise))
    ensures After(s, Does(w, Raise)) == s.(workers := s.workers[w := s.workers[w].(pc := Idle)])
  {
  }

  lemma RaceOutcome(s: State, w: nat, first: Scan, v: nat, second: Scan, row: InventoryRow)
    requires CanRace(s, w, first, v, second, row)
    ensures Legal(s, Race(w, first, v, second, row))
    ensures var t := Final(s, Race(w, first, v, second, row));
            && ClaimOf(t.inventory, row.inventoryId) == Some(first.now)
            && t.items == SaveRow(SaveRow(s.items, RecordFor(first, Some(row))), RecordFor(second, Some(row)))
  {
    var acts := Race(w, first, v, second, row);
    ReadLeads(s, w, first, Some(row));
    var s1 := After(s, acts[0]);
    ReadLeads(s1, v, second, Some(row));
    var s2 := After(s1, acts[1]);
    CommitLeads(s2, w, first, Some(row));
    var s3 := After(s2, acts[2]);
    CommitLeads(s3, v, second, Some(row));
    FourSteps(s, acts, s1, s2, s3);
    assert s.inventory[row.inventoryId] == row && row.claimedAt == None;
  }

  lemma FourSteps(s: State, acts: seq<Action>, s1: State, s2: State, s3: State)
    requires |acts| == 4
    requires Enabled(s, acts[0]) && After(s, acts[0]) == s1 && Enabled(s1, acts[1]) && After(s1, acts[1]) == s2
    requires Enabled(s2, acts[2]) && After(s2, acts[2]) == s3 && Enabled(s3, acts[3])
    ensures Legal(s, acts) && Final(s, acts) == After(s3, acts[3])
  {
    var a1, a2, a3 := acts[1..], acts[1..][1..], acts[1..][1..][1..];
    assert a1[0] == acts[1] && a2[0] == acts[2] && a3[0] == acts[3] && a3[1..] == [];
    assert Legal(s3, a3) && Final(s3, a3) == After(s3, acts[3]);
    assert Legal(s2, a2) && Final(s2, a2) == Final(s3, a3);
    assert Legal(s1, a1) && Final(s1, a1) == Final(s2, a2);
  }

  // The guard on the claim does not stop the second receipt: with two texts for one model, one slot
  // is received twice, under two ids.
  lemma TwoTextsReceiveTwice(s: State, w: nat, first: Scan, v: nat, second: Scan, row: InventoryRow)
    requires CanRace(s, w, first, v, second, row) && first.text != second.text
    ensures Legal(s, Race(w, first, v, second, row))
    ensures var t := Final(s, Race(w, first, v, second, row));
            var a, b := RecordFor(first, Some(row)).receivingId, RecordFor(second, Some(row)).receivingId;
            && a != b && a in ReceivedIds(t.items) && b in ReceivedIds(t.items)
            && t.items[a].inventoryId == t.items[b].inventoryId == row.inventoryId
  {
    RaceOutcome(s, w, first, v, second, row);
    SamePoCollisionIff(first.po, row.inventoryId, first.text, row.inventoryId, second.text);
    assert row.inventoryId[|row.inventoryId|..] + second.text == second.text;
  }

  // With one text the two units share a receipt, and only the second serial is kept.
  lemma OneTextKeepsOneSerial(s: State, w: nat, first: Scan, v: nat, second: Scan, row: InventoryRow)
    requires CanRace(s, w, first, v, second, row) && first.text == second.text
    ensures Legal(s, Race(w, first, v, second, row))
    ensures var t := Final(s, Race(w, first, v, second, row));
            var a := RecordFor(first, Some(row)).receivingId;
            && a == RecordFor(second, Some(row)).receivingId
            && a in t.items && t.items[a].serial == second.serial
            && t.items.Keys == s.items.Keys + {a}
  {
    RaceOutcome(s, w, first, v, second, row);
  }

  // ---- A collision ----------------------------------------------------------------------------

  const UNIT := CatalogItem("1", "7", "A", None, None, None, None)
  const SLOT := CatalogRow(UNIT, None)
  const UNIT_SCAN := Scan("A", "7", "S", "t1")
  const STRAY_SCAN := Scan("1A", "7", "", "t2")

  lemma UnitBinds(inventory: Inventory)
    requires inventory == map["1" := SLOT]
    ensures Chooses(inventory, UNIT_SCAN, Some(SLOT))
  {
    assert Lower("A") == "a";
    assert Remove('-', "a") == "a" by { assert "a"[1..] == ""; }
    assert Remove(' ', "a") == "a" by { assert "a"[1..] == ""; }
    assert NormalizeKey("A") == "a";
    assert inventory["1"] in Unclaimed(inventory, "7");
  }

  lemma NothingLeft(inventory: Inventory)
    requires inventory == map["1" := SLOT.(claimedAt := Some("t1"))]
    ensures Chooses(inventory, STRAY_SCAN, None)
  {
  }

  ghost predicate Ready(t: State, w: nat) {
    w in t.workers && t.workers[w].pc == Idle && t.workers[w].queue == []
  }

  // One commit of an idle worker, interrupted right after it.
  lemma CommitAndStop(t: State, w: nat, scan: Scan, matched: Option<InventoryRow>) returns (u: State)
    requires Ready(t, w) && Chooses(t.inventory, scan, matched) && (matched.Some? || scan.serial == "")
    ensures Legal(t, CommitOnly(w, scan, matched)) && u == Final(t, CommitOnly(w, scan, matched))
    ensures u == t.(inventory := Claimed(t.inventory, scan, matched),
                    items := SaveRow(t.items, RecordFor(scan, matched)), claims := u.claims, keys := u.keys)
  {
    ReadLeads(t, w, scan, matched);
    var t1 := After(t, Does(w, Read(scan, matched)));
    CommitLeads(t1, w, scan, matched);
    var t2 := After(t1, Does(w, Commit));
    RaiseLeads(t2, w, RecordFor(scan, matched));
    u := After(t2, Does(w, Raise));
    assert u.workers == t.workers;
    Cons(t2, Does(w, Raise), []);
    Cons(t1, Does(w, Commit), [Does(w, Raise)] + []);
    Cons(t, Does(w, Read(scan, matched)), [Does(w, Commit)] + ([Does(w, Raise)] + []));
    assert CommitOnly(w, scan, matched)
        == [Does(w, Read(scan, matched))] + ([Does(w, Commit)] + ([Does(w, Raise)] + []));
  }

  function CommitOnly(w: nat, scan: Scan, matched: Option<InventoryRow>): seq<Action> {
    [Does(w, Read(scan, matched)), Does(w, Commit), Does(w, Raise)]
  }

  // A loaded catalog and one idle worker.
  lemma LoadedScanner() returns (acts: seq<Action>, t: State)
    ensures Legal(INIT, acts) && t == Final(INIT, acts)
    ensures forall j :: 0 <= j < |acts| ==> !Reads(acts[j])
    ensures Ready(t, 0) && t.inventory == map["1" := SLOT] && t.items == map[]
  {
    assert UpsertAll(map[], [UNIT]) == map["1" := SLOT] by {
      assert UpsertAll(map[], [UNIT][..0]) == map[];
    }
    var s1 := After(INIT, Replace([UNIT]));
    var s2 := After(s1, Boot);
    t := After(s2, Spawn(0));
    Cons(s2, Spawn(0), []);
    Cons(s1, Boot, [Spawn(0)] + []);
    Cons(INIT, Replace([UNIT]), [Boot] + ([Spawn(0)] + []));
    acts := [Replace([UNIT])] + ([Boot] + ([Spawn(0)] + []));
  }

  lemma LoadThenScan(load: seq<Action>, scans: seq<Action>)
    requires forall j :: 0 <= j < |load| ==> !Reads(load[j])
    requires NoRefresh(scans)
    ensures RefreshesFirst(load + scans)
  {
  }

  lemma StrayErases(items: Receipts)
    requires items == SaveRow(SaveRow(map[], RecordFor(UNIT_SCAN, Some(SLOT))), RecordFor(STRAY_SCAN, None))
    ensures ReceivedIds(items) == {}
  {
    NoMatchCollisionIff("7", "1A", "1", "A");
  }

  function UnitThenStray(): (acts: seq<Action>)
    ensures NoRefresh(acts)
  {
    CommitOnly(0, UNIT_SCAN, Some(SLOT)) + CommitOnly(0, STRAY_SCAN, None)
  }

  lemma UnitIsErased(t: State) returns (u: State)
    requires Ready(t, 0) && t.inventory == map["1" := SLOT] && t.items == map[]
    ensures Legal(t, UnitThenStray()) && u == Final(t, UnitThenStray())
    ensures "1" in ClaimedRows(u.inventory) && ReceivedIds(u.items) == {}
  {
    UnitBinds(t.inventory);
    var mid := CommitAndStop(t, 0, UNIT_SCAN, Some(SLOT));
    NothingLeft(mid.inventory);
    u := CommitAndStop(mid, 0, STRAY_SCAN, None);
    StrayErases(u.items);
    Compose(t, CommitOnly(0, UNIT_SCAN, Some(SLOT)), CommitOnly(0, STRAY_SCAN, None));
  }

  // A run in which the stray text "1A" overwrites the receipt of unit 1, scanned as "A": the row stays
  // claimed and no received record is left.
  lemma CollidingRun() returns (acts: seq<Action>)
    ensures Legal(INIT, acts) && RefreshesFirst(acts)
    ensures var t := Final(INIT, acts);
            "1" in ClaimedRows(t.inventory) && ReceivedIds(t.items) == {} && !NamedByReceipt(t, "1")
  {
    var load, t := LoadedScanner();
    var u := UnitIsErased(t);
    Compose(INIT, load, UnitThenStray());
    LoadThenScan(load, UnitThenStray());
    acts := load + UnitThenStray();
  }
}
