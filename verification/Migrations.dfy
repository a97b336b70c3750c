/** adapters/db.py: schema migrations under crashes between and inside scripts. */
module Migrations {
  import opened Sequences

  // A file of the schema directory whose name starts with four digits and an underscore.
  datatype Script = Script(version: nat, name: string)

  // What survives a crash: `PRAGMA user_version`, and the scripts whose transactions committed.
  datatype Schema = Schema(version: nat, applied: seq<Script>)

  const EMPTY := Schema(0, [])

  predicate LexAtMost(a: string, b: string) {
    a == "" || (b != "" && (a[0] < b[0] || (a[0] == b[0] && LexAtMost(a[1..], b[1..]))))
  }

  predicate AtMost(a: Script, b: Script) {
    a.version < b.version || (a.version == b.version && LexAtMost(a.name, b.name))
  }

  function Sorted(s: seq<Script>): seq<Script> {
    SortedBy(AtMost, s)
  }

  function Newer(v: nat): Script -> bool {
    (s: Script) => s.version > v
  }

  // `_pending_migrations`, on whatever order the directory is listed in.
  function Pending(listing: seq<Script>, v: nat): seq<Script> {
    Sorted(Filter(Newer(v), listing))
  }

  // One start of the application, cut off before its (cut + 1)-th commit.
  function Start(db: Schema, listing: seq<Script>, cut: nat): Schema {
    Apply(db, Pending(listing, db.version), cut)
  }

  function Apply(db: Schema, scripts: seq<Script>, cut: nat): Schema
    decreases |scripts|
  {
    if scripts == [] || cut == 0 then db
    else Apply(Schema(scripts[0].version, db.applied + [scripts[0]]), scripts[1..], cut - 1)
  }

  datatype Boot = Boot(listing: seq<Script>, cut: nat)

  function After(boots: seq<Boot>): Schema {
    if boots == [] then EMPTY
    else Start(After(boots[..|boots| - 1]), boots[|boots| - 1].listing, boots[|boots| - 1].cut)
  }

  // ---- The database ---------------------------------------------------------------------------

  class Database {
    var version: nat
    var applied: seq<Script>
    // `broken(k)`: the k-th script run ends without its COMMIT.
    const broken: nat -> bool
    var runs: nat

    ghost function View(): Schema
      reads this
    {
      Schema(version, applied)
    }

    constructor (broken: nat -> bool)
      ensures View() == EMPTY && this.broken == broken && runs == 0
    {
      version, applied, runs := 0, [], 0;
      this.broken := broken;
    }

    method ExecuteScript(s: Script) returns (ok: bool)
      modifies this
      ensures ok == !broken(old(runs)) && runs == old(runs) + 1
      ensures View() == if ok then Schema(s.version, old(applied) + [s]) else old(View())
    {
      ok := !broken(runs);
      runs := runs + 1;
      if ok {
        version, applied := s.version, applied + [s];
      }
    }

    method EnsureSchema(listing: seq<Script>) returns (ok: bool, ghost cut: nat)
      modifies this
      ensures View() == Start(old(View()), listing, cut)
      ensures ok ==> cut == |Pending(listing, old(version))|
      ensures !ok ==> cut < |Pending(listing, old(version))| && broken(old(runs) + cut)
      ensures forall k | old(runs) <= k < old(runs) + cut :: !broken(k)
    {
      var scripts := Pending(listing, version);
      ghost var first := View();
      cut := 0;
      for k := 0 to |scripts|
        invariant cut == k && runs == old(runs) + k
        invariant applied == first.applied + scripts[..k]
        invariant version == if k == 0 then first.version else scripts[k - 1].version
        invariant forall j | old(runs) <= j < old(runs) + k :: !broken(j)
      {
        ok := ExecuteScript(scripts[k]);
        if !ok {
          ApplyTakesPrefix(first, scripts, cut);
          return;
        }
        cut := cut + 1;
        assert scripts[..k] + [scripts[k]] == scripts[..k + 1];
      }
      ApplyTakesPrefix(first, scripts, cut);
      ok := true;
    }
  }

  // ---- Sorting ------------------------------------------------------------------------------------

  predicate ByVersion(s: seq<Script>) {
    forall j, k :: 0 <= j < k < |s| ==> s[j].version <= s[k].version
  }

  lemma {:induction false} InsertByVersion(x: Script, s: seq<Script>)
    requires ByVersion(s)
    ensures ByVersion(Insert(AtMost, x, s))
  {
    if s != [] && !AtMost(x, s[0]) {
      assert ByVersion(s[1..]);
      InsertByVersion(x, s[1..]);
      InsertAdds(AtMost, x, s[1..]);
      var tail := Insert(AtMost, x, s[1..]);
      forall j | 0 <= j < |tail| ensures s[0].version <= tail[j].version {
        assert tail[j] in multiset(tail);
        if tail[j] != x {
          assert tail[j] in s[1..];
        }
      }
    }
  }

  lemma {:induction false} SortedMeaning(s: seq<Script>)
    ensures multiset(Sorted(s)) == multiset(s) && ByVersion(Sorted(s))
  {
    if s != [] {
      SortedMeaning(s[1..]);
      assert s == [s[0]] + s[1..];
      InsertAdds(AtMost, s[0], Sorted(s[1..]));
      InsertByVersion(s[0], Sorted(s[1..]));
    }
  }

  // Strictly ascending versions.
  predicate OneEach(s: seq<Script>) {
    forall j, k :: 0 <= j < k < |s| ==> s[j].version < s[k].version
  }

  lemma HeadsAgree(s: seq<Script>, t: seq<Script>)
    requires OneEach(s) && ByVersion(t) && multiset(s) == multiset(t) && s != [] && t != []
    ensures s[0] == t[0]
  {
    assert s[0] in multiset(t) && t[0] in multiset(s);
    var j :| 0 <= j < |s| && s[j] == t[0];
    var k :| 0 <= k < |t| && t[k] == s[0];
    assert t[0].version <= s[0].version;
  }

  lemma HeadAndTail(s: seq<Script>)
    requires s != []
    ensures multiset(s[1..]) == multiset(s) - multiset{s[0]}
  {
    assert s == [s[0]] + s[1..];
  }

  lemma TailsKeepOrder(s: seq<Script>, t: seq<Script>)
    requires OneEach(s) && ByVersion(t) && s != [] && t != []
    ensures OneEach(s[1..]) && ByVersion(t[1..])
  {
  }

  lemma {:induction false} OneOrder(s: seq<Script>, t: seq<Script>)
    requires OneEach(s) && ByVersion(t) && multiset(s) == multiset(t)
    ensures s == t
  {
    SingletonMultiset(s, t);
    if s != [] {
      HeadsAgree(s, t);
      HeadAndTail(s);
      HeadAndTail(t);
      TailsKeepOrder(s, t);
      OneOrder(s[1..], t[1..]);
    }
  }

  // ---- Crashes ------------------------------------------------------------------------------------------

  function VersionAfter(all: seq<Script>, k: nat): nat
    requires k <= |all|
  {
    if k == 0 then 0 else all[k - 1].version
  }

  function AtMostAll(cut: nat, s: seq<Script>): nat {
    if cut <= |s| then cut else |s|
  }

  lemma {:induction false} ApplyTakesPrefix(db: Schema, scripts: seq<Script>, cut: nat)
    ensures var n := AtMostAll(cut, scripts); var r := Apply(db, scripts, cut);
            r.applied == db.applied + scripts[..n] && r.version == if n == 0 then db.version else scripts[n - 1].version
    decreases |scripts|
  {
    if scripts != [] && cut != 0 {
      ApplyTakesPrefix(Schema(scripts[0].version, db.applied + [scripts[0]]), scripts[1..], cut - 1);
      var n := AtMostAll(cut, scripts);
      assert scripts[..n] == [scripts[0]] + scripts[1..][..n - 1];
    }
  }

  lemma PendingMembers(listing: seq<Script>, v: nat)
    ensures ByVersion(Pending(listing, v))
    ensures forall x :: multiset(Pending(listing, v))[x] == if x.version > v then multiset(listing)[x] else 0
  {
    SortedMeaning(Filter(Newer(v), listing));
    forall x ensures multiset(Pending(listing, v))[x] == if x.version > v then multiset(listing)[x] else 0 {
      FilterCount(Newer(v), listing, x);
    }
  }

  // The scripts behind the k-th are the ones with a later version.
  lemma RestCount(all: seq<Script>, k: nat, x: Script)
    requires OneEach(all) && k <= |all| && forall y :: y in all ==> y.version > 0
    ensures multiset(all[k..])[x] == if x.version > VersionAfter(all, k) then multiset(all)[x] else 0
  {
    assert all == all[..k] + all[k..];
    assert x in all[k..] ==> x in multiset(all[k..]);
    if x in all[..k] {
      assert x.version <= VersionAfter(all, k);
      assert x !in all[k..];
    }
  }

  lemma RestOneEach(all: seq<Script>, k: nat)
    requires OneEach(all) && k <= |all|
    ensures OneEach(all[k..])
  {
  }

  // What is pending after the first k scripts, in whatever order the files are listed next.
  lemma RestIsPending(files: seq<Script>, listing: seq<Script>, k: nat)
    requires multiset(files) == multiset(listing) && OneEach(Pending(files, 0)) && k <= |Pending(files, 0)|
    ensures Pending(listing, VersionAfter(Pending(files, 0), k)) == Pending(files, 0)[k..]
  {
    var all := Pending(files, 0);
    var v := VersionAfter(all, k);
    var rest := Pending(listing, v);
    PendingMembers(files, 0);
    PendingMembers(listing, v);
    forall y | y in all ensures y.version > 0 {
      assert y in multiset(all);
    }
    forall x ensures multiset(all[k..])[x] == multiset(rest)[x] {
      RestCount(all, k, x);
    }
    SameMultiplicities(multiset(all[k..]), multiset(rest));
    RestOneEach(all, k);
    OneOrder(all[k..], rest);
  }

  // A history of starts over one set of files.
  ghost predicate Over(files: seq<Script>, boots: seq<Boot>) {
    forall b :: b in boots ==> multiset(b.listing) == multiset(files)
  }

  // The last start ran to its end.
  predicate Completed(boots: seq<Boot>) {
    boots != [] && boots[|boots| - 1].cut >= |Pending(boots[|boots| - 1].listing, After(boots[..|boots| - 1]).version)|
  }

  // Whatever starts were cut short, and wherever, the scripts committed so far are the first k of the
  // sorted list, each once and in order, and `user_version` is the version of the last of them.
  lemma {:induction false} CrashesLeaveAPrefix(files: seq<Script>, boots: seq<Boot>) returns (k: nat)
    requires Over(files, boots) && OneEach(Pending(files, 0))
    ensures k <= |Pending(files, 0)|
    ensures After(boots) == Schema(VersionAfter(Pending(files, 0), k), Pending(files, 0)[..k])
    ensures Completed(boots) ==> k == |Pending(files, 0)|
  {
    var all := Pending(files, 0);
    if boots == [] {
      return 0;
    }
    var before, last := boots[..|boots| - 1], boots[|boots| - 1];
    var j := CrashesLeaveAPrefix(files, before);
    RestIsPending(files, last.listing, j);
    k := StartExtends(After(before), last, all, j);
  }

  lemma StartExtends(db: Schema, b: Boot, all: seq<Script>, j: nat) returns (k: nat)
    requires j <= |all| && db == Schema(VersionAfter(all, j), all[..j]) && Pending(b.listing, db.version) == all[j..]
    ensures k <= |all| && Start(db, b.listing, b.cut) == Schema(VersionAfter(all, k), all[..k])
    ensures b.cut >= |all[j..]| ==> k == |all|
  {
    ApplyTakesPrefix(db, all[j..], b.cut);
    k := j + AtMostAll(b.cut, all[j..]);
    assert all[..j] + all[j..][..k - j] == all[..k];
  }

  // After a completed start the next one changes nothing.
  lemma CompletedIsStable(files: seq<Script>, boots: seq<Boot>, next: Boot)
    requires Over(files, boots + [next]) && OneEach(Pending(files, 0)) && Completed(boots)
    ensures After(boots).applied == Pending(files, 0)
    ensures After(boots + [next]) == After(boots)
  {
    forall b | b in boots ensures multiset(b.listing) == multiset(files) {
      assert b in boots + [next];
    }
    var k := CrashesLeaveAPrefix(files, boots);
    assert next in boots + [next];
    RestIsPending(files, next.listing, k);
    assert (boots + [next])[..|boots|] == boots;
    assert Pending(files, 0)[..k] == Pending(files, 0);
  }

  ghost predicate SurvivesCrashes(files: seq<Script>) {
    forall boots :: Over(files, boots) && Completed(boots) ==> After(boots).applied == Pending(files, 0)
  }

  // Every script is applied once and in order under every pattern of crashes exactly when no two
  // pending scripts share a version number.
  lemma SurvivesCrashesIff(files: seq<Script>)
    ensures SurvivesCrashes(files) <==> OneEach(Pending(files, 0))
  {
    if OneEach(Pending(files, 0)) {
      forall boots | Over(files, boots) && Completed(boots) ensures After(boots).applied == Pending(files, 0) {
        var k := CrashesLeaveAPrefix(files, boots);
      }
    } else {
      CrashLosesTwin(files);
    }
  }

  // A crash between two scripts with the same version loses the second for good.
  lemma CrashLosesTwin(files: seq<Script>)
    requires !OneEach(Pending(files, 0))
    ensures !SurvivesCrashes(files)
  {
    var all := Pending(files, 0);
    PendingMembers(files, 0);
    var i := TwinAt(all);
    ApplyTakesPrefix(EMPTY, all, i + 1);
    var db := Start(EMPTY, files, i + 1);
    var rest := Pending(files, db.version);
    ApplyTakesPrefix(db, rest, |rest|);
    PendingMembers(files, db.version);
    var boots := TwoBoots(files, i + 1, |rest|);
    assert After(boots).applied != all;
  }

  lemma TwoBoots(files: seq<Script>, c: nat, d: nat) returns (boots: seq<Boot>)
    requires d == |Pending(files, Start(EMPTY, files, c).version)|
    ensures Over(files, boots) && Completed(boots)
    ensures After(boots) == Start(Start(EMPTY, files, c), files, d)
  {
    boots := [Boot(files, c), Boot(files, d)];
    assert boots[..1] == [Boot(files, c)];
    assert [Boot(files, c)][..0] == [] && After([]) == EMPTY;
    assert After([Boot(files, c)]) == Start(EMPTY, files, c);
  }

  lemma {:induction false} TwinAt(all: seq<Script>) returns (i: nat)
    requires ByVersion(all) && !OneEach(all)
    ensures i + 1 < |all| && all[i].version == all[i + 1].version
  {
    var j, k :| 0 <= j < k < |all| && all[j].version >= all[k].version;
    i := j;
  }
}
