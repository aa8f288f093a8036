/**
 Reconciling stored checkpoint keys with the current tailnet namespacing at startup.

 A window collector's cursor is stored under its name in single-tailnet mode and under
 "<tailnet>/<name>" otherwise.  When the shape changes, a cursor stored under the old shape is
 adopted if there is exactly one it could be.  The store is the file store: a map in memory,
 changed first, and a file rewritten from it; every rewrite may fail.
 */
module Migration {
  import opened Text

  type Store = map<string, int>

  const AUDIT_CHANGE := "acl/audit/last_change"

  // Keys that collectors keep for themselves.
  predicate IsAuxiliary(key: string) {
    || HasPrefix(key, "acl/revision/")
    || Contains(key, "/acl/revision/")
    || key == AUDIT_CHANGE
    || HasSuffix(key, "/" + AUDIT_CHANGE)
  }

  // The keys set apart are those of the policy revisions and of the last audited change, of any
  // tailnet: with or without something in front of them, ended by a slash.
  lemma AuxiliaryExactly(key: string)
    ensures IsAuxiliary(key) <==>
            || (exists rest :: key == "acl/revision/" + rest)
            || (exists before, rest :: key == before + "/acl/revision/" + rest)
            || key == "acl/audit/last_change"
            || (exists before :: key == before + "/acl/audit/last_change")
  {
    PrefixMeans(key, "acl/revision/");
    ContainsMeans(key, "/acl/revision/");
    SuffixMeans(key, "/" + AUDIT_CHANGE);
    assert "/" + AUDIT_CHANGE == "/acl/audit/last_change";
  }

  // The last segment of a key.
  function Basename(key: string): (r: string)
    ensures '/' !in r
  {
    var i := LastIndex(key, '/');
    if i >= 0 then key[i + 1..] else key
  }

  lemma BasenameOf(ns: string, name: string)
    requires '/' !in name
    ensures Basename(name) == name && Basename(ns + "/" + name) == name
  {
    var key := ns + "/" + name;
    assert key[|ns|] == '/' && key[|ns| + 1..] == name;
    assert forall k | |ns| < k < |key| :: key[k] == name[k - |ns| - 1];
  }

  /* --------------------------------------------------------------------- what is wanted */

  datatype Collector = Collector(name: string, window: bool)
  datatype Runtime = Runtime(name: string, collectors: seq<Collector>)
  datatype Want = Want(key: string, name: string)

  ghost function Keys(wants: seq<Want>): set<string> {
    set i | 0 <= i < |wants| :: wants[i].key
  }

  lemma KeysConcat(a: seq<Want>, b: seq<Want>)
    ensures Keys(a + b) == Keys(a) + Keys(b)
  {
    forall k | k in Keys(b) ensures k in Keys(a + b) {
      var i :| 0 <= i < |b| && b[i].key == k;
      assert (a + b)[|a| + i].key == k;
    }
    forall k | k in Keys(a) ensures k in Keys(a + b) {
      var i :| 0 <= i < |a| && a[i].key == k;
      assert (a + b)[i].key == k;
    }
  }

  // Collector names are single segments, so a key's basename is the collector it belongs to.
  ghost predicate Named(wants: seq<Want>) {
    forall i | 0 <= i < |wants| :: Basename(wants[i].key) == wants[i].name
  }

  function KeyFor(rt: Runtime, c: Collector, multi: bool): string {
    if multi && rt.name != "" then rt.name + "/" + c.name else c.name
  }

  // What is wanted of the first n collectors of a runtime, and of the first n runtimes.
  ghost function RuntimeWants(rt: Runtime, n: nat, multi: bool): seq<Want>
    requires n <= |rt.collectors|
  {
    if n == 0 then []
    else
      var c := rt.collectors[n - 1];
      RuntimeWants(rt, n - 1, multi) + if c.window then [Want(KeyFor(rt, c, multi), c.name)] else []
  }

  ghost function AllWants(runtimes: seq<Runtime>, n: nat, multi: bool): seq<Want>
    requires n <= |runtimes|
  {
    if n == 0 then []
    else AllWants(runtimes, n - 1, multi) + RuntimeWants(runtimes[n - 1], |runtimes[n - 1].collectors|, multi)
  }

  ghost function WantedOf(runtimes: seq<Runtime>): seq<Want> {
    AllWants(runtimes, |runtimes|, |runtimes| > 1)
  }

  ghost predicate SingleSegments(rt: Runtime) {
    forall c | 0 <= c < |rt.collectors| :: '/' !in rt.collectors[c].name
  }

  // Every window collector in order, under its own name or, with several tailnets, its tailnet's.
  method BuildWants(runtimes: seq<Runtime>) returns (wants: seq<Want>, current: set<string>)
    ensures wants == WantedOf(runtimes) && current == Keys(wants)
    ensures (forall r | 0 <= r < |runtimes| :: SingleSegments(runtimes[r])) ==> Named(wants)
  {
    wants, current := [], {};
    var multi := |runtimes| > 1;
    for i := 0 to |runtimes|
      invariant current == Keys(wants) && wants == AllWants(runtimes, i, multi)
      invariant (forall r | 0 <= r < |runtimes| :: SingleSegments(runtimes[r])) ==> Named(wants)
    {
      var more, keys := WantsOf(runtimes[i], multi);
      KeysConcat(wants, more);
      wants, current := wants + more, current + keys;
    }
  }

  method WantsOf(rt: Runtime, multi: bool) returns (wants: seq<Want>, current: set<string>)
    ensures wants == RuntimeWants(rt, |rt.collectors|, multi) && current == Keys(wants)
    ensures SingleSegments(rt) ==> Named(wants)
  {
    wants, current := [], {};
    var ns := if multi then rt.name else "";
    for j := 0 to |rt.collectors|
      invariant current == Keys(wants) && wants == RuntimeWants(rt, j, multi)
      invariant SingleSegments(rt) ==> Named(wants)
    {
      var wc := rt.collectors[j];
      if !wc.window {
        assert wants + [] == wants;
        continue;
      }
      var key := wc.name;
      if ns != "" {
        key := ns + "/" + wc.name;
      }
      if '/' !in wc.name {
        BasenameOf(ns, wc.name);
      }
      KeysConcat(wants, [Want(key, wc.name)]);
      assert Keys([Want(key, wc.name)]) == {[Want(key, wc.name)][0].key};
      wants := wants + [Want(key, wc.name)];
      current := current + {key};
    }
  }

  /* ------------------------------------------------------------------------- the steps */

  // `store` is the map in memory, `disk` the file, `stored` the migrator's own view of the cursors.
  datatype State = State(store: Store, disk: Store, stored: set<string>)

  // A rewrite succeeds, fails and leaves the file, or fails although the file was replaced.
  datatype Outcome = Done | Lost | Landed
  datatype Fault = Fault(onSet: Outcome, onDelete: Outcome)

  const CLEAN := Fault(Done, Done)

  ghost function Start(store: Store): State {
    State(store, store, set k | k in store && !IsAuxiliary(k))
  }

  ghost function Candidates(stored: set<string>, current: set<string>, name: string): set<string> {
    set k | k in stored && k !in current && Basename(k) == name
  }

  ghost predicate Adopts(s: State, current: set<string>, w: Want) {
    w.key !in s.stored && |Candidates(s.stored, current, w.name)| == 1
  }

  // The file after the map became m.
  function Rewritten(disk: Store, m: Store, o: Outcome): Store {
    if o.Lost? then disk else m
  }

  // The value is copied to the current key and, if that was reported done, removed from the old.
  ghost function Moved(s: State, w: Want, c: string, f: Fault): State
    requires c in s.store
  {
    var copied := s.store[w.key := s.store[c]];
    var disk := Rewritten(s.disk, copied, f.onSet);
    if !f.onSet.Done? then State(copied, disk, s.stored)
    else State(copied - {c}, Rewritten(disk, copied - {c}, f.onDelete), s.stored - {c} + {w.key})
  }

  // One collector's turn.
  ghost predicate Turn(s: State, s': State, current: set<string>, w: Want, f: Fault) {
    if Adopts(s, current, w) then
      exists c | c in Candidates(s.stored, current, w.name) && c in s.store :: s' == Moved(s, w, c, f)
    else s' == s
  }

  // All the turns, in the order of the wants.
  ghost predicate Turns(ss: seq<State>, current: set<string>, wants: seq<Want>, faults: seq<Fault>) {
    && |ss| == |wants| + 1 && |faults| == |wants|
    && forall i | 0 <= i < |wants| :: Turn(ss[i], ss[i + 1], current, wants[i], faults[i])
  }

  /* ---------------------------------------------------------------------- the migrator */

  class Migrator {
    var store: Store
    var disk: Store
    var stored: set<string>

    ghost function View(): State
      reads this
    {
      State(store, disk, stored)
    }

    constructor (s: Store)
      ensures store == s && disk == s
    {
      store, disk, stored := s, s, {};
    }

    // Count the legacy keys a collector could adopt, in whatever order the map yields them.
    static method Find(stored: set<string>, w: Want, current: set<string>, claimed: set<string>)
      returns (n: nat, cand: string)
      requires w.key in current && w.key !in stored && claimed !! stored
      ensures n == |Candidates(stored, current, w.name)|
      ensures n == 1 ==> Candidates(stored, current, w.name) == {cand}
    {
      n, cand := 0, "";
      ghost var all := Candidates(stored, current, w.name);
      var left := stored;
      while left != {}
        invariant left <= stored && n == |all - left|
        invariant n > 0 ==> cand in all && cand !in left
      {
        var k :| k in left;
        OneLess(all, left, k);
        left := left - {k};
        if k == w.key || k in claimed || k in current || Basename(k) != w.name {
          continue;
        }
        cand := k;
        n := n + 1;
      }
      assert all - {} == all;
      if n == 1 {
        Singleton(all, cand);
      }
    }

    method Adopt(w: Want, cand: string, f: Fault) returns (moved: bool)
      requires cand in stored && cand in store
      modifies this`store, this`disk, this`stored
      ensures View() == Moved(old(View()), w, cand, f) && (moved <==> f.onSet.Done?)
    {
      var t := store[cand];
      store := store[w.key := t];
      disk := Rewritten(disk, store, f.onSet);
      if !f.onSet.Done? {
        return false;
      }
      store := store - {cand};
      disk := Rewritten(disk, store, f.onDelete);
      stored := stored - {cand};
      stored := stored + {w.key};
      return true;
    }

    // One run.  However the maps are iterated, the states passed through are the turns.
    method Migrate(wants: seq<Want>, current: set<string>, faults: seq<Fault>)
      returns (ghost ss: seq<State>, stale: set<string>)
      requires store == disk && current == Keys(wants) && |faults| == |wants| && Named(wants)
      modifies this`store, this`disk, this`stored
      ensures ss != [] && ss[0] == Start(old(store)) && Turns(ss, current, wants, faults)
      ensures store == ss[|wants|].store && disk == ss[|wants|].disk
      ensures wants != [] ==> View() == ss[|wants|]
      ensures stale == if wants == [] then {} else stored - current
    {
      if wants == [] {
        ss := [Start(store)];
        return ss, {};
      }
      LoadStored();
      ss := TakeTurns(wants, current, faults);
      stale := Strays(current);
    }

    method TakeTurns(wants: seq<Want>, current: set<string>, faults: seq<Fault>) returns (ghost ss: seq<State>)
      requires current == Keys(wants) && |faults| == |wants| && Named(wants) && stored <= store.Keys
      modifies this`store, this`disk, this`stored
      ensures Turns(ss, current, wants, faults) && ss[0] == old(View()) && ss[|wants|] == View()
    {
      var claimed: set<string> := {};
      ss := [View()];
      for i := 0 to |wants|
        invariant |ss| == i + 1 && ss[0] == old(View()) && ss[i] == View()
        invariant forall j | 0 <= j < i :: Turn(ss[j], ss[j + 1], current, wants[j], faults[j])
        invariant stored <= store.Keys && claimed !! stored && claimed !! current
      {
        claimed := TakeTurn(wants[i], current, faults[i], claimed);
        ss := ss + [View()];
      }
    }

    method LoadStored()
      requires store == disk
      modifies this`stored
      ensures View() == Start(store)
    {
      stored := {};
      var left := store.Keys;
      while left != {}
        invariant left <= store.Keys
        invariant stored == set k | k in store && k !in left && !IsAuxiliary(k)
      {
        var k :| k in left;
        if !IsAuxiliary(k) {
          stored := stored + {k};
        }
        left := left - {k};
      }
    }

    method TakeTurn(w: Want, current: set<string>, f: Fault, claimed: set<string>) returns (claimed': set<string>)
      requires w.key in current && Basename(w.key) == w.name
      requires stored <= store.Keys && claimed !! stored && claimed !! current
      modifies this`store, this`disk, this`stored
      ensures Turn(old(View()), View(), current, w, f)
      ensures stored <= store.Keys && claimed' !! stored && claimed' !! current
    {
      claimed' := claimed;
      if w.key in stored {
        return;
      }
      var n, cand := Find(stored, w, current, claimed);
      if n != 1 {
        return;
      }
      assert cand in Candidates(stored, current, w.name);
      var moved := Adopt(w, cand, f);
      if moved {
        claimed' := claimed + {cand};
      }
    }

    // The keys that are logged as matching no collector.
    method Strays(current: set<string>) returns (stale: set<string>)
      ensures stale == stored - current
    {
      stale := {};
      var left := stored;
      while left != {}
        invariant left <= stored && stale == stored - current - left
      {
        var k :| k in left;
        if k !in current {
          stale := stale + {k};
        }
        left := left - {k};
      }
    }
  }

  lemma OneLess(all: set<string>, left: set<string>, k: string)
    requires k in left
    ensures |all - (left - {k})| == |all - left| + if k in all then 1 else 0
  {
    if k in all {
      assert all - (left - {k}) == (all - left) + {k};
    } else {
      assert all - (left - {k}) == all - left;
    }
  }

  lemma Singleton(s: set<string>, x: string)
    requires |s| == 1 && x in s
    ensures s == {x}
  {
    assert |s - {x}| == 0;
  }
}
