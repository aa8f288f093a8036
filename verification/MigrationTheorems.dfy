/**
 What a migration run comes to: it depends on no iteration order, has a closed form, loses no
 cursor, and a second run changes nothing.
 */
module MigrationTheorems {
  import opened Wrappers
  import opened Text
  import opened Migration

  /* -------------------------------------------------------------------- determinism */

  lemma TurnDeterministic(s: State, a: State, b: State, current: set<string>, w: Want, f: Fault)
    requires Turn(s, a, current, w, f) && Turn(s, b, current, w, f)
    ensures a == b
  {
    if Adopts(s, current, w) {
      var cs := Candidates(s.stored, current, w.name);
      var c :| c in cs && c in s.store && a == Moved(s, w, c, f);
      var d :| d in cs && d in s.store && b == Moved(s, w, d, f);
      Singleton(cs, c);
    }
  }

  // Two runs over the same store agree in every state, however their maps were iterated.
  lemma {:induction false} OrderIrrelevant(ss: seq<State>, tt: seq<State>, current: set<string>, wants: seq<Want>,
                                           faults: seq<Fault>, n: nat)
    requires Turns(ss, current, wants, faults) && Turns(tt, current, wants, faults)
    requires ss[0] == tt[0] && n <= |wants|
    ensures ss[n] == tt[n]
  {
    if n > 0 {
      OrderIrrelevant(ss, tt, current, wants, faults, n - 1);
      TurnDeterministic(ss[n - 1], ss[n], tt[n], current, wants[n - 1], faults[n - 1]);
    }
  }

  /* -------------------------------------------------------------------- closed form */

  ghost predicate NoFaults(faults: seq<Fault>) {
    forall i | 0 <= i < |faults| :: faults[i] == CLEAN
  }

  ghost function Lookup(store: Store, k: string): Option<int> {
    if k in store then Some(store[k]) else None
  }

  // The first collector of that name whose current key is missing, or -1.
  ghost function FirstMissing(stored: set<string>, wants: seq<Want>, name: string): (m: int)
    ensures -1 <= m < |wants|
    ensures m >= 0 ==> wants[m].name == name && wants[m].key !in stored
    ensures forall i | 0 <= i < |wants| && (m < 0 || i < m) :: wants[i].name == name ==> wants[i].key in stored
  {
    if wants == [] then -1
    else
      var n := |wants| - 1;
      var m := FirstMissing(stored, wants[..n], name);
      if m >= 0 then m
      else if wants[n].name == name && wants[n].key !in stored then n
      else -1
  }

  lemma FirstMissingSnoc(stored: set<string>, wants: seq<Want>, w: Want, name: string)
    ensures var m := FirstMissing(stored, wants, name);
            FirstMissing(stored, wants + [w], name)
            == if m >= 0 then m else if w.name == name && w.key !in stored then |wants| else -1
  {
    assert (wants + [w])[..|wants|] == wants;
  }

  // A basename moves its cursor when exactly one legacy key carries it and a collector lacks one.
  ghost predicate Moves(s0: State, current: set<string>, wants: seq<Want>, name: string) {
    |Candidates(s0.stored, current, name)| == 1 && FirstMissing(s0.stored, wants, name) >= 0
  }

  ghost predicate IsLegacy(s0: State, current: set<string>, k: string) {
    k in s0.stored && k !in current
  }

  // The key that receives the cursor of its basename.
  ghost predicate IsTarget(s0: State, wants: seq<Want>, k: string) {
    var m := FirstMissing(s0.stored, wants, Basename(k));
    m >= 0 && k == wants[m].key
  }

  // What a run leaves under one key.
  ghost predicate Final(s0: State, s: State, current: set<string>, wants: seq<Want>, k: string) {
    if Moves(s0, current, wants, Basename(k)) && IsLegacy(s0, current, k) then
      k !in s.store && k !in s.stored
    else if Moves(s0, current, wants, Basename(k)) && IsTarget(s0, wants, k) then
      && k in s.stored
      && forall c | c in Candidates(s0.stored, current, Basename(k)) :: Lookup(s.store, k) == Lookup(s0.store, c)
    else Lookup(s.store, k) == Lookup(s0.store, k) && (k in s.stored <==> k in s0.stored)
  }

  ghost predicate Closed(s0: State, s: State, current: set<string>, wants: seq<Want>) {
    forall k :: Final(s0, s, current, wants, k)
  }

  // What is left to adopt when a collector's turn comes.
  lemma CandidatesLeft(s0: State, s: State, current: set<string>, wants: seq<Want>, name: string)
    requires Closed(s0, s, current, wants) && Keys(wants) <= current
    ensures Candidates(s.stored, current, name)
            == if Moves(s0, current, wants, name) then {} else Candidates(s0.stored, current, name)
  {
    forall k | Basename(k) == name && k !in current
      ensures k in s.stored <==> k in s0.stored && !Moves(s0, current, wants, name)
    {
      assert Final(s0, s, current, wants, k);
      TargetIsCurrent(s0, wants, k);
    }
  }

  lemma TargetIsCurrent(s0: State, wants: seq<Want>, k: string)
    ensures IsTarget(s0, wants, k) ==> k in Keys(wants)
  {
    var m := FirstMissing(s0.stored, wants, Basename(k));
    if m >= 0 && k == wants[m].key {
      assert wants[m].key in Keys(wants);
    }
  }

  lemma TurnElsewhere(s0: State, s: State, s': State, current: set<string>, wants: seq<Want>, w: Want, k: string)
    requires Final(s0, s, current, wants, k) && Basename(w.key) == w.name != Basename(k)
    requires Turn(s, s', current, w, CLEAN)
    ensures Final(s0, s', current, wants + [w], k)
  {
    FirstMissingSnoc(s0.stored, wants, w, Basename(k));
    assert Lookup(s'.store, k) == Lookup(s.store, k) && (k in s'.stored <==> k in s.stored);
  }

  // A turn that adopts nothing: the basename moved before, or moves nothing yet.
  lemma IdleTurn(s0: State, s: State, current: set<string>, wants: seq<Want>, w: Want, k: string)
    requires Closed(s0, s, current, wants) && Keys(wants) <= current
    requires Basename(k) == w.name == Basename(w.key) && w.key in current
    requires !Adopts(s, current, w)
    ensures Final(s0, s, current, wants + [w], k)
  {
    FirstMissingSnoc(s0.stored, wants, w, w.name);
    CandidatesLeft(s0, s, current, wants, w.name);
    assert Final(s0, s, current, wants, k);
    assert Final(s0, s, current, wants, w.key);
  }

  // A turn that adopts: its collector is the first one missing.
  lemma AdoptingTurn(s0: State, s: State, s': State, current: set<string>, wants: seq<Want>, w: Want, c: string, k: string)
    requires Closed(s0, s, current, wants) && Keys(wants) <= current
    requires Basename(k) == w.name == Basename(w.key) && w.key in current
    requires Adopts(s, current, w) && c in Candidates(s.stored, current, w.name) && c in s.store
    requires s' == Moved(s, w, c, CLEAN)
    ensures Final(s0, s', current, wants + [w], k)
  {
    CandidatesLeft(s0, s, current, wants, w.name);
    var cs := Candidates(s0.stored, current, w.name);
    Singleton(cs, c);
    assert !Moves(s0, current, wants, w.name);
    assert Final(s0, s, current, wants, w.key) && Final(s0, s, current, wants, c) && Final(s0, s, current, wants, k);
    FirstMissingSnoc(s0.stored, wants, w, w.name);
  }

  lemma TurnClosed(s0: State, s: State, s': State, current: set<string>, wants: seq<Want>, w: Want)
    requires Closed(s0, s, current, wants) && Keys(wants) <= current
    requires w.key in current && Basename(w.key) == w.name
    requires Turn(s, s', current, w, CLEAN)
    ensures Closed(s0, s', current, wants + [w])
  {
    forall k ensures Final(s0, s', current, wants + [w], k) {
      assert Final(s0, s, current, wants, k);
      if Basename(k) != w.name {
        TurnElsewhere(s0, s, s', current, wants, w, k);
      } else if Adopts(s, current, w) {
        var c :| c in Candidates(s.stored, current, w.name) && c in s.store && s' == Moved(s, w, c, CLEAN);
        AdoptingTurn(s0, s, s', current, wants, w, c, k);
      } else {
        IdleTurn(s0, s, current, wants, w, k);
      }
    }
  }

  lemma TurnAt(ss: seq<State>, wants: seq<Want>, faults: seq<Fault>, i: nat)
    requires Turns(ss, Keys(wants), wants, faults) && NoFaults(faults) && Named(wants) && i < |wants|
    ensures Turn(ss[i], ss[i + 1], Keys(wants), wants[i], CLEAN)
    ensures wants[i].key in Keys(wants) && Basename(wants[i].key) == wants[i].name
  {
    assert faults[i] == CLEAN;
  }

  // The closed form of a run whose writes succeed: a basename with exactly one legacy key moves
  // its value to the first collector that lacks one, and every other basename moves nothing.
  lemma {:induction false} RunClosed(ss: seq<State>, wants: seq<Want>, faults: seq<Fault>, n: nat)
    requires Turns(ss, Keys(wants), wants, faults) && NoFaults(faults) && Named(wants) && n <= |wants|
    ensures Closed(ss[0], ss[n], Keys(wants), wants[..n])
  {
    if n > 0 {
      RunClosed(ss, wants, faults, n - 1);
      assert wants[..n] == wants[..n - 1] + [wants[n - 1]];
      TurnAt(ss, wants, faults, n - 1);
      KeysOfPrefix(wants, n - 1);
      TurnClosed(ss[0], ss[n - 1], ss[n], Keys(wants), wants[..n - 1], wants[n - 1]);
    }
  }

  lemma KeysOfPrefix(wants: seq<Want>, n: nat)
    requires n <= |wants|
    ensures Keys(wants[..n]) <= Keys(wants)
  {
    forall k | k in Keys(wants[..n]) ensures k in Keys(wants) {
      var i :| 0 <= i < n && wants[..n][i].key == k;
      assert wants[i].key == k;
    }
  }

  lemma WholeRunClosed(ss: seq<State>, wants: seq<Want>, faults: seq<Fault>)
    requires Turns(ss, Keys(wants), wants, faults) && NoFaults(faults) && Named(wants)
    ensures Closed(ss[0], ss[|wants|], Keys(wants), wants)
  {
    RunClosed(ss, wants, faults, |wants|);
    assert wants[..|wants|] == wants;
  }

  /* -------------------------------------------------------------------- second run */

  // After a run nothing is left to move.
  lemma NothingLeftToMove(store: Store, s: State, wants: seq<Want>, name: string)
    requires Closed(Start(store), s, Keys(wants), wants) && Named(wants)
    ensures !Moves(Start(s.store), Keys(wants), wants, name)
  {
    var s0, s1, current := Start(store), Start(s.store), Keys(wants);
    forall k | Basename(k) == name && k !in current
      ensures k in s1.stored <==> k in s0.stored && !Moves(s0, current, wants, name)
    {
      assert Final(s0, s, current, wants, k);
      TargetIsCurrent(s0, wants, k);
    }
    assert Candidates(s1.stored, current, name)
           == if Moves(s0, current, wants, name) then {} else Candidates(s0.stored, current, name);
    forall i | 0 <= i < |wants|
      ensures !Moves(s0, current, wants, wants[i].name) && wants[i].key in s0.stored ==> wants[i].key in s1.stored
    {
      assert wants[i].key in current;
      assert Final(s0, s, current, wants, wants[i].key);
    }
  }

  // A run without faults leaves in the file what it leaves in the map.
  lemma {:induction false} CleanRunOnDisk(ss: seq<State>, wants: seq<Want>, faults: seq<Fault>, n: nat)
    requires Turns(ss, Keys(wants), wants, faults) && NoFaults(faults) && Named(wants) && n <= |wants|
    requires ss[0].disk == ss[0].store
    ensures ss[n].disk == ss[n].store
  {
    if n > 0 {
      CleanRunOnDisk(ss, wants, faults, n - 1);
      TurnAt(ss, wants, faults, n - 1);
    }
  }

  // A second run, over the file the first one left, changes nothing.
  lemma SecondRunIsIdle(ss: seq<State>, tt: seq<State>, wants: seq<Want>, faults: seq<Fault>, faults': seq<Fault>, store: Store)
    requires Named(wants) && NoFaults(faults) && NoFaults(faults')
    requires Turns(ss, Keys(wants), wants, faults) && ss[0] == Start(store)
    requires Turns(tt, Keys(wants), wants, faults') && tt[0] == Start(ss[|wants|].disk)
    ensures tt[|wants|].store == ss[|wants|].store && tt[|wants|].disk == ss[|wants|].disk
  {
    CleanRunOnDisk(ss, wants, faults, |wants|);
    CleanRunOnDisk(tt, wants, faults', |wants|);
    var was, now := ss[|wants|].store, tt[|wants|].store;
    WholeRunClosed(ss, wants, faults);
    WholeRunClosed(tt, wants, faults');
    forall k ensures Lookup(now, k) == Lookup(was, k) {
      NothingLeftToMove(store, ss[|wants|], wants, Basename(k));
      assert Final(tt[0], tt[|wants|], Keys(wants), wants, k);
    }
    assert forall k :: (k in now <==> k in was) && (k in was ==> now[k] == was[k]) by {
      forall k ensures (k in now <==> k in was) && (k in was ==> now[k] == was[k]) {
        assert Lookup(now, k) == Lookup(was, k);
      }
    }
  }

  /* --------------------------------------------------------------- what stays in place */

  // A key that is current or auxiliary, but not both, keeps its value.
  lemma PresentKeyKept(store: Store, s: State, wants: seq<Want>, k: string)
    requires Closed(Start(store), s, Keys(wants), wants)
    requires k in store && ((k in Keys(wants)) != IsAuxiliary(k))
    ensures k in s.store && s.store[k] == store[k]
  {
    assert Final(Start(store), s, Keys(wants), wants, k);
    TargetIsCurrent(Start(store), wants, k);
    assert Lookup(store, k) == Some(store[k]);
  }

  ghost predicate CurrentKept(store: Store, s: State, wants: seq<Want>) {
    forall k | k in store && k in Keys(wants) :: k in s.store && s.store[k] == store[k]
  }

  ghost function Clean(n: nat): (faults: seq<Fault>)
    ensures |faults| == n && NoFaults(faults)
  {
    seq(n, i => CLEAN)
  }

  // Runs without faults, over any store, leave every present current key as it is exactly when
  // no current key has the shape of an auxiliary one.
  lemma CurrentKeptIff(wants: seq<Want>)
    requires Named(wants)
    ensures (forall k | k in Keys(wants) :: !IsAuxiliary(k)) <==>
            forall store: Store, ss: seq<State> |
              Turns(ss, Keys(wants), wants, Clean(|wants|)) && ss[0] == Start(store) ::
              CurrentKept(store, ss[|wants|], wants)
  {
    if forall k | k in Keys(wants) :: !IsAuxiliary(k) {
      forall store: Store, ss: seq<State> | Turns(ss, Keys(wants), wants, Clean(|wants|)) && ss[0] == Start(store)
        ensures CurrentKept(store, ss[|wants|], wants)
      {
        WholeRunClosed(ss, wants, Clean(|wants|));
        forall k | k in store && k in Keys(wants)
          ensures k in ss[|wants|].store && ss[|wants|].store[k] == store[k]
        {
          PresentKeyKept(store, ss[|wants|], wants, k);
        }
      }
    } else {
      var k :| k in Keys(wants) && IsAuxiliary(k);
      var i :| 0 <= i < |wants| && wants[i].key == k;
      var legacy := FreshKey(wants, wants[i].name);
      var store := (map x | x in Keys(wants) :: 1)[legacy := 2];
      var ss := RunFrom(Start(store), Keys(wants), wants, Clean(|wants|), |wants|);
      WholeRunClosed(ss, wants, Clean(|wants|));
      Overwritten(store, ss[|wants|], wants, i, legacy);
    }
  }

  lemma Overwritten(store: Store, s: State, wants: seq<Want>, i: nat, legacy: string)
    requires i < |wants| && IsAuxiliary(wants[i].key) && Named(wants)
    requires legacy !in Keys(wants) && !IsAuxiliary(legacy) && Basename(legacy) == wants[i].name
    requires store == (map x | x in Keys(wants) :: 1)[legacy := 2]
    requires Closed(Start(store), s, Keys(wants), wants)
    ensures !CurrentKept(store, s, wants)
  {
    var s0, name := Start(store), wants[i].name;
    assert Candidates(s0.stored, Keys(wants), name) == {legacy};
    var m := FirstMissing(s0.stored, wants, name);
    assert m >= 0;
    var k := wants[m].key;
    assert k in Keys(wants) && k in store && store[k] == 1;
    assert Final(s0, s, Keys(wants), wants, k);
    assert Lookup(s.store, k) == Lookup(store, legacy);
  }

  // Every store has a run, whichever writes fail: the turns can always be taken.
  lemma {:induction false} RunFrom(s: State, current: set<string>, wants: seq<Want>, faults: seq<Fault>, n: nat)
    returns (ss: seq<State>)
    requires n <= |wants| == |faults| && s.stored <= s.store.Keys
    requires forall i | 0 <= i < |wants| :: wants[i].key in current
    ensures |ss| == n + 1 && ss[0] == s
    ensures forall i | 0 <= i < n :: Turn(ss[i], ss[i + 1], current, wants[i], faults[i])
    ensures ss[n].stored <= ss[n].store.Keys
  {
    if n == 0 {
      ss := [s];
    } else {
      ss := RunFrom(s, current, wants, faults, n - 1);
      var next := TurnCan(ss[n - 1], current, wants[n - 1], faults[n - 1]);
      ss := ss + [next];
    }
  }

  lemma TurnCan(s: State, current: set<string>, w: Want, f: Fault) returns (s': State)
    requires s.stored <= s.store.Keys && w.key in current
    ensures Turn(s, s', current, w, f) && s'.stored <= s'.store.Keys
  {
    s' := s;
    if Adopts(s, current, w) {
      var c :| c in Candidates(s.stored, current, w.name);
      s' := Moved(s, w, c, f);
    }
  }

  // A concrete case: with two tailnets, one of them called "acl/revision", the stored cursor of its
  // flow logs is overwritten by a legacy one.
  lemma AuxiliaryShapeWitness()
    ensures var runtimes := [Runtime("acl/revision", [Collector("flowlogs", true)]),
                             Runtime("other", [Collector("flowlogs", true)])];
            var wants := WantedOf(runtimes);
            var key := "acl/revision/flowlogs";
            var store := map[key := 7, "flowlogs" := 3];
            && wants == [Want(key, "flowlogs"), Want("other/flowlogs", "flowlogs")]
            && exists s' :: Turn(Start(store), s', Keys(wants), wants[0], CLEAN) && Lookup(s'.store, key) == Some(3)
  {
    var runtimes := [Runtime("acl/revision", [Collector("flowlogs", true)]),
                     Runtime("other", [Collector("flowlogs", true)])];
    var wants := [Want("acl/revision/flowlogs", "flowlogs"), Want("other/flowlogs", "flowlogs")];
    assert "acl/revision" + "/" + "flowlogs" == "acl/revision/flowlogs" && "other" + "/" + "flowlogs" == "other/flowlogs";
    WantedOfTwo(runtimes[0], runtimes[1]);
    BasenameOf("acl/revision", "flowlogs");
    assert HasPrefix("acl/revision/flowlogs", "acl/revision/");
    PlainIsNotAuxiliary("flowlogs");
    assert |wants[0].key| > 8 && |wants[1].key| > 8;
    OverwritingTurn(wants, "acl/revision/flowlogs", "flowlogs", 7, 3);
  }

  lemma WantedOfTwo(a: Runtime, b: Runtime)
    requires |a.collectors| == 1 && |b.collectors| == 1 && a.collectors[0].window && b.collectors[0].window
    requires a.name != "" && b.name != ""
    ensures WantedOf([a, b]) == [Want(a.name + "/" + a.collectors[0].name, a.collectors[0].name),
                                 Want(b.name + "/" + b.collectors[0].name, b.collectors[0].name)]
  {
    var rs := [a, b];
    assert RuntimeWants(a, 1, true) == [Want(KeyFor(a, a.collectors[0], true), a.collectors[0].name)];
    assert RuntimeWants(b, 1, true) == [Want(KeyFor(b, b.collectors[0], true), b.collectors[0].name)];
    assert AllWants(rs, 1, true) == RuntimeWants(a, 1, true);
    assert AllWants(rs, 2, true) == RuntimeWants(a, 1, true) + RuntimeWants(b, 1, true);
  }

  // A current key of auxiliary shape does not count as stored, so a lone legacy key replaces it.
  lemma OverwritingTurn(wants: seq<Want>, key: string, name: string, was: int, legacy: int)
    requires |wants| == 2 && wants[0] == Want(key, name) && wants[1].key != name && key != name
    requires IsAuxiliary(key) && !IsAuxiliary(name) && Basename(name) == name
    ensures var store := map[key := was, name := legacy];
            exists s' :: Turn(Start(store), s', Keys(wants), wants[0], CLEAN) && Lookup(s'.store, key) == Some(legacy)
  {
    var store := map[key := was, name := legacy];
    var s := Start(store);
    assert forall k | k in Keys(wants) :: k == wants[0].key || k == wants[1].key;
    assert Candidates(s.stored, Keys(wants), name) == {name};
    assert Turn(s, Moved(s, wants[0], name, CLEAN), Keys(wants), wants[0], CLEAN);
  }

  lemma PlainIsNotAuxiliary(k: string)
    requires '/' !in k
    ensures !IsAuxiliary(k)
  {
    if IsAuxiliary(k) {
      var i, j := AuxiliaryHasSlashes(k);
    }
  }

  // An auxiliary key holds two slashes, or opens with "acl/".
  lemma AuxiliaryHasSlashes(k: string) returns (i: nat, j: nat)
    requires IsAuxiliary(k)
    ensures i <= j < |k| && k[i] == '/' && k[j] == '/' && (i == j ==> k[0] == 'a')
  {
    var p := "/acl/revision/";
    if Contains(k, p) {
      var before, rest := ContainedAt(k, p);
      i, j := |before|, |before| + 4;
      assert k[i] == p[0] && k[j] == p[4];
    } else if HasSuffix(k, "/" + AUDIT_CHANGE) {
      i, j := SuffixSlashes(k);
    } else {
      i, j := 3, 3;
      PrefixSlash(k);
    }
  }

  lemma SuffixSlashes(k: string) returns (i: nat, j: nat)
    requires HasSuffix(k, "/" + AUDIT_CHANGE)
    ensures i < j < |k| && k[i] == '/' && k[j] == '/'
  {
    var q := "/" + AUDIT_CHANGE;
    i, j := |k| - |q|, |k| - |q| + 4;
    assert k[|k| - |q|..][0] == q[0] && k[|k| - |q|..][4] == q[4];
  }

  lemma PrefixSlash(k: string)
    requires HasPrefix(k, "acl/revision/") || k == AUDIT_CHANGE
    ensures |k| > 3 && k[0] == 'a' && k[3] == '/'
  {
    if k != AUDIT_CHANGE {
      assert k[..13][0] == 'a' && k[..13][3] == '/';
    }
  }

  /* ------------------------------------------------------------------ a key of its own */

  ghost function Zs(n: nat): (r: string)
    ensures |r| == n && forall i | 0 <= i < n :: r[i] == 'z'
  {
    seq(n, i => 'z')
  }

  ghost function Longest(wants: seq<Want>): (n: nat)
    ensures forall i | 0 <= i < |wants| :: |wants[i].key| <= n
  {
    if wants == [] then 0
    else
      var m, last := Longest(wants[..|wants| - 1]), |wants[|wants| - 1].key|;
      if m < last then last else m
  }

  // A legacy key for a name that is no current key and not auxiliary.
  lemma FreshKey(wants: seq<Want>, name: string) returns (k: string)
    requires '/' !in name
    ensures k !in Keys(wants) && !IsAuxiliary(k) && Basename(k) == name
  {
    var n := Longest(wants) + 1;
    k := Zs(n) + "/" + name;
    BasenameOf(Zs(n), name);
    assert k[0] == 'z' && k[n] == '/' && forall i | n < i < |k| :: k[i] == name[i - n - 1];
    OneSlash(k, n);
  }

  lemma OneSlash(k: string, n: nat)
    requires 0 < n < |k| && k[0] == 'z' && k[n] == '/' && forall i | 0 <= i < |k| && i != n :: k[i] != '/'
    ensures !IsAuxiliary(k)
  {
    if IsAuxiliary(k) {
      var i, j := AuxiliaryHasSlashes(k);
    }
  }

  /* ------------------------------------------------------------------- what is wanted */

  // Where a collector stands: its runtime, and its place there.
  datatype Place = Place(r: nat, c: nat)

  ghost predicate Before(p: Place, q: Place) {
    p.r < q.r || (p.r == q.r && p.c < q.c)
  }

  ghost predicate IsWindow(runtimes: seq<Runtime>, p: Place) {
    p.r < |runtimes| && p.c < |runtimes[p.r].collectors| && runtimes[p.r].collectors[p.c].window
  }

  // A window collector is wanted under its name, with several tailnets after that of its own.
  ghost predicate WantedAt(w: Want, runtimes: seq<Runtime>, p: Place)
    requires IsWindow(runtimes, p)
  {
    var tailnet, name := runtimes[p.r].name, runtimes[p.r].collectors[p.c].name;
    w.name == name && w.key == if |runtimes| >= 2 && tailnet != "" then tailnet + "/" + name else name
  }

  // The wants are those of all the window collectors before `end`, one each, in order.
  ghost predicate WantedFrom(wants: seq<Want>, runtimes: seq<Runtime>, places: seq<Place>, end: Place) {
    && |wants| == |places|
    && (forall i | 0 <= i < |places| ::
          IsWindow(runtimes, places[i]) && Before(places[i], end) && WantedAt(wants[i], runtimes, places[i]))
    && (forall i, j | 0 <= i < j < |places| :: Before(places[i], places[j]))
    && (forall p | IsWindow(runtimes, p) && Before(p, end) :: p in places)
  }

  ghost function WantsBefore(runtimes: seq<Runtime>, end: Place): seq<Want>
    requires end.r < |runtimes| && end.c <= |runtimes[end.r].collectors|
  {
    AllWants(runtimes, end.r, |runtimes| > 1) + RuntimeWants(runtimes[end.r], end.c, |runtimes| > 1)
  }

  lemma OneMoreWanted(wants: seq<Want>, runtimes: seq<Runtime>, places: seq<Place>, p: Place, w: Want)
    requires WantedFrom(wants, runtimes, places, p) && IsWindow(runtimes, p) && WantedAt(w, runtimes, p)
    ensures WantedFrom(wants + [w], runtimes, places + [p], Place(p.r, p.c + 1))
  {
    forall q | IsWindow(runtimes, q) && Before(q, Place(p.r, p.c + 1)) ensures q in places + [p] {
      assert q == p || Before(q, p);
    }
  }

  lemma {:induction false} WantedBefore(runtimes: seq<Runtime>, end: Place) returns (places: seq<Place>)
    requires end.r < |runtimes| && end.c <= |runtimes[end.r].collectors|
    ensures WantedFrom(WantsBefore(runtimes, end), runtimes, places, end)
    decreases end.r, end.c
  {
    var multi := |runtimes| > 1;
    if end.c > 0 {
      var p := Place(end.r, end.c - 1);
      places := WantedBefore(runtimes, p);
      var rt := runtimes[p.r];
      if rt.collectors[p.c].window {
        var w := Want(KeyFor(rt, rt.collectors[p.c], multi), rt.collectors[p.c].name);
        OneMoreWanted(WantsBefore(runtimes, p), runtimes, places, p, w);
        assert WantsBefore(runtimes, end) == WantsBefore(runtimes, p) + [w];
        places := places + [p];
      } else {
        assert WantsBefore(runtimes, end) == WantsBefore(runtimes, p);
        assert forall q | IsWindow(runtimes, q) && Before(q, end) :: Before(q, p);
      }
    } else if end.r > 0 {
      var p := Place(end.r - 1, |runtimes[end.r - 1].collectors|);
      places := WantedBefore(runtimes, p);
      assert WantsBefore(runtimes, end) == WantsBefore(runtimes, p);
      assert forall q | IsWindow(runtimes, q) && Before(q, end) :: Before(q, p);
    } else {
      places := [];
    }
  }

  // What is wanted is each window collector of each runtime, once and in order.
  lemma WantedExactly(runtimes: seq<Runtime>) returns (places: seq<Place>)
    ensures WantedFrom(WantedOf(runtimes), runtimes, places, Place(|runtimes|, 0))
  {
    places := [];
    if runtimes != [] {
      var r := |runtimes| - 1;
      var p := Place(r, |runtimes[r].collectors|);
      places := WantedBefore(runtimes, p);
      assert WantsBefore(runtimes, p) == WantedOf(runtimes);
      assert forall q | IsWindow(runtimes, q) && Before(q, Place(|runtimes|, 0)) :: Before(q, p);
    }
  }

  /* ------------------------------------------------------------ no cursor lost, with faults */

  // A turn that moved the legacy key k, its copy reported done.
  ghost predicate MovedIn(s: State, s': State, current: set<string>, w: Want, f: Fault, k: string) {
    && f.onSet == Done && w.name == Basename(k) && w.key !in s.stored
    && k !in current && k in s.stored && k in s.store
    && w.key in s'.store && s'.store[w.key] == s.store[k]
  }

  lemma RemovedInTurn(s: State, s': State, current: set<string>, w: Want, f: Fault, k: string)
    requires Turn(s, s', current, w, f) && w.key in current && k in s.store && k !in s'.store
    ensures MovedIn(s, s', current, w, f, k)
  {
    if Adopts(s, current, w) {
      var c :| c in Candidates(s.stored, current, w.name) && c in s.store && s' == Moved(s, w, c, f);
      OnlyTheCopiedGoes(s, w, c, f, k);
    }
  }

  lemma OnlyTheCopiedGoes(s: State, w: Want, c: string, f: Fault, k: string)
    requires c in s.store && c != w.key && k in s.store && k !in Moved(s, w, c, f).store
    ensures c == k && f.onSet == Done
    ensures w.key in Moved(s, w, c, f).store && Moved(s, w, c, f).store[w.key] == s.store[c]
  {}

  // A key disappears only in a turn whose copy of it was reported done: a failed write leaves the
  // old key where it was.
  lemma RemovedOnlyAfterCopy(ss: seq<State>, wants: seq<Want>, faults: seq<Fault>, k: string, n: nat)
    returns (i: nat)
    requires Turns(ss, Keys(wants), wants, faults) && n <= |wants|
    requires k in ss[0].store && k !in ss[n].store
    ensures i < n && MovedIn(ss[i], ss[i + 1], Keys(wants), wants[i], faults[i], k)
  {
    i := LastWith(ss, k, n);
    assert wants[i].key in Keys(wants);
    RemovedInTurn(ss[i], ss[i + 1], Keys(wants), wants[i], faults[i], k);
  }

  // The last state that has a key which is gone later.
  lemma {:induction false} LastWith(ss: seq<State>, k: string, n: nat) returns (i: nat)
    requires n < |ss| && k in ss[0].store && k !in ss[n].store
    ensures i < n && k in ss[i].store && k !in ss[i + 1].store
  {
    i := n - 1;
    if k !in ss[i].store {
      i := LastWith(ss, k, i);
    }
  }

  // The value stored under k is in m: in place, or under a current key of its basename.
  ghost predicate Traced(store: Store, m: Store, current: set<string>, k: string) {
    k in store
    && exists p | p in m :: m[p] == store[k] && (p == k || (p in current && p !in store && Basename(p) == Basename(k)))
  }

  ghost predicate AllTraced(store: Store, m: Store, current: set<string>) {
    forall k | k in store :: Traced(store, m, current, k)
  }

  // A current key that was written without being reported so, and a legacy key it may come from.
  ghost predicate Rivals(s: State, current: set<string>, k: string, c: string) {
    && k in current && k in s.store && k !in s.stored
    && c in s.stored && c !in current && c in s.store && Basename(c) == Basename(k)
  }

  // They hold the same.
  ghost predicate TentativeOk(s: State, current: set<string>) {
    forall k, c | Rivals(s, current, k, c) :: s.store[k] == s.store[c]
  }

  ghost predicate CursorsOk(store: Store, s: State, current: set<string>) {
    && s.stored <= s.store.Keys && TentativeOk(s, current)
    && (forall k | k in current && k in store :: k in s.stored && k in s.store && s.store[k] == store[k])
    && AllTraced(store, s.store, current) && AllTraced(store, s.disk, current)
  }

  // Copying c's value to a key that is free, or already holds that value, loses nothing.
  lemma CopyTraces(store: Store, m: Store, current: set<string>, key: string, c: string)
    requires AllTraced(store, m, current) && c in m && (key in m ==> m[key] == m[c])
    ensures AllTraced(store, m[key := m[c]], current)
  {
    forall k | k in store ensures Traced(store, m[key := m[c]], current, k) {
      assert Traced(store, m, current, k);
      var p :| p in m && m[p] == store[k] && (p == k || (p in current && p !in store && Basename(p) == Basename(k)));
      assert p in m[key := m[c]] && m[key := m[c]][p] == m[p];
    }
  }

  // Then removing c loses nothing either.
  lemma DeleteTraces(store: Store, m: Store, current: set<string>, key: string, c: string)
    requires AllTraced(store, m, current) && c in m && key in m && key != c && m[key] == m[c]
    requires key in current && key !in store && c !in current && Basename(key) == Basename(c)
    ensures AllTraced(store, m - {c}, current)
  {
    forall k | k in store ensures Traced(store, m - {c}, current, k) {
      assert Traced(store, m, current, k);
      var p :| p in m && m[p] == store[k] && (p == k || (p in current && p !in store && Basename(p) == Basename(k)));
      var q := if p == c then key else p;
      assert q in m - {c} && (m - {c})[q] == store[k];
    }
  }

  lemma MoveTraces(store: Store, s: State, s': State, current: set<string>, w: Want, c: string, f: Fault)
    requires CursorsOk(store, s, current)
    requires w.key in current && Basename(w.key) == w.name && w.key !in s.stored
    requires c in Candidates(s.stored, current, w.name) && s' == Moved(s, w, c, f)
    ensures AllTraced(store, s'.store, current) && AllTraced(store, s'.disk, current)
  {
    assert w.key in s.store ==> Rivals(s, current, w.key, c);
    CopyTraces(store, s.store, current, w.key, c);
    DeleteTraces(store, s.store[w.key := s.store[c]], current, w.key, c);
  }

  lemma RivalsAgree(s: State, s': State, current: set<string>, w: Want, c: string, f: Fault, k: string, d: string)
    requires TentativeOk(s, current) && w.key in current && Basename(w.key) == w.name && w.key !in s.stored
    requires Candidates(s.stored, current, w.name) == {c} && c in s.store && s' == Moved(s, w, c, f)
    requires Rivals(s', current, k, d)
    ensures s'.store[k] == s'.store[d]
  {
    assert c in Candidates(s.stored, current, w.name);
    assert d in s.stored && s'.store[d] == s.store[d];
    if k == w.key {
      assert d in Candidates(s.stored, current, w.name);
    } else {
      assert Rivals(s, current, k, d);
    }
  }

  lemma MoveTentative(s: State, s': State, current: set<string>, w: Want, c: string, f: Fault)
    requires TentativeOk(s, current) && w.key in current && Basename(w.key) == w.name && w.key !in s.stored
    requires Candidates(s.stored, current, w.name) == {c} && c in s.store && s' == Moved(s, w, c, f)
    ensures TentativeOk(s', current)
  {
    forall k, d | Rivals(s', current, k, d) ensures s'.store[k] == s'.store[d] {
      RivalsAgree(s, s', current, w, c, f, k, d);
    }
  }

  lemma MoveKeepsCursors(store: Store, s: State, s': State, current: set<string>, w: Want, c: string, f: Fault)
    requires CursorsOk(store, s, current)
    requires w.key in current && Basename(w.key) == w.name && w.key !in s.stored
    requires Candidates(s.stored, current, w.name) == {c} && s' == Moved(s, w, c, f)
    ensures CursorsOk(store, s', current)
  {
    assert c in Candidates(s.stored, current, w.name);
    MoveTraces(store, s, s', current, w, c, f);
    MoveTentative(s, s', current, w, c, f);
  }

  // Whatever rewrites fail, every value is in the map and in the file after every turn, as long as
  // no current key is auxiliary in shape.
  lemma {:induction false} NoCursorLost(store: Store, ss: seq<State>, wants: seq<Want>, faults: seq<Fault>, n: nat)
    requires Turns(ss, Keys(wants), wants, faults) && ss[0] == Start(store) && Named(wants) && n <= |wants|
    requires forall k | k in Keys(wants) :: !IsAuxiliary(k)
    ensures CursorsOk(store, ss[n], Keys(wants))
  {
    var current := Keys(wants);
    if n == 0 {
      forall k | k in store ensures Traced(store, store, current, k) {
      }
    } else {
      NoCursorLost(store, ss, wants, faults, n - 1);
      var s, s', w, f := ss[n - 1], ss[n], wants[n - 1], faults[n - 1];
      assert Turn(s, s', current, w, f) && w.key in current;
      if Adopts(s, current, w) {
        var c :| c in Candidates(s.stored, current, w.name) && c in s.store && s' == Moved(s, w, c, f);
        Singleton(Candidates(s.stored, current, w.name), c);
        MoveKeepsCursors(store, s, s', current, w, c, f);
      }
    }
  }
}
