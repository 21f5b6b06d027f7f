/**
 * Loading, unloading and reloading mods at runtime (src/core/ModControl.cpp), as changes of the set
 * of loaded mods. What can go wrong outside is given by an environment.
 */
module ModControl {
  import opened Walks
  import opened Dependents

  /** The mods of other managers, which are never touched here, and our own table. */
  datatype Mods = Mods(foreign: DepMap, rust: DepMap)

  function All(s: Mods): DepMap {
    s.foreign + s.rust
  }

  /** Every dependency of a loaded mod is loaded, and no mod depends on itself through others. */
  ghost predicate Safe(s: Mods) {
    s.foreign.Keys !! s.rust.Keys && Closed(s) && Acyclic(All(s))
  }

  ghost predicate Closed(s: Mods) {
    forall a, b :: Lists(All(s), a, b) ==> b in All(s)
  }

  function Add(s: Mods, n: Name, deps: seq<Name>): Mods {
    s.(rust := s.rust[n := deps])
  }

  function Remove(s: Mods, n: Name): Mods {
    s.(rust := s.rust - {n})
  }

  /** Bringing a mod up is safe if and only if all it depends on is already loaded. */
  lemma AddKeepsSafeIff(s: Mods, n: Name, deps: seq<Name>)
    requires Safe(s) && n !in All(s)
    ensures Safe(Add(s, n, deps)) <==> forall d :: d in deps ==> d in All(s)
  {
    var t := Add(s, n, deps);
    assert forall a, b :: Lists(All(t), a, b) <==> if a == n then b in deps else Lists(All(s), a, b);
    if forall d :: d in deps ==> d in All(s) {
      forall m
        ensures !Leads(Needs(All(t)), m, m)
      {
        if Leads(Needs(All(t)), m, m) {
          NewModIsNotReached(s, n, deps, m);
        }
      }
    } else {
      var d :| d in deps && d !in All(s);
      if d == n {
        assert Needs(All(t))(n, n);
        JoinedRefl(Needs(All(t)), n);
        assert Leads(Needs(All(t)), n, n);
      } else {
        assert Lists(All(t), n, d) && d !in All(t);
      }
    }
  }

  /** A cycle after the addition would already have been one before. */
  lemma NewModIsNotReached(s: Mods, n: Name, deps: seq<Name>, m: Name)
    requires Closed(s) && n !in All(s) && forall d :: d in deps ==> d in All(s)
    requires Leads(Needs(All(Add(s, n, deps))), m, m)
    ensures Leads(Needs(All(s)), m, m)
  {
    var old_edge, edge := Needs(All(s)), Needs(All(Add(s, n, deps)));
    var c :| edge(m, c) && Joined(edge, c, m);
    var w :| IsWalk(edge, w) && w[0] == c && w[|w| - 1] == m;
    AddLists(s, n, deps, m, c);
    forall i | 0 <= i < |w|
      ensures w[i] in All(s) && (i < |w| - 1 ==> old_edge(w[i], w[i + 1]))
    {
      OldModsStayOld(s, n, deps, w, i);
    }
    assert IsWalk(old_edge, w);
    assert old_edge(m, c) && Joined(old_edge, c, m);
  }

  lemma AddLists(s: Mods, n: Name, deps: seq<Name>, a: Name, b: Name)
    requires n !in All(s)
    ensures Lists(All(Add(s, n, deps)), a, b) <==> if a == n then b in deps else Lists(All(s), a, b)
  {}

  lemma {:induction false} OldModsStayOld(s: Mods, n: Name, deps: seq<Name>, w: seq<Name>, i: nat)
    requires Closed(s) && n !in All(s)
    requires IsWalk(Needs(All(Add(s, n, deps))), w) && i < |w| && w[0] in All(s)
    ensures w[i] in All(s) && (i < |w| - 1 ==> Needs(All(s))(w[i], w[i + 1]))
  {
    if i > 0 {
      OldModsStayOld(s, n, deps, w, i - 1);
    }
    if i < |w| - 1 {
      assert Needs(All(Add(s, n, deps)))(w[i], w[i + 1]);
      AddLists(s, n, deps, w[i], w[i + 1]);
    }
  }

  /** Taking a mod down is safe if and only if no loaded mod depends on it. */
  lemma RemoveKeepsSafeIff(s: Mods, n: Name)
    requires Safe(s) && n in s.rust
    ensures Safe(Remove(s, n)) <==> forall p :: !Lists(All(s), p, n)
  {
    var t := Remove(s, n);
    assert forall a, b :: Lists(All(t), a, b) <==> a != n && Lists(All(s), a, b);
    forall m
      ensures !Leads(Needs(All(t)), m, m)
    {
      if Leads(Needs(All(t)), m, m) {
        LeadsMono(Needs(All(t)), Needs(All(s)), m, m);
      }
    }
    if Lists(All(s), n, n) {
      assert Needs(All(s))(n, n);
      JoinedRefl(Needs(All(s)), n);
      assert Leads(Needs(All(s)), n, n);
    }
    if p :| Lists(All(s), p, n) {
      assert Lists(All(t), p, n);
    }
  }

  /**
   * A reload reads the manifest again but does not check the dependencies it names, so a manifest
   * edited in between can leave a loaded mod without one of them.
   */
  lemma EditedManifestBreaksReload()
    ensures var s := Mods(map[], map["a" := []]);
            Safe(s) && !Safe(Add(Remove(s, "a"), "a", ["b"]))
  {
    var s := Mods(map[], map["a" := []]);
    assert forall a, b :: !Lists(All(s), a, b);
    assert forall m, c :: !Needs(All(s))(m, c);
    var t := Remove(s, "a");
    RemoveKeepsSafeIff(s, "a");
    AddKeepsSafeIff(t, "a", ["b"]);
    assert "b" in ["b"] && "b" !in All(t);
  }

  // ---------------------------------------------------------------- the environment of one command

  /** manifest.json as `readCandidate` sees it. */
  datatype Candidate = Candidate(reloadSafe: bool, deps: seq<Name>)

  datatype LoadOutcome =
    | LoadFails                      // the library or its entry point refuses
    | EnableFails(rolledBack: bool)  // loaded but not enabled; the rollback may be refused as well
    | Loaded

  datatype Env = Env(
    disk: map<Name, Candidate>,  // the readable manifests of rust mods
    manifestOk: Name -> bool,    // whether the manifest can be read a second time
    unloadOk: Name -> bool,      // disable, the busy check, on_unload and freeing the library all succeed
    load: Name -> LoadOutcome,
    listed: Name -> bool         // which of our mods the registry lists as well
  )

  /** The commands that change the set of loaded mods, each in a world of its own. */
  datatype Command =
    | Load(name: Name, env: Env)
    | Unload(name: Name, cascade: bool, env: Env)
    | Reload(name: Name, cascade: bool, env: Env)

  class LoaderMods {
    var foreign: DepMap
    var rust: DepMap
    /** Every state the tables have been in, the present one last. */
    ghost var Trace: seq<Mods>

    function Now(): Mods
      reads this
    {
      Mods(foreign, rust)
    }

    ghost predicate Valid()
      reads this
    {
      foreign.Keys !! rust.Keys && Trace != [] && Trace[|Trace| - 1] == Now()
    }

    ghost predicate AlwaysSafe()
      reads this
    {
      forall i :: 0 <= i < |Trace| ==> Safe(Trace[i])
    }

    constructor (foreign: DepMap, rust: DepMap)
      requires foreign.Keys !! rust.Keys
      ensures Valid() && Now() == Mods(foreign, rust) && Trace == [Now()]
    {
      this.foreign, this.rust := foreign, rust;
      Trace := [Mods(foreign, rust)];
    }

    predicate IsLoadedAnywhere(n: Name)
      reads this
    {
      n in rust || n in foreign
    }

    /** `loadedDependencyMap`: a mod the registry lists too gets its entries twice. */
    method LoadedDependencyMap(listed: Name -> bool) returns (out: DepMap)
      requires Valid()
      ensures out.Keys == All(Now()).Keys
      ensures forall a, b :: Lists(out, a, b) <==> Lists(All(Now()), a, b)
    {
      out := Absorb(map[], foreign, foreign.Keys);
      out := Absorb(out, rust, set n | n in rust && listed(n));
      out := Absorb(out, rust, rust.Keys);
    }

    method AddMod(n: Name, deps: seq<Name>)
      requires Valid() && n !in foreign
      modifies this`rust, this`Trace
      ensures Valid() && Now() == Add(old(Now()), n, deps) && Trace == old(Trace) + [Now()]
    {
      rust := rust[n := deps];
      Trace := Trace + [Mods(foreign, rust)];
    }

    method EraseMod(n: Name)
      requires Valid()
      modifies this`rust, this`Trace
      ensures Valid() && Now() == Remove(old(Now()), n) && Trace == old(Trace) + [Now()]
    {
      rust := rust - {n};
      Trace := Trace + [Mods(foreign, rust)];
    }

    /** Load, then enable; a mod that cannot be enabled is taken down again. */
    method ControlLoad(n: Name, deps: seq<Name>, env: Env) returns (ok: bool)
      requires Valid() && !IsLoadedAnywhere(n)
      modifies this`rust, this`Trace
      ensures Valid() && ok == env.load(n).Loaded?
      ensures Now() == if ok || env.load(n) == EnableFails(false) then Add(old(Now()), n, deps) else old(Now())
      ensures old(Trace) <= Trace
      ensures old(AlwaysSafe()) ==>
                (AlwaysSafe() <==> env.load(n).LoadFails? || forall d :: d in deps ==> old(IsLoadedAnywhere(d)))
    {
      if env.load(n).LoadFails? { return false; }
      ghost var k := |Trace|;
      if Safe(Now()) { AddKeepsSafeIff(Now(), n, deps); }
      AddMod(n, deps);
      assert Trace[k] == Add(old(Now()), n, deps);
      if env.load(n).EnableFails? {
        if env.load(n).rolledBack {
          EraseMod(n);
          assert rust == old(rust) && Trace == old(Trace) + [Add(old(Now()), n, deps), old(Now())];
        }
        assert Trace[k] == Add(old(Now()), n, deps);
        return false;
      }
      return true;
    }

    method ControlUnload(n: Name, env: Env) returns (ok: bool)
      requires Valid() && n in rust
      modifies this`rust, this`Trace
      ensures Valid() && ok == env.unloadOk(n) && old(Trace) <= Trace
      ensures Now() == if ok then Remove(old(Now()), n) else old(Now())
      ensures old(AlwaysSafe()) && (forall p :: !Lists(old(All(Now())), p, n)) ==> AlwaysSafe()
    {
      if !env.unloadOk(n) { return false; }
      if Safe(Now()) { RemoveKeepsSafeIff(Now(), n); }
      EraseMod(n);
      return true;
    }

    method CmdLoad(n: Name, env: Env) returns (ok: bool)
      requires Valid()
      modifies this`rust, this`Trace
      ensures Valid() && old(Trace) <= Trace
      ensures old(AlwaysSafe()) ==> AlwaysSafe()
      ensures ok <==> && !old(IsLoadedAnywhere(n)) && n in env.disk
                      && (forall d :: d in env.disk[n].deps ==> old(IsLoadedAnywhere(d)))
                      && env.manifestOk(n) && env.load(n).Loaded?
      ensures ok <==> LoadGoes(old(Now()), n, env) && env.load(n).Loaded?
      ensures LoadDone(old(Now()), n, env, Now())
    {
      if n in rust { return false; }
      if IsLoadedAnywhere(n) { return false; }
      if n !in env.disk { return false; }
      var deps := env.disk[n].deps;
      var missing := false;
      for i := 0 to |deps|
        invariant missing <==> exists k :: 0 <= k < i && !IsLoadedAnywhere(deps[k])
      {
        if !IsLoadedAnywhere(deps[i]) {
          missing := true;
        }
      }
      if missing { return false; }
      if !env.manifestOk(n) { return false; }
      ok := ControlLoad(n, deps, env);
    }

    /** `dependentsOf` on what is loaded now. */
    method PlanUnload(n: Name, env: Env) returns (dependents: seq<Name>)
      requires Valid()
      ensures NoDuplicates(dependents)
      ensures forall m :: m in dependents <==> m != n && Dependent(All(Now()), m, n)
      ensures NoDuplicates(dependents + [n])
      ensures Safe(Now()) ==> GoodOrder(Now(), n, dependents + [n])
    {
      var deps := LoadedDependencyMap(env.listed);
      dependents := DependentsOf(deps, n);
      SameDependents(deps, All(Now()), n, dependents);
    }

    /** The unload path shared by unload and reload. */
    method DoUnload(n: Name, cascade: bool, env: Env) returns (ok: bool, unloaded: seq<Name>, ghost order: seq<Name>)
      requires Valid()
      modifies this`rust, this`Trace
      ensures Valid() && foreign == old(foreign) && old(Trace) <= Trace
      ensures old(AlwaysSafe()) ==> AlwaysSafe()
      ensures UnloadDone(old(Now()), n, cascade, env, ok, unloaded, order, Now())
      ensures NoDuplicates(unloaded)
      ensures forall m :: m in unloaded ==> m in old(rust) && (m == n || (cascade && Dependent(old(All(Now())), m, n)))
      ensures ok ==> forall m :: m in unloaded <==> m == n || Dependent(old(All(Now())), m, n)
      ensures ok && Safe(old(Now())) ==> GoodOrder(old(Now()), n, unloaded)
      ensures (exists m :: Dependent(old(All(Now())), m, n) && m != n && (!cascade || m !in old(rust)))
              ==> !ok && unloaded == []
      ensures ok <==> && n in old(rust)
                      && (forall m :: Dependent(old(All(Now())), m, n) && m != n ==> cascade && m in old(rust))
                      && (forall m :: m == n || Dependent(old(All(Now())), m, n) ==> env.unloadOk(m))
    {
      unloaded, order := [], [];
      if n !in rust { return false, [], []; }
      ghost var s0 := Now();
      var dependents := PlanUnload(n, env);
      if dependents != [] {
        assert dependents[0] in dependents;
        if !cascade { return false, [], []; }
        var foreigners := false;
        for i := 0 to |dependents|
          invariant foreigners <==> exists k :: 0 <= k < i && dependents[k] !in rust
        {
          if dependents[i] !in rust {
            foreigners := true;
          }
        }
        if foreigners { return false, [], []; }
      }
      order := dependents + [n];
      ok, unloaded := UnloadInOrder(n, dependents + [n], env);
    }

    /** Takes down one mod after the other and stops at the first refusal. */
    method UnloadInOrder(n: Name, order: seq<Name>, env: Env) returns (ok: bool, unloaded: seq<Name>)
      requires Valid() && NoDuplicates(order) && forall m :: m in order ==> m in rust
      modifies this`rust, this`Trace
      ensures Valid() && Now() == RemoveAll(old(Now()), unloaded) && old(Trace) <= Trace
      ensures UpToRefusal(order, env, ok, unloaded)
      ensures ok <==> forall m :: m in order ==> env.unloadOk(m)
      ensures old(AlwaysSafe()) && GoodOrder(old(Now()), n, order) ==> AlwaysSafe()
    {
      unloaded := [];
      ghost var s0 := Now();
      for i := 0 to |order|
        invariant Valid() && unloaded == order[..i] && old(Trace) <= Trace
        invariant Now() == RemoveAll(s0, unloaded)
        invariant old(AlwaysSafe()) && GoodOrder(s0, n, order) ==> AlwaysSafe()
        invariant forall k :: 0 <= k < i ==> env.unloadOk(order[k])
      {
        var done := UnloadNext(n, order, i, env, s0, old(AlwaysSafe()));
        if !done {
          StoppedAt(order, env, i);
          return false, unloaded;
        }
        unloaded := unloaded + [order[i]];
        assert order[..i + 1] == order[..i] + [order[i]];
      }
      StoppedAt(order, env, |order|);
      return true, unloaded;
    }

    method UnloadNext(n: Name, order: seq<Name>, i: nat, env: Env, ghost s0: Mods, ghost was: bool) returns (ok: bool)
      requires Valid() && NoDuplicates(order) && i < |order| && forall m :: m in order ==> m in s0.rust
      requires Now() == RemoveAll(s0, order[..i]) && (was ==> Safe(s0))
      requires was && GoodOrder(s0, n, order) ==> AlwaysSafe()
      modifies this`rust, this`Trace
      ensures Valid() && old(Trace) <= Trace && ok == env.unloadOk(order[i])
      ensures Now() == RemoveAll(s0, order[..if ok then i + 1 else i])
      ensures was && GoodOrder(s0, n, order) ==> AlwaysSafe()
    {
      assert order[..i + 1] == order[..i] + [order[i]];
      if was && GoodOrder(s0, n, order) { NobodyNeedsNext(s0, n, order, i); }
      ok := ControlUnload(order[i], env);
    }

    /** A reload may only touch mods that declare they can survive it. */
    method ReloadAllowed(n: Name, cascade: bool, env: Env) returns (ok: bool)
      requires Valid() && n in rust
      ensures ok <==> ReloadPermitted(Now(), n, cascade, env)
    {
      if n !in env.disk || !env.disk[n].reloadSafe { return false; }
      if cascade {
        var dependents := PlanUnload(n, env);
        for i := 0 to |dependents|
          invariant forall k :: 0 <= k < i && dependents[k] in rust ==> MarkedSafe(env, dependents[k])
        {
          var dep := dependents[i];
          if dep !in rust { continue; }
          if dep !in env.disk || !env.disk[dep].reloadSafe { return false; }
        }
      }
      return true;
    }

    /**
     * Takes the target and its dependents down and brings them back in the opposite order. `down` are the
     * mods it came to bringing back; from a safe past, what decides is what their manifests name by now.
     */
    method CmdReload(n: Name, cascade: bool, env: Env) returns (ok: bool, ghost down: seq<Name>)
      requires Valid()
      modifies this`rust, this`Trace
      ensures Valid() && old(Trace) <= Trace && ReloadDone(old(Now()), n, cascade, env, ok, down, Now())
      ensures ok <==> ReloadGoes(old(Now()), n, cascade, env)
      ensures old(AlwaysSafe()) ==> (AlwaysSafe() <==> SafeReturn(old(Now()), env, down))
      ensures down != [] && Safe(old(Now())) ==> GoodOrder(old(Now()), n, down)
      ensures forall m :: m in down ==> m in old(rust) && m in env.disk
      ensures ok ==> rust.Keys == old(rust).Keys
      ensures ok && old(AlwaysSafe()) && Unchanged(old(Now()), env) ==> Now() == old(Now())
      ensures rust.Keys <= old(rust).Keys
      ensures forall m :: m in old(rust) && !(m in rust && rust[m] == old(rust)[m]) ==> MarkedSafe(env, m)
    {
      if n !in rust { return false, []; }
      var allowed := ReloadAllowed(n, cascade, env);
      if !allowed { return false, []; }
      ok, down := TakeDownAndBack(n, cascade, env);
    }

    method TakeDownAndBack(n: Name, cascade: bool, env: Env) returns (ok: bool, ghost down: seq<Name>)
      requires Valid() && n in rust && ReloadPermitted(Now(), n, cascade, env)
      modifies this`rust, this`Trace
      ensures Valid() && old(Trace) <= Trace && ReloadDone(old(Now()), n, cascade, env, ok, down, Now())
      ensures ok <==> ReloadGoes(old(Now()), n, cascade, env)
      ensures old(AlwaysSafe()) ==> (AlwaysSafe() <==> SafeReturn(old(Now()), env, down))
      ensures down != [] && Safe(old(Now())) ==> GoodOrder(old(Now()), n, down)
      ensures forall m :: m in down ==> m in old(rust) && m in env.disk
      ensures ok ==> rust.Keys == old(rust).Keys
      ensures ok && old(AlwaysSafe()) && Unchanged(old(Now()), env) ==> Now() == old(Now())
      ensures rust.Keys <= old(rust).Keys
      ensures forall m :: m in old(rust) && !(m in rust && rust[m] == old(rust)[m]) ==> MarkedSafe(env, m)
    {
      ghost var s0 := Now();
      var unloaded;
      ghost var order;
      ok, unloaded, order := DoUnload(n, cascade, env);
      if !ok {
        NotTakenDown(s0, n, cascade, env, unloaded, order);
        return false, [];
      }
      TakenAreMarked(s0, n, cascade, env, unloaded, order);
      ok := BringBack(n, unloaded, env, s0);
      down := unloaded;
      BroughtBack(s0, n, cascade, env, ok, unloaded, order, Now());
    }

    /** Reloads what was unloaded, last one first, without asking for its dependencies again. */
    method BringBack(n: Name, unloaded: seq<Name>, env: Env, ghost s0: Mods) returns (ok: bool)
      requires Valid() && s0.foreign.Keys !! s0.rust.Keys && Now() == RemoveAll(s0, unloaded)
      requires NoDuplicates(unloaded) && forall m :: m in unloaded ==> m in s0.rust && m in env.disk
      modifies this`rust, this`Trace
      ensures Valid() && old(Trace) <= Trace && Shrunk(s0, unloaded, Now()) && (ok ==> rust.Keys == s0.rust.Keys)
      ensures Returned(s0, env, unloaded, Now())
      ensures ok <==> forall m :: m in unloaded ==> ComesBack(env, m)
      ensures old(AlwaysSafe()) ==> (AlwaysSafe() <==> SafeReturn(s0, env, unloaded))
      ensures ok && Good(s0, env, n, unloaded) ==> Now() == s0
    {
      ghost var was := AlwaysSafe();
      var down := |unloaded|;
      assert unloaded[..down] == unloaded;
      RemovedIsShrunk(s0, unloaded);
      while down > 0
        invariant down <= |unloaded| && Valid() && old(Trace) <= Trace
        invariant BackFrom(s0, env, n, unloaded, down, was)
      {
        var done := BringBackNext(n, unloaded, down - 1, env, s0, was);
        if !done {
          assert ReturnedTo(s0, env, unloaded, down - 1, Now());
          return false;
        }
        down := down - 1;
      }
      AllOfThem(s0, env, unloaded);
      assert ReturnedTo(s0, env, unloaded, -1, Now());
      return true;
    }

    /** Those from `down` on are back. */
    ghost predicate BackFrom(s0: Mods, env: Env, n: Name, unloaded: seq<Name>, down: nat, was: bool)
      requires down <= |unloaded|
      reads this
    {
      && Shrunk(s0, unloaded, Now()) && rust.Keys == RemoveAll(s0, unloaded[..down]).rust.Keys
      && ReadAgain(env, unloaded, down, Now())
      && (Good(s0, env, n, unloaded) ==> Now() == RemoveAll(s0, unloaded[..down]))
      && (forall k :: down <= k < |unloaded| ==> ComesBack(env, unloaded[k]))
      && (was ==> (AlwaysSafe() <==> FindFrom(s0, env, unloaded, down)))
    }

    method BringBackNext(n: Name, unloaded: seq<Name>, i: nat, env: Env, ghost s0: Mods, ghost was: bool)
      returns (ok: bool)
      requires Valid() && s0.foreign.Keys !! s0.rust.Keys && i < |unloaded|
      requires NoDuplicates(unloaded) && forall m :: m in unloaded ==> m in s0.rust && m in env.disk
      requires BackFrom(s0, env, n, unloaded, i + 1, was)
      modifies this`rust, this`Trace
      ensures Valid() && old(Trace) <= Trace && Shrunk(s0, unloaded, Now()) && ok == ComesBack(env, unloaded[i])
      ensures ok ==> BackFrom(s0, env, n, unloaded, i, was)
      ensures !ok ==> ReturnedTo(s0, env, unloaded, i, Now())
      ensures !ok && was ==> (AlwaysSafe() <==> SafeReturn(s0, env, unloaded))
    {
      ghost var before := AlwaysSafe();
      ok := BringBackOne(n, unloaded, i, env, s0);
      assert FindFrom(s0, env, unloaded, i) <==> FindFrom(s0, env, unloaded, i + 1) && Finds(s0, env, unloaded, i);
      assert before ==> (AlwaysSafe() <==> (ComesUp(env, unloaded[i]) ==> Finds(s0, env, unloaded, i)));
      OneMoreReturned(s0, env, unloaded, i, old(Now()), Now());
      if !ok { OnlyThese(s0, env, unloaded, i); }
    }

    method BringBackOne(n: Name, unloaded: seq<Name>, i: nat, env: Env, ghost s0: Mods) returns (ok: bool)
      requires Valid() && s0.foreign.Keys !! s0.rust.Keys && i < |unloaded|
      requires NoDuplicates(unloaded) && forall m :: m in unloaded ==> m in s0.rust && m in env.disk
      requires Shrunk(s0, unloaded, Now()) && rust.Keys == RemoveAll(s0, unloaded[..i + 1]).rust.Keys
      modifies this`rust, this`Trace
      ensures Valid() && old(Trace) <= Trace && Shrunk(s0, unloaded, Now()) && ok == ComesBack(env, unloaded[i])
      ensures ok ==> rust.Keys == RemoveAll(s0, unloaded[..i]).rust.Keys
      ensures Now() == if StaysUp(env, unloaded[i]) then Add(old(Now()), unloaded[i], env.disk[unloaded[i]].deps)
                       else old(Now())
      ensures old(AlwaysSafe()) ==> (AlwaysSafe() <==> (ComesUp(env, unloaded[i]) ==> Finds(s0, env, unloaded, i)))
      ensures ok && Good(s0, env, n, unloaded) && old(Now()) == RemoveAll(s0, unloaded[..i + 1])
              ==> Now() == RemoveAll(s0, unloaded[..i])
    {
      var m := unloaded[i];
      OneMoreBack(s0, unloaded, i);
      if !env.manifestOk(m) { return false; }
      if Good(s0, env, n, unloaded) {
        NextFindsItsDependencies(s0, n, unloaded, i);
      }
      ok := ControlLoad(m, env.disk[m].deps, env);
    }

    // -------------------------------------------------------------- many commands

    method Run(c: Command) returns (ghost down: seq<Name>)
      requires Valid()
      modifies this`rust, this`Trace
      ensures Valid() && old(Trace) <= Trace && Done(c, old(Now()), down, Now())
      ensures old(AlwaysSafe()) ==> (AlwaysSafe() <==> SafeReturn(old(Now()), c.env, down))
      ensures down != [] ==> && c.Reload? && (forall m :: m in down ==> m in old(rust) && m in c.env.disk)
                             && (Safe(old(Now())) ==> GoodOrder(old(Now()), c.name, down))
    {
      down := [];
      match c {
        case Load(n, env) => var _ := CmdLoad(n, env);
        case Unload(n, cascade, env) =>
          var ok, unloaded, order := DoUnload(n, cascade, env);
          assert UnloadDone(old(Now()), n, cascade, env, ok, unloaded, order, Now());
        case Reload(n, cascade, env) =>
          var ok, d := CmdReload(n, cascade, env);
          down := d;
          assert ReloadDone(old(Now()), n, cascade, env, ok, d, Now());
      }
    }

    /**
     * Any commands one after the other, the world changing in between as it likes: `moments` are the states
     * they find and `downs` what they bring back. All is safe all the time if and only if each mod that a
     * reload brings up finds what its manifest names.
     */
    method RunAll(cmds: seq<Command>) returns (ghost moments: seq<Mods>, ghost downs: seq<seq<Name>>)
      requires Valid()
      modifies this`rust, this`Trace
      ensures Valid() && |moments| == |downs| == |cmds| && AllDone(old(Now()), cmds, moments, downs, Now())
      ensures old(AlwaysSafe()) ==> (AlwaysSafe() <==> AllReturnSafely(cmds, moments, downs))
      ensures old(AlwaysSafe()) && AllUnedited(cmds, moments) ==> AlwaysSafe()
    {
      moments, downs := [], [];
      ghost var done := [];
      for i := 0 to |cmds|
        invariant Valid() && done == cmds[..i] && |moments| == |downs| == |done|
        invariant AllDone(old(Now()), done, moments, downs, Now())
        invariant old(AlwaysSafe()) ==> (AlwaysSafe() <==> AllReturnSafely(done, moments, downs))
        invariant old(AlwaysSafe()) && AllUnedited(done, moments) ==> AlwaysSafe()
      {
        moments, downs := RunNext(cmds[i], done, moments, downs, old(Now()), old(AlwaysSafe()));
        done := done + [cmds[i]];
      }
      assert done == cmds;
    }

    method RunNext(c: Command, ghost done: seq<Command>, ghost moments0: seq<Mods>, ghost downs0: seq<seq<Name>>,
                   ghost start: Mods, ghost was: bool)
      returns (ghost moments: seq<Mods>, ghost downs: seq<seq<Name>>)
      requires Valid() && |moments0| == |downs0| == |done|
      requires AllDone(start, done, moments0, downs0, Now())
      requires was ==> (AlwaysSafe() <==> AllReturnSafely(done, moments0, downs0))
      requires was && AllUnedited(done, moments0) ==> AlwaysSafe()
      modifies this`rust, this`Trace
      ensures Valid() && |moments| == |downs| == |done| + 1
      ensures AllDone(start, done + [c], moments, downs, Now())
      ensures was ==> (AlwaysSafe() <==> AllReturnSafely(done + [c], moments, downs))
      ensures was && AllUnedited(done + [c], moments) ==> AlwaysSafe()
    {
      ghost var before := Now();
      ghost var down := Run(c);
      if Safe(before) && (c.Reload? ==> Unchanged(before, c.env)) {
        UneditedReturns(before, c, down);
      }
      ReturnGrows(done, moments0, downs0, c, before, down);
      DoneGrows(start, done, moments0, downs0, c, before, down, Now());
      UneditedGrows(done, moments0, c, before);
      moments, downs := moments0 + [before], downs0 + [down];
    }
  }

  /** Appends the dependency lists of `names` to what `out0` already has for them. */
  method Absorb(out0: DepMap, table: DepMap, names: set<Name>) returns (out: DepMap)
    requires names <= table.Keys
    ensures out.Keys == out0.Keys + names
    ensures forall a, b :: Lists(out, a, b) <==> Lists(out0, a, b) || (a in names && Lists(table, a, b))
  {
    out := out0;
    var rest := names;
    while rest != {}
      invariant rest <= names && out.Keys == out0.Keys + (names - rest)
      invariant forall a, b :: Lists(out, a, b) <==> Lists(out0, a, b) || (a in names - rest && Lists(table, a, b))
    {
      var n :| n in rest;
      rest := rest - {n};
      ghost var before := out;
      out := out[n := (if n in out then out[n] else []) + table[n]];
      assert forall a, b :: Lists(out, a, b) <==> Lists(before, a, b) || (a == n && Lists(table, a, b));
    }
  }

  function RemoveAll(s: Mods, names: seq<Name>): Mods {
    s.(rust := s.rust - set m | m in names)
  }

  /** Listing entries twice changes neither who depends on whom nor the order. */
  lemma SameDependents(a: DepMap, b: DepMap, n: Name, dependents: seq<Name>)
    requires forall x, y :: Lists(a, x, y) <==> Lists(b, x, y)
    requires forall m :: m in dependents <==> m != n && Dependent(a, m, n)
    requires UnloadOrder(a, dependents) <==> AcyclicOn(a, set m | m in dependents)
    requires NoDuplicates(dependents)
    ensures forall m :: m in dependents <==> m != n && Dependent(b, m, n)
    ensures NoDuplicates(dependents + [n]) && forall m :: m in dependents + [n] <==> m == n || m in dependents
    ensures Acyclic(b) ==> UnloadOrder(b, dependents + [n])
  {
    assert forall i :: 0 <= i < |dependents| ==> dependents[i] in dependents;
    forall m
      ensures Dependent(a, m, n) <==> Dependent(b, m, n)
    {
      if Dependent(a, m, n) { LeadsMono(Needs(a), Needs(b), m, n); }
      if Dependent(b, m, n) { LeadsMono(Needs(b), Needs(a), m, n); }
    }
    if Acyclic(b) {
      var s := set m | m in dependents;
      forall m
        ensures !Leads(NeedsWithin(a, s), m, m)
      {
        if Leads(NeedsWithin(a, s), m, m) {
          LeadsMono(NeedsWithin(a, s), Needs(b), m, m);
        }
      }
      var order := dependents + [n];
      forall i, j | 0 <= i <= j < |order|
        ensures !Lists(b, order[j], order[i])
      {
        if j == |order| - 1 && Lists(b, n, order[i]) {
          NeedingADependent(b, n, order[i]);
        }
      }
    }
  }

  /** A target that needs one of its dependents, or itself, needs itself. */
  lemma NeedingADependent(deps: DepMap, n: Name, m: Name)
    requires Lists(deps, n, m) && (m == n || Dependent(deps, m, n))
    ensures Leads(Needs(deps), n, n)
  {
    assert Needs(deps)(n, m);
    JoinedSplit(Needs(deps), m, n);
  }

  /** The target and all that needs it, in an order in which nothing is pulled from under a dependent. */
  ghost predicate GoodOrder(s: Mods, n: Name, order: seq<Name>) {
    && NoDuplicates(order) && UnloadOrder(All(s), order)
    && forall m :: m in order <==> m == n || Dependent(All(s), m, n)
  }

  lemma RemovedLists(s: Mods, names: seq<Name>, a: Name, b: Name)
    requires s.foreign.Keys !! s.rust.Keys && forall m :: m in names ==> m in s.rust
    ensures Lists(All(RemoveAll(s, names)), a, b) <==> a !in names && Lists(All(s), a, b)
  {}

  /** When its turn comes, a mod of the unload order has no loaded dependent left. */
  lemma NobodyNeedsNext(s: Mods, n: Name, order: seq<Name>, i: nat)
    requires Safe(s) && i < |order| && GoodOrder(s, n, order) && forall m :: m in order ==> m in s.rust
    ensures forall p :: !Lists(All(RemoveAll(s, order[..i])), p, order[i])
  {
    var edge := Needs(All(s));
    forall p
      ensures !Lists(All(RemoveAll(s, order[..i])), p, order[i])
    {
      RemovedLists(s, order[..i], p, order[i]);
      if Lists(All(s), p, order[i]) {
        assert order[i] in order;
        JoinedSplit(edge, order[i], n);
        assert edge(p, order[i]);
        assert Dependent(All(s), p, n);
        var j :| 0 <= j < |order| && order[j] == p;
        assert j < i && order[..i][j] == p;
      }
    }
  }

  // ---------------------------------------------------------------- what a command comes to

  /** A load is tried: the name is free, the mod is on disk, and all it depends on is loaded. */
  predicate LoadGoes(s: Mods, n: Name, env: Env) {
    && n !in All(s) && n in env.disk && (forall d :: d in env.disk[n].deps ==> d in All(s)) && env.manifestOk(n)
  }

  /** A mod that is tried is loaded afterwards, because it came up or because its rollback was refused. */
  predicate StaysUp(env: Env, m: Name) {
    env.manifestOk(m) && (env.load(m).Loaded? || env.load(m) == EnableFails(false))
  }

  predicate LoadDone(a: Mods, n: Name, env: Env, b: Mods) {
    b == if LoadGoes(a, n, env) && StaysUp(env, n) then Add(a, n, env.disk[n].deps) else a
  }

  /** A prefix of the order, up to the first mod that refuses. */
  predicate UpToRefusal(order: seq<Name>, env: Env, ok: bool, unloaded: seq<Name>) {
    && unloaded <= order && (forall m :: m in unloaded ==> env.unloadOk(m))
    && if ok then unloaded == order else |unloaded| < |order| && !env.unloadOk(order[|unloaded|])
  }

  lemma StoppedAt(order: seq<Name>, env: Env, i: nat)
    requires i <= |order| && forall k :: 0 <= k < i ==> env.unloadOk(order[k])
    requires i < |order| ==> !env.unloadOk(order[i])
    ensures UpToRefusal(order, env, i == |order|, order[..i])
  {}

  /** Nothing but the target goes unless cascading is asked for, and nothing of other managers. */
  ghost predicate UnloadGoes(s: Mods, n: Name, cascade: bool) {
    n in s.rust && forall m :: Dependent(All(s), m, n) && m != n ==> cascade && m in s.rust
  }

  ghost predicate UnloadDone(a: Mods, n: Name, cascade: bool, env: Env, ok: bool, unloaded: seq<Name>,
                             order: seq<Name>, b: Mods)
  {
    && b == RemoveAll(a, unloaded)
    && if UnloadGoes(a, n, cascade) then
         && NoDuplicates(order) && (forall m :: m in order <==> m == n || Dependent(All(a), m, n))
         && (Safe(a) ==> GoodOrder(a, n, order)) && UpToRefusal(order, env, ok, unloaded)
       else
         !ok && unloaded == []
  }

  /** The mods that went down come back, the last one first, up to the one with number `stop` that does not. */
  ghost predicate ReturnedTo(s0: Mods, env: Env, down: seq<Name>, stop: int, t: Mods) {
    && -1 <= stop < |down| && Shrunk(s0, down, t)
    && (forall k :: stop < k < |down| ==> ComesBack(env, down[k])) && ReadAgain(env, down, stop + 1, t)
    && (forall k :: 0 <= k < stop ==> down[k] !in t.rust)
    && (stop >= 0 ==> && !ComesBack(env, down[stop]) && (down[stop] in t.rust <==> StaysUp(env, down[stop]))
                      && (StaysUp(env, down[stop]) ==> ReadAgain(env, down, stop, t)))
  }

  ghost predicate Returned(s0: Mods, env: Env, down: seq<Name>, t: Mods) {
    exists stop :: ReturnedTo(s0, env, down, stop, t)
  }

  /** Those from number `i` on are loaded, with the manifests they have by now. */
  ghost predicate ReadAgain(env: Env, down: seq<Name>, i: nat, t: Mods) {
    forall k :: i <= k < |down| ==>
      down[k] in env.disk && down[k] in t.rust && t.rust[down[k]] == env.disk[down[k]].deps
  }

  lemma OneMoreReturned(s0: Mods, env: Env, down: seq<Name>, i: nat, s: Mods, t: Mods)
    requires i < |down| && NoDuplicates(down) && down[i] in env.disk && Shrunk(s0, down, s) && Shrunk(s0, down, t)
    requires s.rust.Keys == RemoveAll(s0, down[..i + 1]).rust.Keys && ReadAgain(env, down, i + 1, s)
    requires forall k :: i < k < |down| ==> ComesBack(env, down[k])
    requires t == if StaysUp(env, down[i]) then Add(s, down[i], env.disk[down[i]].deps) else s
    ensures StaysUp(env, down[i]) ==> ReadAgain(env, down, i, t)
    ensures !ComesBack(env, down[i]) ==> ReturnedTo(s0, env, down, i, t)
  {
    assert forall k :: 0 <= k <= i ==> down[k] in down[..i + 1];
  }

  ghost predicate ReloadPermitted(s: Mods, n: Name, cascade: bool, env: Env) {
    MarkedSafe(env, n) && (cascade ==> forall m :: Dependent(All(s), m, n) && m in s.rust ==> MarkedSafe(env, m))
  }

  ghost predicate ReloadDone(a: Mods, n: Name, cascade: bool, env: Env, ok: bool, down: seq<Name>, b: Mods) {
    if n in a.rust && ReloadPermitted(a, n, cascade, env) then
      exists went, unloaded, order ::
        && UnloadDone(a, n, cascade, env, went, unloaded, order, RemoveAll(a, unloaded))
        && if went then
             && down == unloaded && Returned(a, env, down, b)
             && (ok <==> forall m :: m in down ==> ComesBack(env, m))
           else !ok && down == [] && b == RemoveAll(a, unloaded)
    else
      !ok && down == [] && b == a
  }

  lemma NotTakenDown(a: Mods, n: Name, cascade: bool, env: Env, unloaded: seq<Name>, order: seq<Name>)
    requires n in a.rust && ReloadPermitted(a, n, cascade, env)
    requires UnloadDone(a, n, cascade, env, false, unloaded, order, RemoveAll(a, unloaded))
    ensures ReloadDone(a, n, cascade, env, false, [], RemoveAll(a, unloaded))
    ensures !ReloadGoes(a, n, cascade, env)
    ensures forall m :: m in unloaded ==> MarkedSafe(env, m)
  {
    if UnloadGoes(a, n, cascade) {
      assert order[|unloaded|] in order;
      assert forall m :: m in unloaded ==> m in order;
    }
  }

  lemma TakenAreMarked(a: Mods, n: Name, cascade: bool, env: Env, unloaded: seq<Name>, order: seq<Name>)
    requires n in a.rust && ReloadPermitted(a, n, cascade, env)
    requires UnloadDone(a, n, cascade, env, true, unloaded, order, RemoveAll(a, unloaded))
    ensures NoDuplicates(unloaded) && forall m :: m in unloaded ==> m in a.rust && MarkedSafe(env, m)
    ensures Safe(a) ==> GoodOrder(a, n, unloaded)
    ensures ReloadGoes(a, n, cascade, env) <==> forall m :: m in unloaded ==> ComesBack(env, m)
  {}

  lemma BroughtBack(a: Mods, n: Name, cascade: bool, env: Env, ok: bool, unloaded: seq<Name>, order: seq<Name>, b: Mods)
    requires n in a.rust && ReloadPermitted(a, n, cascade, env)
    requires UnloadDone(a, n, cascade, env, true, unloaded, order, RemoveAll(a, unloaded))
    requires Returned(a, env, unloaded, b) && (ok <==> forall m :: m in unloaded ==> ComesBack(env, m))
    ensures ReloadDone(a, n, cascade, env, ok, unloaded, b)
  {}

  /** The command was carried out. */
  ghost predicate Done(c: Command, a: Mods, down: seq<Name>, b: Mods) {
    match c
    case Load(n, env) => down == [] && LoadDone(a, n, env, b)
    case Unload(n, cascade, env) =>
      down == [] && exists ok, unloaded, order :: UnloadDone(a, n, cascade, env, ok, unloaded, order, b)
    case Reload(n, cascade, env) => exists ok :: ReloadDone(a, n, cascade, env, ok, down, b)
  }

  /** One command after the other. */
  ghost predicate AllDone(a: Mods, cmds: seq<Command>, moments: seq<Mods>, downs: seq<seq<Name>>, b: Mods)
    requires |moments| == |downs| == |cmds|
  {
    && (if cmds == [] then b == a else moments[0] == a)
    && forall i :: 0 <= i < |cmds| ==> Done(cmds[i], moments[i], downs[i], Next(moments, i, b))
  }

  /** The state that comes after the `i`-th one. */
  function Next(moments: seq<Mods>, i: nat, last: Mods): Mods {
    if i + 1 < |moments| then moments[i + 1] else last
  }

  lemma DoneGrows(a: Mods, cmds: seq<Command>, moments: seq<Mods>, downs: seq<seq<Name>>, c: Command, s: Mods,
                  down: seq<Name>, b: Mods)
    requires |moments| == |downs| == |cmds| && AllDone(a, cmds, moments, downs, s) && Done(c, s, down, b)
    ensures AllDone(a, cmds + [c], moments + [s], downs + [down], b)
  {
    var more, ms, ds := cmds + [c], moments + [s], downs + [down];
    forall i | 0 <= i < |more|
      ensures Done(more[i], ms[i], ds[i], Next(ms, i, b))
    {
      if i < |cmds| {
        assert Done(cmds[i], moments[i], downs[i], Next(moments, i, s)) && Next(ms, i, b) == Next(moments, i, s);
      }
    }
  }

  predicate MarkedSafe(env: Env, m: Name) {
    m in env.disk && env.disk[m].reloadSafe
  }

  predicate ComesBack(env: Env, m: Name) {
    env.manifestOk(m) && env.load(m).Loaded?
  }

  predicate ComesUp(env: Env, m: Name) {
    env.manifestOk(m) && !env.load(m).LoadFails?
  }

  /** What the `i`-th mod that went down names in its manifest by now is loaded when its turn comes. */
  ghost predicate Finds(s: Mods, env: Env, down: seq<Name>, i: nat)
    requires i < |down|
  {
    down[i] in env.disk && forall d :: d in env.disk[down[i]].deps ==> d in All(RemoveAll(s, down[..i + 1]))
  }

  /** Bringing back stops at the first mod that does not come back; so far every one found what it names. */
  ghost predicate SafeReturn(s: Mods, env: Env, down: seq<Name>) {
    forall i :: 0 <= i < |down| && Tried(env, down, i) ==> Finds(s, env, down, i)
  }

  ghost predicate Tried(env: Env, down: seq<Name>, i: nat)
    requires i < |down|
  {
    ComesUp(env, down[i]) && forall k :: i < k < |down| ==> ComesBack(env, down[k])
  }

  ghost predicate FindFrom(s: Mods, env: Env, down: seq<Name>, i: nat) {
    forall k :: i <= k < |down| ==> Finds(s, env, down, k)
  }

  ghost predicate AllReturnSafely(cmds: seq<Command>, moments: seq<Mods>, downs: seq<seq<Name>>)
    requires |moments| == |downs| == |cmds|
  {
    forall i :: 0 <= i < |cmds| ==> SafeReturn(moments[i], cmds[i].env, downs[i])
  }

  /** No reload finds a manifest that has been edited since its mod was loaded. */
  ghost predicate AllUnedited(cmds: seq<Command>, moments: seq<Mods>)
    requires |moments| == |cmds|
  {
    forall i :: 0 <= i < |cmds| && cmds[i].Reload? ==> Unchanged(moments[i], cmds[i].env)
  }

  lemma UneditedGrows(cmds: seq<Command>, moments: seq<Mods>, c: Command, s: Mods)
    requires |moments| == |cmds|
    ensures AllUnedited(cmds + [c], moments + [s]) <==>
            AllUnedited(cmds, moments) && (c.Reload? ==> Unchanged(s, c.env))
  {
    var more, ms := cmds + [c], moments + [s];
    assert forall i :: 0 <= i < |cmds| ==> more[i] == cmds[i] && ms[i] == moments[i];
    assert more[|cmds|] == c && ms[|cmds|] == s;
  }

  lemma ReturnGrows(cmds: seq<Command>, moments: seq<Mods>, downs: seq<seq<Name>>, c: Command, s: Mods, down: seq<Name>)
    requires |moments| == |downs| == |cmds|
    ensures AllReturnSafely(cmds + [c], moments + [s], downs + [down]) <==>
            AllReturnSafely(cmds, moments, downs) && SafeReturn(s, c.env, down)
  {
    var more, ms, ds := cmds + [c], moments + [s], downs + [down];
    assert forall i :: 0 <= i < |cmds| ==> more[i] == cmds[i] && ms[i] == moments[i] && ds[i] == downs[i];
    assert more[|cmds|] == c && ms[|cmds|] == s && ds[|cmds|] == down;
  }

  /** Once a mod has not come back, those below it are not tried. */
  lemma OnlyThese(s: Mods, env: Env, down: seq<Name>, i: nat)
    requires i < |down| && !ComesBack(env, down[i]) && forall k :: i < k < |down| ==> ComesBack(env, down[k])
    ensures SafeReturn(s, env, down) <==>
            FindFrom(s, env, down, i + 1) && (ComesUp(env, down[i]) ==> Finds(s, env, down, i))
  {
    assert forall k :: 0 <= k < i ==> !Tried(env, down, k);
    assert forall k :: i < k < |down| ==> Tried(env, down, k);
    assert Tried(env, down, i) <==> ComesUp(env, down[i]);
  }

  lemma AllOfThem(s: Mods, env: Env, down: seq<Name>)
    requires forall k :: 0 <= k < |down| ==> ComesBack(env, down[k])
    ensures SafeReturn(s, env, down) <==> FindFrom(s, env, down, 0)
  {
    assert forall k :: 0 <= k < |down| ==> Tried(env, down, k);
  }

  /** Manifests that nobody edited bring back what was there. */
  lemma UneditedReturns(s: Mods, c: Command, down: seq<Name>)
    requires Safe(s) && (down != [] ==> GoodOrder(s, c.name, down)) && forall m :: m in down ==> m in s.rust
    requires c.Reload? ==> Unchanged(s, c.env)
    requires (down != [] ==> c.Reload?) && forall m :: m in down ==> m in c.env.disk
    ensures SafeReturn(s, c.env, down)
  {
    forall i | 0 <= i < |down|
      ensures Finds(s, c.env, down, i)
    {
      assert down[i] in down;
      NextFindsItsDependencies(s, c.name, down, i);
    }
  }

  /** The target and everything that needs it are ours, are marked for it, go down and come back. */
  ghost predicate ReloadGoes(s: Mods, n: Name, cascade: bool, env: Env) {
    && n in s.rust
    && (forall m :: Dependent(All(s), m, n) && m != n ==> cascade && m in s.rust)
    && (forall m :: m == n || Dependent(All(s), m, n) ==> MarkedSafe(env, m) && env.unloadOk(m) && ComesBack(env, m))
  }

  /** Only mods of `names` are missing or changed. */
  ghost predicate Shrunk(s: Mods, names: seq<Name>, t: Mods) {
    && t.foreign == s.foreign && t.rust.Keys <= s.rust.Keys
    && forall m :: m in s.rust && m !in names ==> m in t.rust && t.rust[m] == s.rust[m]
  }

  ghost predicate Good(s: Mods, env: Env, n: Name, order: seq<Name>) {
    Safe(s) && Unchanged(s, env) && GoodOrder(s, n, order)
  }

  /** No manifest of a mod of ours has been edited since it was loaded. */
  ghost predicate Unchanged(s: Mods, env: Env) {
    forall m :: m in s.rust && m in env.disk ==> env.disk[m].deps == s.rust[m]
  }

  lemma RemovedIsShrunk(s: Mods, names: seq<Name>)
    ensures Shrunk(s, names, RemoveAll(s, names)) && RemoveAll(s, names[..0]) == s
  {}

  lemma OneMoreBack(s: Mods, order: seq<Name>, i: nat)
    requires NoDuplicates(order) && i < |order| && forall m :: m in order ==> m in s.rust
    ensures order[i] in order && order[i] !in RemoveAll(s, order[..i + 1]).rust
    ensures RemoveAll(s, order[..i]).rust.Keys == RemoveAll(s, order[..i + 1]).rust.Keys + {order[i]}
  {
    assert order[..i + 1] == order[..i] + [order[i]] && order[i] in order;
  }

  /** Coming back in the opposite order, a mod finds everything it depends on loaded again. */
  lemma NextFindsItsDependencies(s: Mods, n: Name, order: seq<Name>, i: nat)
    requires Safe(s) && i < |order| && GoodOrder(s, n, order) && forall m :: m in order ==> m in s.rust
    ensures var t := RemoveAll(s, order[..i + 1]);
            && (forall d :: d in s.rust[order[i]] ==> d in All(t))
            && order[i] in s.rust && Add(t, order[i], s.rust[order[i]]) == RemoveAll(s, order[..i])
  {
    var m := order[i];
    assert m in order;
    assert order[..i + 1] == order[..i] + [m] && m !in order[..i];
    forall d | d in s.rust[m]
      ensures d in All(RemoveAll(s, order[..i + 1]))
    {
      assert Lists(All(s), m, d);
      assert forall k :: 0 <= k <= i ==> order[k] != d;
    }
  }
}
