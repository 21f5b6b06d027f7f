/** What a load or an unloading comes to, and exactly when something is left behind. */
module LoaderOutcomes {
  import opened Machine
  import opened Ownership
  import opened Bus
  import opened Services
  import opened LaneBooks
  import opened LoaderState
  import opened LoaderSteps
  import opened LoaderLifecycle
  import opened LoaderPurge
  import opened LoaderPrograms
  import opened LoaderEffects

  // ---------------------------------------------------------------- outcomes as functions

  /** Loading a mod whose entry point only touches tables. */
  ghost predicate LoadedTo(script: Script, a: State, mod: nat, name: nat, compatible: bool, displaces: bool, b: State)
  {
    a.budget > 0 && AllPlain(script(a.calls).prog) ==>
      LoadEnds(PlainCall(script, Born(a, mod, name), Owner(mod, a.nextBorn), Lifecycle(name)), b,
               mod, script(a.calls).answer && compatible, displaces, !HarmlessEntry(script, a, mod, name))
  }

  /** A mod that has nothing to do with lanes agrees to go, and only touches tables before it does. */
  ghost predicate GoesQuietly(script: Script, a: State, name: nat) {
    && a.budget > 0 && IsListed(a, name) && NoLaneOf(a, a.listed[name])
    && AllPlain(script(a.calls).prog) && PublishesNoLane(script(a.calls).prog) && script(a.calls).answer
  }

  ghost predicate UnloadedTo(script: Script, a: State, name: nat, b: State)
    requires GoesQuietly(script, a, name)
  {
    exists purged ::
      && Purged(PlainCall(script, a, Bearer(a, name), Lifecycle(name)), purged, a.listed[name])
      && Erased(purged, b, name, Disturbed(a, purged, name))
  }

  /** Enabling a mod that agrees and only touches tables. */
  ghost predicate StartedTo(script: Script, a: State, name: nat, b: State) {
    a.budget > 0 && IsAt(a, name, Disabled) && script(a.calls).answer && AllPlain(script(a.calls).prog) ==>
      && a.listed[name] in PlainCall(script, a, Bearer(a, name), Ordinary).mods
      && b == InPhase(PlainCall(script, a, Bearer(a, name), Ordinary), a.listed[name], Enabled)
  }

  /** A disabled mod goes, and the one that is loaded in its place is enabled. */
  ghost predicate Reloads(script: Script, c: Command, a: State, gone: State, loaded: State, b: State)
    requires c.Reload? && GoesQuietly(script, a, c.name)
  {
    && UnloadedTo(script, a, c.name, gone)
    && if Refuses(gone, c.mod, c.opens) then b == gone
       else
         && LoadedTo(script, gone, c.mod, c.name, c.compatible, c.displaces, loaded)
         && if script(gone.calls).answer && c.compatible then StartedTo(script, loaded, c.name, b) else b == loaded
  }

  lemma LoadIsLoadedTo(script: Script, a: State, mod: nat, name: nat, compatible: bool, displaces: bool, ok: bool,
                       moments: seq<State>, before: State, b: State)
    requires LoadRuns(script, a, mod, name, compatible, displaces, ok, moments, before, b)
    ensures LoadedTo(script, a, mod, name, compatible, displaces, b)
  {
    if AllPlain(script(a.calls).prog) {
      CalledPlain(script, Born(a, mod, name), Owner(mod, a.nextBorn), Lifecycle(name), moments, before);
    }
  }

  lemma UnloadIsUnloadedTo(script: Script, a: State, name: nat, r: Unloading, moments: seq<State>, asked: State,
                           purged: State, b: State)
    requires UnloadRuns(script, a, name, true, r, moments, asked, purged, b) && GoesQuietly(script, a, name)
    ensures r == Unloaded && UnloadedTo(script, a, name, b)
  {
    var o := Bearer(a, name);
    CalledPlain(script, a, o, Lifecycle(name), moments, asked);
    LanesStayAll(Begun(Deeper(a), o, Lifecycle(name)), o, script(a.calls).prog);
    assert NoLaneOf(asked, a.listed[name]);
  }

  lemma SwitchIsStartedTo(script: Script, a: State, name: nat, ok: bool, moments: seq<State>, before: State, b: State)
    requires SwitchRuns(script, a, name, Enabled, ok, moments, before, b)
    ensures StartedTo(script, a, name, b)
  {
    if AllPlain(script(a.calls).prog) {
      CalledPlain(script, a, Bearer(a, name), Ordinary, moments, before);
    }
  }

  // ---------------------------------------------------------------- what is left behind

  /**
   * A load that fails leaves the loader holding entries of a mod that is gone if and only if the entry
   * point, being a program on the tables, got something registered that it did not withdraw itself.
   */
  lemma FailedLoadLeaksIff(script: Script, a: State, mod: nat, name: nat, compatible: bool, displaces: bool,
                           moments: seq<State>, before: State, b: State)
    requires Good(a) && !a.leaked && a.budget > 0 && !Refuses(a, mod, true) && AllPlain(script(a.calls).prog)
    requires LoadRuns(script, a, mod, name, compatible, displaces, false, moments, before, b)
    ensures b.leaked <==> !HarmlessEntry(script, a, mod, name)
    ensures b.leaked ==> !Clean(b)
  {
    CalledPlain(script, Born(a, mod, name), Owner(mod, a.nextBorn), Lifecycle(name), moments, before);
    HarmlessLeavesNothing(script, a, mod, name, moments, before);
    if Clean(b) { NothingOfNobody(b, mod); }
  }

  /** An entry point that registers nothing is harmless. */
  lemma FailedLoadIsClean(script: Script, a: State, mod: nat, name: nat)
    requires Good(a) && !a.leaked && a.budget > 0 && mod !in a.mods && AllPlain(script(a.calls).prog)
    requires forall op :: op in script(a.calls).prog ==> !Registers(op)
    ensures HarmlessEntry(script, a, mod, name)
  {
    GoodIs(a);
    var o := Owner(mod, a.nextBorn);
    var begun := Begun(Deeper(Born(a, mod, name)), o, Lifecycle(name));
    NothingOfNobody(a, mod);
    assert NothingOf(begun, mod);
    NoRegistrationNothingLeft(begun, o, script(a.calls).prog);
    NothingLeftIff(begun, o, script(a.calls).prog);
  }

  /** An attempt to unload that came to asking the mod, or did not. */
  lemma TriedToUnload(script: Script, a: State, name: nat, freed: bool, r: Unloading, moments: seq<State>, asked: State,
                      purged: State, b: State)
    requires if r == NotLoaded then !IsListed(a, name) && b == a
             else if r == Busy then IsListed(a, name) && !NoLanes(a.lanes, a.listed[name]) && b == a
             else UnloadRuns(script, a, name, freed, r, moments, asked, purged, b)
    ensures UnloadTried(script, a, name, freed, r == Unloaded, b)
    ensures freed && GoesQuietly(script, a, name) ==> r == Unloaded && UnloadedTo(script, a, name, b)
  {
    if freed && GoesQuietly(script, a, name) {
      UnloadIsUnloadedTo(script, a, name, r, moments, asked, purged, b);
    }
  }

  // How the attempts are put together.

  lemma HasLoaded(script: Script, a: State, mod: nat, name: nat, opens: bool, compatible: bool, displaces: bool,
                  ok: bool, moments: seq<State>, before: State, b: State)
    requires if Refuses(a, mod, opens) then !ok && b == a
             else LoadRuns(script, a, mod, name, compatible, displaces, ok, moments, before, b)
    ensures LoadTried(script, a, mod, name, opens, compatible, displaces, ok, b)
    ensures !Refuses(a, mod, opens) ==> ok == (script(a.calls).answer && compatible)
    ensures ok ==> Announced(a, b, name)
    ensures ok && (displaces || name !in a.listed) && OnlyOnce(a, b, name) ==>
              IsAt(b, name, Disabled) && Bearer(b, name) == Owner(mod, a.nextBorn)
  {
    if ok { LoadedAtFirst(script, a, mod, name, compatible, displaces, moments, before, b); }
  }

  lemma BroughtUp(script: Script, a: State, mod: nat, name: nat, opens: bool, compatible: bool, displaces: bool,
                  freed: bool, up: bool, mid: State, ok: bool, b: State)
    requires SameDepths(a, mid) && LoadTried(script, a, mod, name, opens, compatible, displaces, up, mid)
    requires if up then StartTried(script, mid, name, freed, ok, b) else !ok && b == mid
    ensures BringUpTried(script, a, mod, name, opens, compatible, displaces, freed, ok, b)
  {}

  lemma SwitchThenUnload(script: Script, a: State, name: nat, freed: bool, ok: bool, mid: State, gone: bool, b: State)
    requires SameDepths(a, mid) && SwitchTried(script, a, name, Disabled, Enabled, ok, mid)
    requires if ok then b == mid else UnloadTried(script, mid, name, freed, gone, b)
    ensures StartTried(script, a, name, freed, ok, b) && StartedTo(script, a, name, b)
  {
    if ok {
      assert SwitchTried(script, a, name, Disabled, Enabled, ok, mid);
      var moments, before :| SwitchRuns(script, a, name, Enabled, ok, moments, before, mid);
      SwitchIsStartedTo(script, a, name, ok, moments, before, mid);
    }
  }

  lemma TakenDownAfter(script: Script, a: State, name: nat, freed: bool, agreed: bool, mid: State, ok: bool, b: State)
    requires SameDepths(a, mid) && IsListed(a, name)
    requires if IsAt(a, name, Enabled) then SwitchTried(script, a, name, Enabled, Phase.Disabled, agreed, mid)
             else agreed && mid == a
    requires if agreed then UnloadTried(script, mid, name, freed, ok, b) else !ok && b == mid
    ensures TakeDownTried(script, a, name, freed, ok, b)
    ensures freed && IsAt(a, name, Disabled) && GoesQuietly(script, a, name) ==> ok && UnloadedTo(script, a, name, b)
  {
    if freed && IsAt(a, name, Disabled) && GoesQuietly(script, a, name) { QuietlyTried(script, a, name, ok, b); }
  }

  lemma BroughtBack(script: Script, a: State, c: Command, gone: bool, mid: State, ok: bool, b: State)
    requires c.Reload? && a.budget > 0
    requires SameDepths(a, mid) && TakeDownTried(script, a, c.name, c.freed, gone, mid)
    requires if gone then BringUpTried(script, mid, c.mod, c.name, c.opens, c.compatible, c.displaces, c.freed, ok, b)
             else b == mid
    ensures CommandEffect(script, c, a, b)
  {
    assert ReloadTried(script, a, c.name, c.freed, c.mod, c.opens, c.compatible, c.displaces, b);
  }

  lemma QuietlyTried(script: Script, a: State, name: nat, ok: bool, b: State)
    requires GoesQuietly(script, a, name) && UnloadTried(script, a, name, true, ok, b)
    ensures ok && UnloadedTo(script, a, name, b)
  {
    var r, moments, asked, purged :|
      UnloadRuns(script, a, name, true, r, moments, asked, purged, b) && (ok <==> r == Unloaded);
    UnloadIsUnloadedTo(script, a, name, r, moments, asked, purged, b);
  }

  lemma AcceptedIsListed(s: State, b: State, mod: nat, displaces: bool, slip: bool)
    requires LoadEnds(s, b, mod, true, displaces, slip) && (displaces || s.mods[mod].name !in s.listed)
    ensures var name := s.mods[mod].name;
            IsAt(b, name, Disabled) && Bearer(b, name) == Owner(mod, s.mods[mod].born)
  {}

  lemma DisplacedKeepsLog(s: State, t: State, mod: nat, bearer: nat)
    requires Displaced(s, t, mod, bearer)
    ensures s.log <= t.log
  {
    assert s.log <= Gone(s, bearer, !NothingOf(s, bearer), true).log;
  }

  lemma GoesKeepsLog(s: State, t: State, mod: nat, slip: bool)
    requires Goes(s, t, mod, slip)
    ensures s.log <= t.log
  {}

  lemma EndsKeepLog(s: State, b: State, mod: nat, ok: bool, displaces: bool, slip: bool)
    requires LoadEnds(s, b, mod, ok, displaces, slip)
    ensures s.log <= b.log
  {
    var name := s.mods[mod].name;
    if ok && name in s.listed && displaces {
      DisplacedKeepsLog(s, b, mod, s.listed[name]);
    } else if !ok || name in s.listed {
      GoesKeepsLog(s, b, mod, slip);
    }
  }

  lemma LoadedQuietly(born: State, o: Owner, name: nat, before: State, b: State, later: State)
    requires Evolves(Begun(born, o, Lifecycle(name)), before) && before.log <= b.log <= later.log
    requires OnlyOnce(born, later, name)
    ensures Quiet(b, later, name) && (name !in born.listed ==> name !in before.listed)
  {
    KindsGrow(before.log, b.log);
    KindsGrow(b.log, later.log);
    AnnouncedByEntry(born, before, o, name);
    if name !in born.listed {
      StillUnlisted(Begun(born, o, Lifecycle(name)), before, name);
    }
  }

  /** A mod that was loaded, with nobody else using its name, is listed under it. */
  lemma LoadedAlone(script: Script, a: State, mod: nat, name: nat, compatible: bool, displaces: bool,
                    moments: seq<State>, before: State, b: State, later: State)
    requires displaces || name !in a.listed
    requires LoadRuns(script, a, mod, name, compatible, displaces, true, moments, before, b)
    requires b.log <= later.log && OnlyOnce(a, later, name)
    ensures IsAt(b, name, Disabled) && Bearer(b, name) == Owner(mod, a.nextBorn) && Quiet(b, later, name)
  {
    var born := Born(a, mod, name);
    assert born.log == a.log && born.listed == a.listed;
    var o := Owner(mod, a.nextBorn);
    assert Evolves(Begun(born, o, Lifecycle(name)), before);
    var slip := !HarmlessEntry(script, a, mod, name);
    EndsKeepLog(before, b, mod, true, displaces, slip);
    LoadedQuietly(born, o, name, before, b, later);
    AcceptedIsListed(before, b, mod, displaces, slip);
  }

  /** The same at once: the name has been used for it, and nobody else may have used it. */
  lemma LoadedAtFirst(script: Script, a: State, mod: nat, name: nat, compatible: bool, displaces: bool,
                      moments: seq<State>, before: State, b: State)
    requires LoadRuns(script, a, mod, name, compatible, displaces, true, moments, before, b)
    ensures Announced(a, b, name)
    ensures (displaces || name !in a.listed) && OnlyOnce(a, b, name) ==>
              IsAt(b, name, Disabled) && Bearer(b, name) == Owner(mod, a.nextBorn)
  {
    AnnouncedByEntry(Born(a, mod, name), before, Owner(mod, a.nextBorn), name);
    EndsKeepLog(before, b, mod, true, displaces, !HarmlessEntry(script, a, mod, name));
    KindsGrow(before.log, b.log);
    if (displaces || name !in a.listed) && OnlyOnce(a, b, name) {
      LoadedAlone(script, a, mod, name, compatible, displaces, moments, before, b, b);
    }
  }

  /** Nobody has used the name before `b`, nor after. */
  lemma OnceAtFirst(a: State, b: State, later: State, name: nat)
    requires Announced(a, b, name) && b.log <= later.log && OnlyOnce(a, later, name)
    ensures OnlyOnce(a, b, name) && Quiet(b, later, name)
  {
    KindsGrow(b.log, later.log);
  }

  /**
   * Unloading a mod leaves nothing of it behind, if the mod registers nothing while it is being purged,
   * no release into it was due, and nobody else loads or unloads under its name meanwhile.
   */
  lemma UnloadLeavesNothing(script: Script, a: State, asked: State, purged: State, name: nat)
    requires Good(a) && Good(purged) && IsListed(a, name)
    requires Evolves(Begun(a, Bearer(a, name), Lifecycle(name)), asked) && Purges(script, asked, purged, a.listed[name])
    requires !purged.rogue && !Disturbed(a, purged, name)
    ensures IsListed(purged, name) && Bearer(purged, name) == Bearer(a, name) && NothingOf(purged, a.listed[name])
  {
    var begun := Begun(a, Bearer(a, name), Lifecycle(name));
    EvolvesTrans(begun, asked, purged);
    AnnouncedByEntry(a, purged, Bearer(a, name), name);
    assert Good(begun) by { BeginStep(a, Bearer(a, name), Lifecycle(name)); }
    StillThere(begun, purged, name);
  }

  /** So when something of the mod that goes is left, there is a reason. */
  lemma UnloadIsExcused(script: Script, a: State, asked: State, purged: State, name: nat)
    requires Good(a) && Good(purged) && IsListed(a, name) && name in purged.listed
    requires Evolves(Begun(a, Bearer(a, name), Lifecycle(name)), asked) && Purges(script, asked, purged, a.listed[name])
    ensures Excused(purged, purged.listed[name], Disturbed(a, purged, name))
  {
    if !purged.rogue && !Disturbed(a, purged, name) {
      UnloadLeavesNothing(script, a, asked, purged, name);
    }
  }

  /** And a load whose entry point was harmless leaves nothing behind when it fails. */
  lemma LoadIsExcused(script: Script, a: State, mod: nat, name: nat, moments: seq<State>, before: State)
    requires Good(a) && a.budget > 0 && mod !in a.mods && Grows(a, before)
    requires Called(script, Born(a, mod, name), Owner(mod, a.nextBorn), Lifecycle(name), moments, before)
    ensures Excused(before, mod, !HarmlessEntry(script, a, mod, name))
  {
    GoodIs(a);
    if a.leaked {
      assert a.rogue || a.slips;
    } else if HarmlessEntry(script, a, mod, name) {
      HarmlessLeavesNothing(script, a, mod, name, moments, before);
    }
  }

  lemma HarmlessLeavesNothing(script: Script, a: State, mod: nat, name: nat, moments: seq<State>, before: State)
    requires Good(a) && !a.leaked && a.budget > 0 && mod !in a.mods && AllPlain(script(a.calls).prog)
    requires Called(script, Born(a, mod, name), Owner(mod, a.nextBorn), Lifecycle(name), moments, before)
    ensures NothingOf(before, mod) <==> HarmlessEntry(script, a, mod, name)
  {
    GoodIs(a);
    var o, born := Owner(mod, a.nextBorn), Born(a, mod, name);
    CalledPlain(script, born, o, Lifecycle(name), moments, before);
    NothingOfNobody(a, mod);
    var begun := Begun(Deeper(born), o, Lifecycle(name));
    assert NothingOf(begun, mod);
    NothingLeftIff(begun, o, script(a.calls).prog);
  }

  /**
   * A mod that has nothing to do with lanes and goes quietly leaves something behind if and only if releases
   * into it were due when it was asked to go.
   */
  lemma QuietUnloadLeaksIff(script: Script, a: State, name: nat, b: State)
    requires !a.leaked && GoesQuietly(script, a, name) && UnloadedTo(script, a, name, b)
    ensures b.leaked <==> !NoDues(a.dues, a.listed[name])
    ensures b.leaked ==> !Clean(b)
  {
    var o, prog := Bearer(a, name), script(a.calls).prog;
    var begun := Begun(Deeper(a), o, Lifecycle(name));
    StackStaysAll(begun, o, prog);
    LanesStayAll(begun, o, prog);
    var asked := PlainCall(script, a, o, Lifecycle(name));
    var purged :| Purged(asked, purged, o.mod) && Erased(purged, b, name, Disturbed(a, purged, name));
    assert Goes(purged, b, o.mod, Disturbed(a, purged, name));
    OnlyDuesStay(asked, purged, o.mod);
    if Clean(b) { NothingOfNobody(b, o.mod); }
  }

  lemma OnlyDuesStay(a: State, b: State, mod: nat)
    requires Purged(a, b, mod) && NoLaneOf(a, mod)
    ensures NothingOf(b, mod) <==> NoDues(a.dues, mod)
  {
    assert InNoTable(b, mod);
  }

  // ---------------------------------------------------------------- a mod that reloads itself

  /** The state in which such a mod has gone. */
  ghost function QuietlyGone(script: Script, a: State, name: nat): (gone: State)
    requires GoesQuietly(script, a, name)
    ensures gone.mods == a.mods - {a.listed[name]} && gone.budget == a.budget && gone.dying == a.dying
    ensures gone.dues == a.dues && gone.calls == a.calls + 1
    ensures gone.listed == Unlisted(a.listed, a.mods[a.listed[name]].name, a.listed[name])
  {
    StackStaysAll(Begun(Deeper(a), Bearer(a, name), Lifecycle(name)), Bearer(a, name), script(a.calls).prog);
    var mod, purged := a.listed[name], PurgedOf(PlainCall(script, a, Bearer(a, name), Lifecycle(name)), a.listed[name]);
    Gone(purged, mod, !NothingOf(purged, mod), Disturbed(a, purged, name))
  }

  lemma UnloadedToIs(script: Script, a: State, name: nat, b: State)
    requires GoesQuietly(script, a, name) && UnloadedTo(script, a, name, b)
    ensures b == QuietlyGone(script, a, name)
  {
    var o, mod := Bearer(a, name), a.listed[name];
    StackStaysAll(Begun(Deeper(a), o, Lifecycle(name)), o, script(a.calls).prog);
    var asked := PlainCall(script, a, o, Lifecycle(name));
    var purged :| Purged(asked, purged, mod) && Erased(purged, b, name, Disturbed(a, purged, name));
    PurgedIsOne(asked, purged, mod);
    assert Goes(purged, b, mod, Disturbed(a, purged, name));
  }

  /** The entry point of the successor begins. */
  ghost function EntryBegins(gone: State, mod: nat, name: nat): State
    requires gone.budget > 0
  {
    Begun(Deeper(Born(gone, mod, name)), Owner(mod, gone.nextBorn), Lifecycle(name))
  }

  /** The state in which the successor is loaded. */
  ghost function QuietlyLoaded(script: Script, gone: State, mod: nat, name: nat): (loaded: State)
    requires gone.budget > 0
    ensures loaded.mods == gone.mods[mod := ModState(gone.nextBorn, name, Disabled)] && loaded.dues == gone.dues
    ensures loaded.listed == gone.listed[name := mod] && loaded.budget == gone.budget && loaded.calls == gone.calls + 1
    ensures loaded.leaked == gone.leaked
  {
    var o := Owner(mod, gone.nextBorn);
    StackStaysAll(EntryBegins(gone, mod, name), o, script(gone.calls).prog);
    Admitted(PlainCall(script, Born(gone, mod, name), o, Lifecycle(name)), mod)
  }

  /** Its `on_enable` begins. */
  ghost function EnableBegins(loaded: State, o: Owner): State
    requires loaded.budget > 0
  {
    Begun(Deeper(loaded), o, Ordinary)
  }

  /**
   * From `s` on the mod that bears the name goes, and its successor gets `k` registered, by its entry point or
   * its `on_enable`, and does not withdraw it.
   */
  ghost predicate SuccessorLeaves(script: Script, s: State, name: nat, mod: nat, k: Key)
    requires GoesQuietly(script, s, name)
  {
    var gone := QuietlyGone(script, s, name);
    var loaded := QuietlyLoaded(script, gone, mod, name);
    var o, entry, enable := Owner(mod, gone.nextBorn), script(gone.calls).prog, script(loaded.calls).prog;
    || (LeavesKey(EntryBegins(gone, mod, name), o, entry, k) && !WithdrawsIn(enable, k))
    || LeavesKey(EnableBegins(loaded, o), o, enable, k)
  }

  /** The callbacks from number `calls` on: `on_unload` of the mod that goes, then what its successor does. */
  ghost predicate QuietReload(script: Script, calls: nat) {
    && AllPlain(script(calls).prog) && PublishesNoLane(script(calls).prog) && script(calls).answer
    && AllPlain(script(calls + 1).prog) && script(calls + 1).answer
    && AllPlain(script(calls + 2).prog) && script(calls + 2).answer
  }

  /** A disabled mod that has nothing to do with lanes, and room for another one at address `mod`. */
  ghost predicate CanReload(s: State, name: nat, mod: nat) {
    && s.budget > 0 && IsAt(s, name, Disabled) && NoLaneOf(s, s.listed[name])
    && mod != 0 && mod !in s.mods && mod !in s.dying
  }

  /** Nothing is left of a mod that lived there before. */
  ghost predicate Prepared(s: State, name: nat, mod: nat) {
    CanReload(s, name, mod) && s.mods[s.listed[name]].name == name && NothingOf(s, mod)
  }

  lemma FirstGoes(script: Script, a: State, name: nat, mod: nat)
    requires Prepared(a, name, mod) && GoesQuietly(script, a, name)
    ensures var gone := QuietlyGone(script, a, name);
            name !in gone.listed && NothingOf(gone, mod) && NoLaneOf(gone, a.listed[name])
  {
    var o, prog := Bearer(a, name), script(a.calls).prog;
    var begun := Begun(Deeper(a), o, Lifecycle(name));
    StackStaysAll(begun, o, prog);
    LanesStayAll(begun, o, prog);
    OthersGainNothingAll(begun, o, prog, mod);
  }

  /** The second is there, and has exactly what its entry point left. */
  lemma SecondComes(script: Script, gone: State, mod: nat, name: nat, first: nat)
    requires gone.budget > 0 && NothingOf(gone, mod) && mod != first && NoLaneOf(gone, first)
    requires AllPlain(script(gone.calls).prog)
    ensures var loaded := QuietlyLoaded(script, gone, mod, name);
            && NoLaneOf(loaded, first)
            && forall k :: Has(loaded, mod, k) <==>
                 LeavesKey(EntryBegins(gone, mod, name), Owner(mod, gone.nextBorn), script(gone.calls).prog, k)
  {
    var o, begun, prog := Owner(mod, gone.nextBorn), EntryBegins(gone, mod, name), script(gone.calls).prog;
    NoLaneGained(begun, o, prog, first);
    NothingMeansNoKey(begun, mod);
    assert NothingOf(begun, mod);
    var loaded := QuietlyLoaded(script, gone, mod, name);
    forall k
      ensures Has(loaded, mod, k) <==> LeavesKey(begun, o, prog, k)
    {
      KeysLeft(begun, o, prog, k);
      SameHas(Exec(begun, o, prog), loaded, mod, k);
    }
  }

  lemma SameHas(a: State, b: State, mod: nat, k: Key)
    requires b.subs == a.subs && b.services == a.services && b.tasks == a.tasks && b.forms == a.forms
    requires b.lanes == a.lanes && b.leases == a.leases && b.dues == a.dues
    ensures Has(b, mod, k) <==> Has(a, mod, k)
  {}

  lemma {:induction false} NoLaneGained(s: State, self: Owner, prog: seq<Op>, mod: nat)
    requires mod != self.mod && NoLaneOf(s, mod)
    ensures NoLaneOf(Exec(s, self, prog), mod)
    decreases |prog|
  {
    if prog != [] {
      var n := |prog| - 1;
      NoLaneGained(s, self, prog[..n], mod);
      NoLaneGainedOnce(Exec(s, self, prog[..n]), self, prog[n], mod);
    }
  }

  lemma NoLaneGainedOnce(s: State, self: Owner, op: Op, mod: nat)
    requires mod != self.mod && NoLaneOf(s, mod)
    ensures NoLaneOf(After(s, self, op), mod)
  {
    ModsStay(s, self, op);
  }

  /** The second is enabled, and has what its entry point left and `on_enable` does not withdraw, and what that adds. */
  lemma SecondStarts(script: Script, loaded: State, name: nat, first: nat, b: State)
    requires loaded.budget > 0 && IsAt(loaded, name, Disabled)
    requires loaded.listed[name] != first && NoLaneOf(loaded, first)
    requires AllPlain(script(loaded.calls).prog) && script(loaded.calls).answer && StartedTo(script, loaded, name, b)
    ensures IsListed(b, name) && b.listed == loaded.listed && b.leaked == loaded.leaked && NoLaneOf(b, first)
    ensures b.mods.Keys == loaded.mods.Keys && b.dues == loaded.dues
    ensures var o, prog := Bearer(loaded, name), script(loaded.calls).prog;
            forall k :: Has(b, o.mod, k) <==>
              (Has(loaded, o.mod, k) && !WithdrawsIn(prog, k)) || LeavesKey(EnableBegins(loaded, o), o, prog, k)
  {
    var o, prog := Bearer(loaded, name), script(loaded.calls).prog;
    var begun := EnableBegins(loaded, o);
    StackStaysAll(begun, o, prog);
    NoLaneGained(begun, o, prog, first);
    forall k
      ensures Has(b, o.mod, k) <==> (Has(loaded, o.mod, k) && !WithdrawsIn(prog, k)) || LeavesKey(begun, o, prog, k)
    {
      SameHas(loaded, begun, o.mod, k);
      KeysThrough(begun, o, prog, k);
      SameHas(Exec(begun, o, prog), b, o.mod, k);
    }
  }

  /** What is there when the reload is over. */
  lemma ReloadedTo(script: Script, a: State, name: nat, mod: nat, b: State)
    requires !a.leaked && Prepared(a, name, mod) && QuietReload(script, a.calls) && GoesQuietly(script, a, name)
    requires StartedTo(script, QuietlyLoaded(script, QuietlyGone(script, a, name), mod, name), name, b)
    ensures IsListed(b, name) && b.listed[name] == mod && NoLaneOf(b, a.listed[name])
    ensures a.listed[name] !in b.mods && b.dues == a.dues
    ensures b.leaked == QuietlyGone(script, a, name).leaked
    ensures forall k :: Has(b, mod, k) <==> SuccessorLeaves(script, a, name, mod, k)
  {
    var gone, first := QuietlyGone(script, a, name), a.listed[name];
    FirstGoes(script, a, name, mod);
    SecondComes(script, gone, mod, name, first);
    SecondStarts(script, QuietlyLoaded(script, gone, mod, name), name, first, b);
  }

  /** The steps of the reload. */
  lemma ReloadsStepByStep(script: Script, c: Command, a: State, gone: State, loaded: State, b: State)
    requires c.Reload? && c.opens && c.compatible && !a.leaked && Prepared(a, c.name, c.mod)
    requires QuietReload(script, a.calls) && GoesQuietly(script, a, c.name) && Reloads(script, c, a, gone, loaded, b)
    ensures gone == QuietlyGone(script, a, c.name) && (gone.leaked <==> !NoDues(a.dues, a.listed[c.name]))
    ensures loaded == QuietlyLoaded(script, gone, c.mod, c.name) && StartedTo(script, loaded, c.name, b)
  {
    FirstGoes(script, a, c.name, c.mod);
    UnloadedToIs(script, a, c.name, gone);
    QuietUnloadLeaksIff(script, a, c.name, gone);
    SecondLoads(script, c, a, gone, loaded, b);
  }

  lemma SecondLoads(script: Script, c: Command, a: State, gone: State, loaded: State, b: State)
    requires c.Reload? && c.opens && c.compatible && QuietReload(script, a.calls) && GoesQuietly(script, a, c.name)
    requires Reloads(script, c, a, gone, loaded, b)
    requires gone.budget > 0 && gone.calls == a.calls + 1 && c.name !in gone.listed && !Refuses(gone, c.mod, true)
    ensures loaded == QuietlyLoaded(script, gone, c.mod, c.name) && StartedTo(script, loaded, c.name, b)
  {
    SecondIsLoaded(script, gone, c.mod, c.name, c.displaces, loaded);
  }

  lemma SecondIsLoaded(script: Script, gone: State, mod: nat, name: nat, displaces: bool, loaded: State)
    requires gone.budget > 0 && name !in gone.listed && AllPlain(script(gone.calls).prog) && script(gone.calls).answer
    requires LoadedTo(script, gone, mod, name, true, displaces, loaded)
    ensures loaded == QuietlyLoaded(script, gone, mod, name)
  {
    StackStaysAll(EntryBegins(gone, mod, name), Owner(mod, gone.nextBorn), script(gone.calls).prog);
  }

  /** The unloading that was under way purges the mod it began with, and drops the one that bears the name now. */
  lemma BearerDropped(script: Script, asked: State, first: nat, mod: nat, name: nat, purged: State, b: State,
                      slip: bool)
    requires IsListed(asked, name) && asked.listed[name] == mod && mod != first && NoLaneOf(asked, first)
    requires Purges(script, asked, purged, first) && Erased(purged, b, name, slip)
    ensures b.leaked <==> asked.leaked || exists k :: Has(asked, mod, k)
    ensures b.leaked && (asked.leaked ==> !NoDues(asked.dues, first) && first !in asked.mods) ==> !Clean(b)
  {
    assert Purged(asked, purged, first) && Goes(purged, b, mod, slip);
    NothingStays(asked, purged, first, mod);
    NothingMeansNoKey(asked, mod);
    if Clean(b) {
      NothingOfNobody(b, mod);
      if first !in asked.mods { NothingOfNobody(b, first); }
    }
  }

  lemma NothingStays(a: State, b: State, first: nat, mod: nat)
    requires Purged(a, b, first) && mod != first
    ensures NothingOf(b, mod) <==> NothingOf(a, mod)
  {
    NothingMeansNoKey(a, mod);
    NothingMeansNoKey(b, mod);
    forall k
      ensures Has(b, mod, k) <==> Has(a, mod, k)
    {
      KeyStays(a, b, first, mod, k);
    }
  }

  lemma KeyStays(a: State, b: State, first: nat, mod: nat, k: Key)
    requires Purged(a, b, first) && mod != first
    ensures Has(b, mod, k) <==> Has(a, mod, k)
  {}

  /** Where a program of table operations has come to. */
  ghost function Inside(a: State, name: nat, pre: seq<Op>): State
    requires a.budget > 0 && IsListed(a, name)
  {
    Exec(Begun(Deeper(a), Bearer(a, name), Lifecycle(name)), Bearer(a, name), pre)
  }

  /** The steps of an unloading that the mod agrees to. */
  lemma UnloadStepByStep(script: Script, a: State, name: nat, r: Unloading, moments: seq<State>, asked: State,
                         purged: State, b: State)
    requires UnloadRuns(script, a, name, true, r, moments, asked, purged, b) && script(a.calls).answer
    ensures IsListed(a, name) && a.budget > 0 && |moments| == |script(a.calls).prog| + 1
    ensures Trace(script, Bearer(a, name), script(a.calls).prog, moments)
    ensures moments[0] == Begun(Deeper(a), Bearer(a, name), Lifecycle(name))
    ensures asked == moments[|moments| - 1].(budget := a.budget)
    ensures Purges(script, asked, purged, a.listed[name]) && Erased(purged, b, name, Disturbed(a, purged, name))
  {
    CalledStepByStep(script, a, Bearer(a, name), Lifecycle(name), moments, asked);
  }

  lemma CalledStepByStep(script: Script, a: State, o: Owner, kind: Kind, moments: seq<State>, b: State)
    requires Called(script, a, o, kind, moments, b)
    ensures a.budget > 0 && |moments| == |script(a.calls).prog| + 1 && moments[0] == Begun(Deeper(a), o, kind)
    ensures b == moments[|moments| - 1].(budget := a.budget) && Trace(script, o, script(a.calls).prog, moments)
  {
    assert Trace(script, o, script(a.calls).prog, moments);
  }

  /**
   * An `on_unload` that ends by reloading its own mod: something is left behind if and only if releases into
   * the mod were due, or its successor gets something registered that it does not withdraw.
   */
  lemma ReloadedUnloadLeaksIff(script: Script, a: State, c: Command, pre: seq<Op>, r: Unloading, moments: seq<State>,
                               asked: State, purged: State, b: State)
    requires c.Reload? && c.freed && c.opens && c.compatible
    requires Good(a) && !a.leaked && a.budget > 1 && CanReload(a, c.name, c.mod)
    requires script(a.calls).prog == pre + [Do(c)] && script(a.calls).answer && AllPlain(pre) && PublishesNoLane(pre)
    requires QuietReload(script, a.calls + 1)
    requires UnloadRuns(script, a, c.name, true, r, moments, asked, purged, b)
    ensures var s := Inside(a, c.name, pre);
            && GoesQuietly(script, s, c.name)
            && (b.leaked <==> || !NoDues(a.dues, a.listed[c.name])
                              || exists k :: SuccessorLeaves(script, s, c.name, c.mod, k))
    ensures b.leaked ==> !Clean(b)
  {
    UnloadStepByStep(script, a, c.name, r, moments, asked, purged, b);
    var s, t := Inside(a, c.name, pre), moments[|pre| + 1];
    WellPrepared(a, c.name, c.mod);
    BeforeReload(script, a, c, pre);
    InsideReload(script, a, c, pre, moments);
    AfterReload(script, a.listed[c.name], c.mod, c.name, t, asked, purged, b, Disturbed(a, purged, c.name));
  }

  /** What is there when the program has ended. */
  lemma InsideReload(script: Script, a: State, c: Command, pre: seq<Op>, moments: seq<State>)
    requires c.Reload? && c.freed && c.opens && c.compatible && !a.leaked && a.budget > 1 && Prepared(a, c.name, c.mod)
    requires script(a.calls).prog == pre + [Do(c)] && AllPlain(pre) && PublishesNoLane(pre)
    requires QuietReload(script, a.calls + 1) && GoesQuietly(script, Inside(a, c.name, pre), c.name)
    requires Trace(script, Bearer(a, c.name), script(a.calls).prog, moments)
    requires moments[0] == Begun(Deeper(a), Bearer(a, c.name), Lifecycle(c.name))
    ensures var t := moments[|pre| + 1];
            && IsListed(t, c.name) && t.listed[c.name] == c.mod && NoLaneOf(t, a.listed[c.name])
            && a.listed[c.name] !in t.mods && t.dues == a.dues && (t.leaked <==> !NoDues(a.dues, a.listed[c.name]))
            && forall k :: Has(t, c.mod, k) <==> SuccessorLeaves(script, Inside(a, c.name, pre), c.name, c.mod, k)
  {
    var s, t := Inside(a, c.name, pre), moments[|pre| + 1];
    BeforeReload(script, a, c, pre);
    var gone, loaded := ReloadEntered(script, a, c, pre, moments);
    ReloadsStepByStep(script, c, s, gone, loaded, t);
    ReloadedTo(script, s, c.name, c.mod, t);
  }

  /** And what the unloading that goes on makes of it. */
  lemma AfterReload(script: Script, first: nat, mod: nat, name: nat, t: State, asked: State, purged: State, b: State,
                    slip: bool)
    requires IsListed(t, name) && t.listed[name] == mod && mod != first && NoLaneOf(t, first) && first !in t.mods
    requires asked == t.(budget := asked.budget) && (t.leaked ==> !NoDues(t.dues, first))
    requires Purges(script, asked, purged, first) && Erased(purged, b, name, slip)
    ensures b.leaked <==> t.leaked || exists k :: Has(t, mod, k)
    ensures b.leaked ==> !Clean(b)
  {
    BearerDropped(script, asked, first, mod, name, purged, b, slip);
    forall k
      ensures Has(asked, mod, k) <==> Has(t, mod, k)
    {
      SameHas(t, asked, mod, k);
    }
  }

  lemma WellPrepared(s: State, name: nat, mod: nat)
    requires Good(s) && !s.leaked && CanReload(s, name, mod)
    ensures Prepared(s, name, mod)
  {
    GoodIs(s);
    NothingOfNobody(s, mod);
  }

  /** When the program comes to the reload nothing has changed that matters. */
  lemma BeforeReload(script: Script, a: State, c: Command, pre: seq<Op>)
    requires !a.leaked && a.budget > 1 && c.Reload? && Prepared(a, c.name, c.mod)
    requires AllPlain(pre) && PublishesNoLane(pre) && QuietReload(script, a.calls + 1)
    ensures var s := Inside(a, c.name, pre);
            && Prepared(s, c.name, c.mod) && s.listed[c.name] == a.listed[c.name] && s.dues == a.dues && !s.leaked
            && s.calls == a.calls + 1 && GoesQuietly(script, s, c.name)
  {
    var o := Bearer(a, c.name);
    var begun := Begun(Deeper(a), o, Lifecycle(c.name));
    StackStaysAll(begun, o, pre);
    LanesStayAll(begun, o, pre);
    OthersGainNothingAll(begun, o, pre, c.mod);
  }

  lemma ReloadInside(script: Script, self: Owner, c: Command, s: State, t: State) returns (gone: State, loaded: State)
    requires c.Reload? && c.freed && GoesQuietly(script, s, c.name) && IsAt(s, c.name, Disabled)
    requires Effect(script, self, Do(c), s, t)
    ensures Reloads(script, c, s, gone, loaded, t)
  {
    assert CommandEffect(script, c, s, t);
    assert ReloadTried(script, s, c.name, c.freed, c.mod, c.opens, c.compatible, c.displaces, t);
    gone, loaded := TriedToReload(script, c, s, t);
  }

  lemma TriedToReload(script: Script, c: Command, s: State, t: State) returns (gone: State, loaded: State)
    requires c.Reload? && c.freed && GoesQuietly(script, s, c.name) && IsAt(s, c.name, Disabled)
    requires ReloadTried(script, s, c.name, true, c.mod, c.opens, c.compatible, c.displaces, t)
    ensures Reloads(script, c, s, gone, loaded, t)
  {
    var went, mid :|
      && SameDepths(s, mid) && TakeDownTried(script, s, c.name, true, went, mid)
      && if went then
           exists ok :: BringUpTried(script, mid, c.mod, c.name, c.opens, c.compatible, c.displaces, true, ok, t)
         else t == mid;
    assert UnloadTried(script, s, c.name, true, went, mid);
    QuietlyTried(script, s, c.name, went, mid);
    gone := mid;
    var ok :| BringUpTried(script, mid, c.mod, c.name, c.opens, c.compatible, c.displaces, true, ok, t);
    loaded := TriedToBringUp(script, c, mid, ok, t);
  }

  lemma TriedToBringUp(script: Script, c: Command, gone: State, ok: bool, t: State) returns (loaded: State)
    requires c.Reload?
    requires BringUpTried(script, gone, c.mod, c.name, c.opens, c.compatible, c.displaces, true, ok, t)
    ensures if Refuses(gone, c.mod, c.opens) then t == gone
            else
              && LoadedTo(script, gone, c.mod, c.name, c.compatible, c.displaces, loaded)
              && if script(gone.calls).answer && c.compatible then StartedTo(script, loaded, c.name, t) else t == loaded
  {
    var up, mid :|
      && SameDepths(gone, mid)
      && LoadTried(script, gone, c.mod, c.name, c.opens, c.compatible, c.displaces, up, mid)
      && if up then StartTried(script, mid, c.name, true, ok, t) else !ok && t == mid;
    loaded := mid;
    if !Refuses(gone, c.mod, c.opens) {
      assert LoadTried(script, gone, c.mod, c.name, c.opens, c.compatible, c.displaces, up, mid);
      var moments, before :| LoadRuns(script, gone, c.mod, c.name, c.compatible, c.displaces, up, moments, before, mid);
      LoadIsLoadedTo(script, gone, c.mod, c.name, c.compatible, c.displaces, up, moments, before, mid);
      if up { TriedToStart(script, mid, c.name, ok, t); }
    }
  }

  lemma TriedToStart(script: Script, a: State, name: nat, ok: bool, b: State)
    requires StartTried(script, a, name, true, ok, b)
    ensures StartedTo(script, a, name, b)
  {
    var mid :|
      && SameDepths(a, mid) && SwitchTried(script, a, name, Disabled, Enabled, ok, mid)
      && if ok then b == mid else exists gone :: UnloadTried(script, mid, name, true, gone, b);
    if IsAt(a, name, Disabled) {
      assert SwitchTried(script, a, name, Disabled, Enabled, ok, mid);
      var moments, before :| SwitchRuns(script, a, name, Enabled, ok, moments, before, mid);
      if ok { SwitchIsStartedTo(script, a, name, ok, moments, before, mid); }
    }
  }

  lemma ReloadEntered(script: Script, a: State, c: Command, pre: seq<Op>, moments: seq<State>)
    returns (gone: State, loaded: State)
    requires a.budget > 1 && c.Reload? && c.freed && IsListed(a, c.name)
    requires script(a.calls).prog == pre + [Do(c)] && AllPlain(pre) && PublishesNoLane(pre)
    requires var s := Inside(a, c.name, pre); GoesQuietly(script, s, c.name) && IsAt(s, c.name, Disabled)
    requires Trace(script, Bearer(a, c.name), script(a.calls).prog, moments)
    requires moments[0] == Begun(Deeper(a), Bearer(a, c.name), Lifecycle(c.name))
    ensures Reloads(script, c, Inside(a, c.name, pre), gone, loaded, moments[|pre| + 1])
  {
    var o, n := Bearer(a, c.name), |pre|;
    assert script(a.calls).prog[..n] == pre;
    TraceOfPlain(script, o, script(a.calls).prog, moments, n);
    PlainSoFar(script, a, o, Lifecycle(c.name), moments, n, Do(c));
    gone, loaded := ReloadInside(script, o, c, moments[n], moments[n + 1]);
  }

  // ---------------------------------------------------------------- a mod that unloads itself

  /** Just before the last operation of such a program. */
  lemma PlainSoFar(script: Script, a: State, o: Owner, kind: Kind, moments: seq<State>, n: nat, last: Op)
    requires a.budget > 1 && Alive(a.mods, o)
    requires Trace(script, o, script(a.calls).prog, moments) && moments[0] == Begun(Deeper(a), o, kind)
    requires n + 1 == |script(a.calls).prog| && AllPlain(script(a.calls).prog[..n])
    requires PublishesNoLane(script(a.calls).prog[..n]) && script(a.calls).prog[n] == last
    ensures var m := moments[n];
            m.mods == a.mods && m.listed == a.listed && m.calls == a.calls + 1 && m.budget > 0 && m.lanes == a.lanes
    ensures Effect(script, o, last, moments[n], moments[n + 1])
  {
    var prog := script(a.calls).prog;
    TraceOfPlain(script, o, prog, moments, n);
    LanesStayAll(Begun(Deeper(a), o, kind), o, prog[..n]);
  }

  lemma EnabledIffListed(a: State, before: State, b: State, name: nat)
    requires IsAt(a, name, Disabled) && Settled(before, b, Bearer(a, name), true, Enabled)
    requires name !in before.listed || (before.mods == a.mods && before.listed == a.listed)
    ensures IsAt(b, name, Enabled) <==> name in before.listed
  {}

  /**
   * An `on_enable` that ends by unloading its own mod: enabling reports success all the same, and the
   * mod is there, enabled, if and only if its `on_unload` refused.
   */
  lemma EnabledIffNotUnloaded(script: Script, a: State, name: nat, pre: seq<Op>, moments: seq<State>, before: State,
                              b: State)
    requires IsAt(a, name, Disabled) && a.budget > 1 && NoLanes(a.lanes, a.listed[name])
    requires script(a.calls).prog == pre + [Do(Unload(name, true))] && AllPlain(pre) && PublishesNoLane(pre)
    requires AllPlain(script(a.calls + 1).prog)
    requires Called(script, a, Bearer(a, name), Ordinary, moments, before)
    requires Settled(before, b, Bearer(a, name), true, Enabled)
    ensures IsAt(b, name, Enabled) <==> !script(a.calls + 1).answer
  {
    SelfUnloaded(script, a, name, pre, moments);
    EnabledIffListed(a, before, b, name);
  }

  lemma SelfUnloaded(script: Script, a: State, name: nat, pre: seq<Op>, moments: seq<State>)
    requires IsListed(a, name) && a.budget > 1 && NoLanes(a.lanes, a.listed[name])
    requires script(a.calls).prog == pre + [Do(Unload(name, true))] && AllPlain(pre) && PublishesNoLane(pre)
    requires AllPlain(script(a.calls + 1).prog)
    requires Trace(script, Bearer(a, name), script(a.calls).prog, moments)
    requires moments[0] == Begun(Deeper(a), Bearer(a, name), Ordinary)
    ensures var last := moments[|moments| - 1];
            if script(a.calls + 1).answer then name !in last.listed
            else last.mods == a.mods && last.listed == a.listed
  {
    var prog, n := script(a.calls).prog, |pre|;
    assert prog[..n] == pre;
    PlainSoFar(script, a, Bearer(a, name), Ordinary, moments, n, Do(Unload(name, true)));
    UnloadedInside(script, Bearer(a, name), moments[n], name, moments[n + 1]);
  }

  lemma UnloadedInside(script: Script, self: Owner, m: State, name: nat, t: State)
    requires m.budget > 0 && IsListed(m, name) && NoLanes(m.lanes, m.listed[name]) && AllPlain(script(m.calls).prog)
    requires Effect(script, self, Do(Unload(name, true)), m, t)
    ensures if script(m.calls).answer then name !in t.listed else t.mods == m.mods && t.listed == m.listed
  {
    assert CommandEffect(script, Unload(name, true), m, t);
    var ok :| UnloadTried(script, m, name, true, ok, t);
    UnloadTriedInside(script, m, name, ok, t);
  }

  lemma UnloadTriedInside(script: Script, m: State, name: nat, ok: bool, t: State)
    requires IsListed(m, name) && NoLanes(m.lanes, m.listed[name]) && AllPlain(script(m.calls).prog)
    requires UnloadTried(script, m, name, true, ok, t)
    ensures if script(m.calls).answer then name !in t.listed else t.mods == m.mods && t.listed == m.listed
  {
    var r, moments, asked, purged :|
      UnloadRuns(script, m, name, true, r, moments, asked, purged, t) && (ok <==> r == Unloaded);
    CalledPlain(script, m, Bearer(m, name), Lifecycle(name), moments, asked);
  }

  ghost predicate LaneAt(s: State, id: nat, desc: Desc, taken: nat, leases: nat) {
    && id in s.lanes && s.lanes[id].leases == leases && s.lanes[id].desc == desc
    && id in s.accounts && s.accounts[id].taken == taken && s.accounts[id].desc == desc
  }

  lemma LentAndReturned(s1: State, s2: State, s3: State, id: nat, desc: Desc, consumer: Owner, l: nat)
    requires LaneAt(s1, id, desc, 0, 0) && s2 == Granted(s1, consumer, id, l)
    requires CanGiveBack(s2, l) && s3 == GivenBack(s2, l)
    ensures LaneAt(s2, id, desc, 1, 1) && LaneAt(s3, id, desc, 1, 0)
  {}

  lemma CountedAt(s: State, id: nat, desc: Desc, taken: nat, leases: nat)
    requires Good(s) && LaneAt(s, id, desc, taken, leases)
    ensures References(s, id) == 1 + (if desc.retain then taken else 0) - (if desc.release then taken - leases else 0)
  {
    GoodIs(s);
    assert id !in s.dues;
    assert Kinds(s.log)[Retain(id)] == RetainsOf(s.accounts, id);
    assert Kinds(s.log)[Release(id)] == ReleasesOf(s.lanes, s.accounts, id);
  }

  /**
   * A lane is published, one lease is taken on it and given back, and the provider's callbacks do nothing
   * else: its own count of references is right all the way if and only if it gave both callbacks.
   */
  lemma BalanceNeedsBothCallbacks(s: State, provider: Owner, consumer: Owner, name: string, desc: Desc, l: nat,
                                  s1: State, s2: State, s3: State)
    requires Good(s) && Alive(s.mods, provider) && Alive(s.mods, consumer) && l !in s.leases
    requires s1 == LaneAdded(s, provider, name, desc, true)
    requires s.nextLane in s1.lanes && s2 == Granted(s1, consumer, s.nextLane, l)
    requires CanGiveBack(s2, l) && s3 == GivenBack(s2, l)
    ensures Good(s1) && Good(s2) && Good(s3)
    ensures && References(s1, s.nextLane) == 1 && References(s2, s.nextLane) == 2 && References(s3, s.nextLane) == 1
            <==> desc.retain && desc.release
  {
    GoodIs(s);
    LaneAddedStep(s, provider, name, desc, true);
    GrantStep(s1, consumer, s.nextLane, l);
    GiveBackStep(s2, l);
    LentAndReturned(s1, s2, s3, s.nextLane, desc, consumer, l);
    CountedAt(s1, s.nextLane, desc, 0, 0);
    CountedAt(s2, s.nextLane, desc, 1, 1);
    CountedAt(s3, s.nextLane, desc, 1, 0);
  }
}
