/**
 * How loading, enabling and unloading a mod end (src/core/RustModManager.cpp), whatever happened inside
 * the mod's own callback, and when a mod that goes leaves something behind.
 */
module LoaderLifecycle {
  import opened Ownership
  import opened LoaderState
  import opened LoaderSteps

  /** There is no room for a mod at this address, or its library does not open. */
  predicate Refuses(s: State, mod: nat, opens: bool) {
    mod == 0 || mod in s.mods || mod in s.dying || !opens
  }

  /** A mod object goes; a slip if that was not properly asked for. */
  ghost predicate Goes(s: State, t: State, mod: nat, slip: bool) {
    mod in s.mods && t == Gone(s, mod, !NothingOf(s, mod), slip)
  }

  /** Either nothing is left of the mod, or there is a reason for that. */
  ghost predicate Excused(s: State, mod: nat, slip: bool) {
    NothingOf(s, mod) || slip || s.rogue || s.slips
  }

  /** The mod that bears the name goes, for another one. */
  ghost predicate Displaced(s: State, t: State, mod: nat, bearer: nat) {
    && mod in s.mods && bearer in s.mods && mod != bearer
    && t == Admitted(Gone(s, bearer, !NothingOf(s, bearer), true), mod)
  }

  /**
   * What follows when an entry point has returned: it may have failed, and its name may be in use. The
   * name is not asked for again before the mod manager is given the new mod.
   */
  ghost predicate LoadEnds(s: State, t: State, mod: nat, ok: bool, displaces: bool, slip: bool) {
    && mod in s.mods
    && var name := s.mods[mod].name;
       if ok && name !in s.listed then t == Admitted(s, mod)
       else if ok && displaces then Displaced(s, t, mod, s.listed[name])
       else Goes(s, t, mod, slip)
  }

  /** Whoever bears the name by now goes. */
  ghost predicate Erased(s: State, t: State, name: nat, slip: bool) {
    if name in s.listed then Goes(s, t, s.listed[name], slip) else t == s
  }

  predicate IsListed(s: State, name: nat) {
    name in s.listed && s.listed[name] in s.mods
  }

  /** Which mod bears the name. */
  function Bearer(s: State, name: nat): Owner
    requires IsListed(s, name)
  {
    Owner(s.listed[name], s.mods[s.listed[name]].born)
  }

  predicate IsAt(s: State, name: nat, phase: Phase) {
    IsListed(s, name) && s.mods[s.listed[name]].phase == phase
  }

  /** A mod that agreed changes its phase, if it is still there. */
  ghost predicate Settled(s: State, t: State, o: Owner, ok: bool, phase: Phase) {
    if ok && Alive(s.mods, o) then t == InPhase(s, o.mod, phase) else t == s
  }

  // ---------------------------------------------------------------- what they keep

  /** Nothing was listed or unlisted under this name since the entry at `since`. */
  ghost predicate Quiet(since: State, s: State, name: nat) {
    Kinds(s.log)[Lifecycle(name)] == Kinds(since.log)[Lifecycle(name)]
  }

  /** A listed mod is still there while nobody loads or unloads under its name. */
  lemma StillThere(since: State, s: State, name: nat)
    requires Good(since) && Good(s) && Evolves(since, s) && name in since.listed && Quiet(since, s, name)
    ensures IsListed(since, name) && IsListed(s, name) && Bearer(s, name) == Bearer(since, name)
  {
    GoodIs(since);
    GoodIs(s);
    var mod := since.listed[name];
    assert mod in since.mods && mod !in since.loading;
  }

  /** A change of phase after a callback of a listed mod. */
  lemma SettleStep(since: State, s: State, name: nat, phase: Phase)
    requires Good(since) && Good(s) && Evolves(since, s) && IsListed(since, name) && !phase.Loading?
    requires Alive(s.mods, Bearer(since, name))
    ensures Step(since, InPhase(s, since.listed[name], phase))
  {
    GoodIs(since);
    GoodIs(s);
    assert since.listed[name] !in s.loading;
    PhaseStep(s, since.listed[name], phase);
    EvolvesTrans(since, s, InPhase(s, since.listed[name], phase));
  }

  lemma SettledQuietly(since: State, s: State, t: State, name: nat, phase: Phase)
    requires Good(since) && Good(s) && Evolves(since, s) && IsListed(since, name) && Quiet(since, t, name)
    requires Settled(s, t, Bearer(since, name), true, phase)
    ensures IsAt(t, name, phase) && Bearer(t, name) == Bearer(since, name)
  {
    StillThere(since, s, name);
  }

  lemma StillUnlisted(since: State, s: State, name: nat)
    requires Evolves(since, s) && name !in since.listed && Quiet(since, s, name)
    ensures name !in s.listed
  {}

  lemma GoneStep(since: State, s: State, t: State, mod: nat, slip: bool)
    requires Good(s) && Grows(since, s) && MayFree(since, s, mod) && Goes(s, t, mod, slip) && Excused(s, mod, slip)
    ensures Good(t) && Grows(since, t)
  {
    DeathStep(since, s, mod, !NothingOf(s, mod), slip);
  }

  lemma BearerMayGo(since: State, s: State, name: nat)
    requires Good(since) && Good(s) && Grows(since, s) && Announced(since, s, name) && name in s.listed
    requires since.loading <= s.loading
    ensures MayFree(since, s, s.listed[name])
  {
    GoodIs(since);
    GoodIs(s);
    assert s.listed[name] !in s.loading;
  }

  lemma EraseStep(since: State, s: State, t: State, name: nat, slip: bool)
    requires Good(since) && Good(s) && Evolves(since, s) && Announced(since, s, name) && Erased(s, t, name, slip)
    requires name in s.listed ==> Excused(s, s.listed[name], slip)
    ensures Step(since, t) && name !in t.listed
  {
    GoodIs(s);
    if name in s.listed {
      BearerMayGo(since, s, name);
      GoneStep(since, s, t, s.listed[name], slip);
      assert s.listed[name] !in s.loading;
    }
  }

  lemma KindsAfterGone(s: State, mod: nat, leaks: bool, slip: bool, name: nat)
    requires mod in s.mods
    ensures Kinds(Gone(s, mod, leaks, slip).log)[Lifecycle(name)] == Kinds(s.log)[Lifecycle(name)]
  {
    KindsAppend(s.log, Gone(s, mod, leaks, slip).log[|s.log|]);
  }

  /** Entering a mod's lifecycle function announces its name. */
  lemma AnnouncedByEntry(a: State, b: State, o: Owner, name: nat)
    requires Evolves(Begun(a, o, Lifecycle(name)), b)
    ensures Announced(a, b, name)
    ensures Kinds(b.log)[Lifecycle(name)] == Kinds(a.log)[Lifecycle(name)] + 1 ==>
              Quiet(Begun(a, o, Lifecycle(name)), b, name)
  {
    KindsAppend(a.log, Entered(a, o, Lifecycle(name)));
    KindsGrow(a.log + [Entered(a, o, Lifecycle(name))], b.log);
  }

  /** A mod whose entry point has just returned, and which nobody knew when loading began. */
  ghost predicate Newborn(since: State, s: State, mod: nat) {
    && mod in s.mods && mod !in since.mods && mod !in since.loading && s.loading == since.loading + {mod}
    && SameDepths(since, s) && s.dues == since.dues && Grows(since, s)
    && Announced(since, s, s.mods[mod].name)
  }

  lemma NewbornCalled(since: State, mod: nat, name: nat, s: State)
    requires Good(since) && mod !in since.mods
    requires Evolves(Born(since, mod, name), s)
    requires Evolves(Begun(Born(since, mod, name), Owner(mod, since.nextBorn), Lifecycle(name)), s)
    ensures Newborn(since, s, mod) && s.mods[mod] == ModState(since.nextBorn, name, Loading)
  {
    var born := Born(since, mod, name);
    GrowsSinceBirth(since, mod, name, s);
    AnnouncedByEntry(born, s, Owner(mod, since.nextBorn), name);
    assert mod in born.loading && born.mods[mod] == ModState(since.nextBorn, name, Loading);
  }

  lemma BearerGoes(since: State, s: State, mod: nat, bearer: nat, t: State)
    requires Good(since) && Good(s) && Newborn(since, s, mod)
    requires s.mods[mod].name in s.listed && bearer == s.listed[s.mods[mod].name] && Goes(s, t, bearer, true)
    ensures bearer !in s.loading && bearer != mod && Good(t) && Grows(since, t)
    ensures Announced(since, t, s.mods[mod].name)
  {
    GoodIs(s);
    BearerMayGo(since, s, s.mods[mod].name);
    GoneStep(since, s, t, bearer, true);
    KindsAfterGone(s, bearer, !NothingOf(s, bearer), true, s.mods[mod].name);
  }

  lemma DisplaceStep(since: State, s: State, mod: nat, bearer: nat, t: State)
    requires Good(since) && Good(s) && Newborn(since, s, mod)
    requires s.mods[mod].name in s.listed && bearer == s.listed[s.mods[mod].name] && Goes(s, t, bearer, true)
    ensures bearer in s.mods && bearer != mod && Good(t) && Newborn(since, t, mod)
    ensures t.mods[mod] == s.mods[mod] && t.mods[mod].name !in t.listed
  {
    GoodIs(s);
    BearerGoes(since, s, mod, bearer, t);
    assert t.loading == s.loading;
  }

  lemma NewbornGoes(since: State, s: State, mod: nat, t: State, slip: bool)
    requires Good(since) && Good(s) && Newborn(since, s, mod) && Goes(s, t, mod, slip) && Excused(s, mod, slip)
    ensures Good(t) && Evolves(since, t)
  {
    GoneStep(since, s, t, mod, slip);
    assert t.loading == since.loading;
  }

  lemma NewbornStays(since: State, s: State, mod: nat)
    requires Good(since) && Good(s) && Newborn(since, s, mod) && s.mods[mod].name !in s.listed
    ensures Good(Admitted(s, mod)) && Evolves(since, Admitted(s, mod))
  {
    AdmitStep(since, s, mod);
    assert Admitted(s, mod).loading == since.loading;
  }
}
