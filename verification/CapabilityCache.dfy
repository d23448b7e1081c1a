/** The capability cache: an observed account level behind one lock and the
    validated generations behind another, shared by any number of threads. One
    step is one lock section; caching holds both locks and is two steps. */
module CapabilityCache {
  import opened Wrappers

  datatype AccountLevel = One | Two | Three | Four

  /** A validated generation: its instrument, the account level it was validated
      under, and the trading tuple it must not change. */
  datatype Generation = Generation(instId: string, level: AccountLevel, tuple: int)

  /** Where a thread stands between its lock sections. */
  datatype Phase =
    | Idle
    | OwesRevoke
    | HoldsDiagnostic(generation: Generation)

  datatype Shared = Shared(
    observed: Option<AccountLevel>, generations: map<string, Generation>, phases: map<nat, Phase>)

  datatype Action =
    | Observe(thread: nat, level: AccountLevel)
    | Match(thread: nat, level: AccountLevel)
    | BeginRemember(thread: nat, generation: Generation)
    | FinishRemember(thread: nat)
    | Revoke(thread: nat)
    | RequestFails(thread: nat)

  const START := Shared(None, map[], map[])

  function PhaseOf(s: Shared, t: nat): Phase {
    if t in s.phases then s.phases[t] else Idle
  }

  ghost predicate DiagnosticFree(s: Shared) {
    forall t | t in s.phases :: !s.phases[t].HoldsDiagnostic?
  }

  /** A thread starts a section only from the phase its last section left it in,
      and the diagnostic lock excludes other users of it. */
  ghost predicate Enabled(s: Shared, a: Action) {
    match a
    case Observe(t, _) => PhaseOf(s, t) == Idle && DiagnosticFree(s)
    case Match(t, _) => PhaseOf(s, t) == Idle && DiagnosticFree(s)
    case BeginRemember(t, _) => PhaseOf(s, t) == Idle && DiagnosticFree(s)
    case FinishRemember(t) => PhaseOf(s, t).HoldsDiagnostic?
    case Revoke(t) => PhaseOf(s, t) == OwesRevoke
    case RequestFails(t) => PhaseOf(s, t) == Idle
  }

  function SetPhase(s: Shared, t: nat, phase: Phase): Shared {
    s.(phases := s.phases[t := phase])
  }

  function Next(s: Shared, a: Action): Shared {
    match a
    case Observe(t, level) =>
      var changed := s.observed.Some? && s.observed.value != level;
      SetPhase(s.(observed := Some(level)), t, if changed then OwesRevoke else Idle)
    case Match(t, level) =>
      SetPhase(s, t, if s.observed == Some(level) then Idle else OwesRevoke)
    case BeginRemember(t, generation) =>
      SetPhase(s, t, if s.observed == Some(generation.level) then HoldsDiagnostic(generation) else OwesRevoke)
    case FinishRemember(t) =>
      (match PhaseOf(s, t)
       case HoldsDiagnostic(g) =>
         if g.instId in s.generations && s.generations[g.instId].tuple != g.tuple then SetPhase(s, t, OwesRevoke)
         else SetPhase(s.(generations := s.generations[g.instId := g]), t, Idle)
       case _ => s)
    case Revoke(t) => SetPhase(s.(generations := map[]), t, Idle)
    case RequestFails(t) => SetPhase(s, t, OwesRevoke)
  }

  // ---------- invariant ----------

  ghost predicate SomeoneOwes(s: Shared) {
    exists t :: t in s.phases && s.phases[t] == OwesRevoke
  }

  /** A cached generation of another level implies an outstanding revoke. */
  ghost predicate LevelsMatch(s: Shared) {
    forall id | id in s.generations ::
      s.observed == Some(s.generations[id].level) || (s.observed.Some? && SomeoneOwes(s))
  }

  /** At most one thread holds the diagnostic lock, and what it is about to cache
      has the observed level. */
  ghost predicate HolderMatches(s: Shared) {
    && (forall t | t in s.phases && s.phases[t].HoldsDiagnostic? ::
          s.observed == Some(s.phases[t].generation.level))
    && (forall t, u | t in s.phases && u in s.phases
                   && s.phases[t].HoldsDiagnostic? && s.phases[u].HoldsDiagnostic? :: t == u)
  }

  ghost predicate Safe(s: Shared) {
    LevelsMatch(s) && HolderMatches(s) && (forall id | id in s.generations :: s.generations[id].instId == id)
  }

  lemma OwesAfter(s: Shared, t: nat)
    ensures SomeoneOwes(SetPhase(s, t, OwesRevoke))
  {
    assert SetPhase(s, t, OwesRevoke).phases[t] == OwesRevoke;
  }

  lemma OwesStays(s: Shared, t: nat, phase: Phase)
    requires SomeoneOwes(s) && PhaseOf(s, t) != OwesRevoke
    ensures SomeoneOwes(SetPhase(s, t, phase))
  {
    var u :| u in s.phases && s.phases[u] == OwesRevoke;
    assert SetPhase(s, t, phase).phases[u] == OwesRevoke;
  }

  lemma StepKeepsSafe(s: Shared, a: Action)
    requires Safe(s) && Enabled(s, a)
    ensures Safe(Next(s, a))
  {
    var next := Next(s, a);
    OwesAfter(s, a.thread);
    OwesAfter(s.(observed := next.observed), a.thread);
    if SomeoneOwes(s) && PhaseOf(s, a.thread) != OwesRevoke {
      OwesStays(s, a.thread, PhaseOf(next, a.thread));
      assert SomeoneOwes(next) by {
        var u :| u in s.phases && s.phases[u] == OwesRevoke;
        assert next.phases[u] == OwesRevoke;
      }
    }
  }

  ghost predicate IsRun(actions: seq<Action>) {
    forall i | 0 <= i < |actions| :: Enabled(Reached(actions[..i]), actions[i])
  }

  function Reached(actions: seq<Action>): Shared {
    if actions == [] then START else Next(Reached(actions[..|actions| - 1]), actions[|actions| - 1])
  }

  lemma RunPrefix(actions: seq<Action>)
    requires IsRun(actions) && actions != []
    ensures IsRun(actions[..|actions| - 1])
    ensures Enabled(Reached(actions[..|actions| - 1]), actions[|actions| - 1])
  {
    var front := actions[..|actions| - 1];
    forall i | 0 <= i < |front| ensures Enabled(Reached(front[..i]), front[i]) {
      assert front[..i] == actions[..i];
    }
  }

  /** Under every interleaving, a cached generation whose level differs from the
      observed one implies that some thread still owes a revoke; with none
      outstanding, every cached generation matches. */
  lemma {:induction false} EveryInterleavingIsSafe(actions: seq<Action>)
    requires IsRun(actions)
    ensures Safe(Reached(actions))
    ensures !SomeoneOwes(Reached(actions)) ==>
              forall id | id in Reached(actions).generations ::
                Reached(actions).observed == Some(Reached(actions).generations[id].level)
  {
    if actions != [] {
      RunPrefix(actions);
      EveryInterleavingIsSafe(actions[..|actions| - 1]);
      StepKeepsSafe(Reached(actions[..|actions| - 1]), actions[|actions| - 1]);
    }
  }

  // ---------- progress and stability ----------

  /** The action that finishes what a busy thread started. */
  function Obligation(s: Shared, t: nat): Action {
    if PhaseOf(s, t).HoldsDiagnostic? then FinishRemember(t) else Revoke(t)
  }

  /** No thread ever waits for another one to finish: its next section is enabled
      and leaves it idle or owing a revoke; a revoke empties the cache. */
  lemma BusyThreadsFinish(s: Shared, t: nat)
    requires PhaseOf(s, t) != Idle
    ensures Enabled(s, Obligation(s, t))
    ensures PhaseOf(s, t) == OwesRevoke ==>
              Next(s, Obligation(s, t)).generations == map[] && PhaseOf(Next(s, Obligation(s, t)), t) == Idle
    ensures PhaseOf(s, t).HoldsDiagnostic? ==> !PhaseOf(Next(s, Obligation(s, t)), t).HoldsDiagnostic?
  {
  }

  function RevokeAll(s: Shared, owing: seq<nat>): Shared
    decreases |owing|
  {
    if owing == [] then s else RevokeAll(Next(s, Revoke(owing[0])), owing[1..])
  }

  /** Once every owing thread has run its revoke, none is outstanding and the
      cache holds nothing of another level. */
  lemma {:induction false} RevokesSettle(s: Shared, owing: seq<nat>)
    requires Safe(s)
    requires forall t | t in s.phases && s.phases[t] == OwesRevoke :: t in owing
    requires forall i, j | 0 <= i < j < |owing| :: owing[i] != owing[j]
    requires forall t | t in owing :: PhaseOf(s, t) == OwesRevoke
    ensures !SomeoneOwes(RevokeAll(s, owing))
    ensures Safe(RevokeAll(s, owing))
    ensures RevokeAll(s, owing).observed == s.observed
    decreases |owing|
  {
    if owing != [] {
      var next := Next(s, Revoke(owing[0]));
      StepKeepsSafe(s, Revoke(owing[0]));
      forall t | t in next.phases && next.phases[t] == OwesRevoke ensures t in owing[1..] {
        assert t in owing && t != owing[0];
      }
      forall t | t in owing[1..] ensures PhaseOf(next, t) == OwesRevoke {
        var i :| 0 <= i < |owing[1..]| && owing[1..][i] == t;
        assert owing[i + 1] == t && owing[0] != owing[i + 1];
        assert t in owing;
      }
      RevokesSettle(next, owing[1..]);
    }
  }

  /** A cached trading tuple only changes through a revoke. */
  lemma TuplesAreStable(s: Shared, a: Action, id: string)
    requires Safe(s) && Enabled(s, a) && id in s.generations
    ensures id in Next(s, a).generations ==> Next(s, a).generations[id].tuple == s.generations[id].tuple
    ensures id !in Next(s, a).generations ==> a.Revoke?
  {
  }

  // ---------- what is observed, owed and cached ----------

  /** A level that differs from the observed one leaves the thread owing a revoke; a
      matching one, or the first observation, does not. */
  lemma MismatchOwes(s: Shared, t: nat, level: AccountLevel, g: Generation)
    ensures var next := Next(s, Observe(t, level));
            && next.observed == Some(level)
            && PhaseOf(next, t) == (if s.observed.Some? && s.observed.value != level then OwesRevoke else Idle)
    ensures PhaseOf(Next(s, Match(t, level)), t) == (if s.observed == Some(level) then Idle else OwesRevoke)
    ensures PhaseOf(Next(s, BeginRemember(t, g)), t)
         == (if s.observed == Some(g.level) then HoldsDiagnostic(g) else OwesRevoke)
    ensures PhaseOf(Next(s, RequestFails(t)), t) == OwesRevoke
  {
  }

  /** Apart from its own phase and, when it observes, the observed level, a section
      that neither remembers nor revokes changes nothing. */
  lemma OthersKeepCache(s: Shared, a: Action)
    requires !a.FinishRemember? && !a.Revoke?
    ensures Next(s, a).generations == s.generations
    ensures !a.Observe? ==> Next(s, a).observed == s.observed
    ensures forall u | u != a.thread :: PhaseOf(Next(s, a), u) == PhaseOf(s, u)
  {
  }

  /** Remembering stores the held generation under its instrument and nothing else,
      unless another tuple is cached there: then the cache stays and a revoke is owed. */
  lemma RememberStores(s: Shared, t: nat, g: Generation)
    requires PhaseOf(s, t) == HoldsDiagnostic(g)
    ensures var next, fits := Next(s, FinishRemember(t)), FitsCache(s, g);
            && next.observed == s.observed
            && (fits ==> PhaseOf(next, t) == Idle && g.instId in next.generations && next.generations[g.instId] == g)
            && (!fits ==> PhaseOf(next, t) == OwesRevoke && next.generations == s.generations)
            && forall id | id != g.instId ::
                 (id in next.generations <==> id in s.generations)
                 && (id in s.generations ==> next.generations[id] == s.generations[id])
  {
  }

  predicate FitsCache(s: Shared, g: Generation) {
    g.instId in s.generations ==> s.generations[g.instId].tuple == g.tuple
  }

  /** The last section a thread ran. */
  function LastOf(actions: seq<Action>, t: nat): Option<Action> {
    if actions == [] then None
    else if actions[|actions| - 1].thread == t then Some(actions[|actions| - 1])
    else LastOf(actions[..|actions| - 1], t)
  }

  /** The generation last remembered for an instrument since the last revoke, read
      off the sections alone: what a thread finishes is what it began. */
  function Remembered(actions: seq<Action>, id: string): Option<Generation> {
    if actions == [] then None
    else
      var front, before := actions[..|actions| - 1], Remembered(actions[..|actions| - 1], id);
      match actions[|actions| - 1]
      case Revoke(_) => None
      case FinishRemember(t) =>
        (match LastOf(front, t)
         case Some(BeginRemember(_, g)) =>
           if g.instId == id && (before.Some? ==> before.value.tuple == g.tuple) then Some(g) else before
         case _ => before)
      case _ => before
  }

  lemma {:induction false} HoldersBegan(actions: seq<Action>, t: nat)
    requires IsRun(actions)
    ensures var phase := PhaseOf(Reached(actions), t);
            phase.HoldsDiagnostic? ==> LastOf(actions, t) == Some(BeginRemember(t, phase.generation))
  {
    if actions != [] {
      RunPrefix(actions);
      HoldersBegan(actions[..|actions| - 1], t);
    }
  }

  /** Over every interleaving the cache is exactly that history: a remembered
      generation stays until a revoke or a newer one of its instrument. */
  lemma {:induction false} CacheIsHistory(actions: seq<Action>, id: string)
    requires IsRun(actions)
    ensures Remembered(actions, id)
         == if id in Reached(actions).generations then Some(Reached(actions).generations[id]) else None
  {
    if actions != [] {
      var front, a := actions[..|actions| - 1], actions[|actions| - 1];
      RunPrefix(actions);
      CacheIsHistory(front, id);
      if a.FinishRemember? {
        HoldersBegan(front, a.thread);
        RememberStores(Reached(front), a.thread, PhaseOf(Reached(front), a.thread).generation);
      } else if !a.Revoke? {
        OthersKeepCache(Reached(front), a);
      }
    }
  }

  /** The observed level is the newest observation. */
  function NewestLevel(actions: seq<Action>): Option<AccountLevel> {
    if actions == [] then None
    else if actions[|actions| - 1].Observe? then Some(actions[|actions| - 1].level)
    else NewestLevel(actions[..|actions| - 1])
  }

  lemma {:induction false} ObservedIsNewest(actions: seq<Action>)
    ensures Reached(actions).observed == NewestLevel(actions)
  {
    if actions != [] {
      ObservedIsNewest(actions[..|actions| - 1]);
    }
  }
}
