/**
 * The single-flight workspace cache of nx-workspace.ts: the module-level
 * `status` and `cachedReplay` and the function `nxWorkspace(reset)`.
 *
 * Each `ReplaySubject` installed in `cachedReplay` is a generation `g`;
 * `emitted[g]` holds the values pushed into it, and a caller subscribed to
 * it settles with the first of them. Each `_workspace()` run is a
 * `Computation` that remembers the generation current when it started; it
 * settles in a separate step, and then pushes into the generation current
 * at THAT moment: `cachedReplay` is read when the value arrives.
 */
module WorkspaceCache {
  import opened Wrappers
  import opened Workspace

  datatype Status = NotStarted | InProgress | Cached

  /** One `_workspace()` run: the generation current at its start, the path it read, and how it settled (None while in flight). */
  datatype Computation = Computation(gen: nat, path: string, outcome: Option<Settled<NxWorkspace>>)

  /** One `clearJsonCache(fileName, workspacePath)` call. */
  datatype ClearCall = ClearJsonCache(fileName: string, workspacePath: string)

  /** What one call of `nxWorkspace` waits on: the run it started, or a subject generation. */
  datatype Wait = OnComputation(k: nat) | OnSubject(g: nat)

  datatype State = State(
    status: Status,
    gen: nat,
    emitted: seq<seq<NxWorkspace>>,
    comps: seq<Computation>,
    cleared: seq<ClearCall>)

  datatype Requested = Requested(next: State, wait: Wait)

  /** Process start: `status = not_started` and one empty subject. */
  function Init(): State {
    State(NotStarted, 0, [[]], [], [])
  }

  /** What holds between any two steps of the cache. */
  ghost predicate Invariant(s: State) {
    && |s.emitted| == s.gen + 1
    && (s.status == Cached <==> s.emitted[s.gen] != [])
    && (s.status == NotStarted ==> s.comps == [] && s.gen == 0)
    && (s.status != NotStarted ==> s.comps != [] && s.comps[|s.comps| - 1].gen == s.gen)
    && (forall k :: 0 <= k < |s.comps| ==> s.comps[k].gen <= s.gen)
    && (forall i, j :: 0 <= i < j < |s.comps| ==> s.comps[i].gen < s.comps[j].gen)
  }

  lemma InitInvariant()
    ensures Invariant(Init())
  {
  }

  /**
   * `nxWorkspace(reset)` up to its first suspension: the optional reset
   * (lines 49-59), then `iif` on the status (lines 61-76).
   */
  function RequestStep(s: State, reset: bool, stored: Option<string>): (r: Requested)
    requires Invariant(s)
    ensures Invariant(r.next)
  {
    var path := StoredPath(stored);
    var t := if reset then
        s.(status := NotStarted, gen := s.gen + 1, emitted := s.emitted + [[]],
           cleared := s.cleared + [ClearJsonCache("angular.json", path), ClearJsonCache("workspace.json", path)])
      else s;
    if t.status == NotStarted then
      Requested(t.(status := InProgress, comps := t.comps + [Computation(t.gen, path, None)]), OnComputation(|t.comps|))
    else
      Requested(t, OnSubject(t.gen))
  }

  /**
   * Run `k` settles with the results `io`. A resolved run pushes its value
   * into the CURRENT subject and sets `status = cached` (lines 69-72); a
   * rejected one changes neither. A settled or unknown run ignores the step.
   */
  function SettleStep(s: State, k: nat, io: Io): (t: State)
    requires Invariant(s)
    ensures Invariant(t)
  {
    if k < |s.comps| && s.comps[k].outcome.None? then
      var outcome := Compute(s.comps[k].path, io).outcome;
      var marked := s.(comps := s.comps[k := s.comps[k].(outcome := Some(outcome))]);
      match outcome
      case Resolved(w) => marked.(emitted := marked.emitted[marked.gen := marked.emitted[marked.gen] + [w]], status := Cached)
      case Rejected => marked
    else s
  }

  /** How a caller waiting on `w` has settled so far; None while it still waits. */
  function AnswerOf(s: State, w: Wait): Option<Settled<NxWorkspace>> {
    match w
    case OnComputation(k) => if k < |s.comps| then s.comps[k].outcome else None
    case OnSubject(g) => if g < |s.emitted| && s.emitted[g] != [] then Some(Resolved(s.emitted[g][0])) else None
  }

  /**
   * Single flight: a call starts a run exactly when it resets or finds
   * `not_started`, and then exactly one; any other call only subscribes to
   * the current subject and changes nothing.
   */
  lemma SingleFlight(s: State, reset: bool, stored: Option<string>)
    requires Invariant(s)
    ensures var r := RequestStep(s, reset, stored);
      && (r.wait.OnComputation? <==> reset || s.status == NotStarted)
      && (r.wait.OnComputation? ==>
            && r.wait.k == |s.comps|
            && r.next.comps == s.comps + [Computation(r.next.gen, StoredPath(stored), None)]
            && r.next.status == InProgress)
      && (!r.wait.OnComputation? ==> r.next == s && r.wait == OnSubject(s.gen))
  {
  }

  /** Cache hit: with `status == cached` a non-reset call starts nothing and settles at once with the subject's first value. */
  lemma CacheHit(s: State, stored: Option<string>)
    requires Invariant(s) && s.status == Cached
    ensures RequestStep(s, false, stored) == Requested(s, OnSubject(s.gen))
    ensures AnswerOf(s, OnSubject(s.gen)) == Some(Resolved(s.emitted[s.gen][0]))
  {
  }

  /**
   * A reset installs a fresh subject, clears the angular.json then the
   * workspace.json cache for the stored path, and always starts a run.
   */
  lemma ResetRestarts(s: State, stored: Option<string>)
    requires Invariant(s)
    ensures var r := RequestStep(s, true, stored);
      var path := StoredPath(stored);
      && r.next.gen == s.gen + 1
      && r.next.emitted == s.emitted + [[]]
      && r.next.cleared == s.cleared + [ClearJsonCache("angular.json", path), ClearJsonCache("workspace.json", path)]
      && r.next.comps == s.comps + [Computation(s.gen + 1, path, None)]
      && r.next.status == InProgress
      && r.wait == OnComputation(|s.comps|)
  {
  }

  /** A rejected run marks itself settled and nothing else: `status` stays as it was and no subject receives a value. */
  lemma RejectionLeavesCacheAlone(s: State, k: nat, io: Io)
    requires Invariant(s) && k < |s.comps| && s.comps[k].outcome.None?
    requires !ReadsSucceed(io)
    ensures SettleStep(s, k, io) == s.(comps := s.comps[k := s.comps[k].(outcome := Some(Rejected))])
    ensures SettleStep(s, k, io).status == s.status
    ensures SettleStep(s, k, io).emitted == s.emitted
  {
  }

  /** A run that started before a reset pushes into the subject installed by that reset, never into its own. */
  lemma LateRunFeedsCurrentSubject(s: State, k: nat, io: Io)
    requires Invariant(s) && k < |s.comps| && s.comps[k].outcome.None?
    requires ReadsSucceed(io)
    ensures var w := Compute(s.comps[k].path, io).outcome.value;
      && SettleStep(s, k, io).emitted == s.emitted[s.gen := s.emitted[s.gen] + [w]]
      && SettleStep(s, k, io).status == Cached
      && (s.comps[k].gen < s.gen ==> SettleStep(s, k, io).emitted[s.comps[k].gen] == s.emitted[s.comps[k].gen])
  {
  }

  /** `n` further calls without reset, one after the other. */
  datatype Joined = Joined(next: State, waits: seq<Wait>)

  function Burst(s: State, n: nat, stored: Option<string>): (r: Joined)
    requires Invariant(s)
    ensures Invariant(r.next) && |r.waits| == n
    decreases n
  {
    if n == 0 then Joined(s, [])
    else
      var first := RequestStep(s, false, stored);
      var rest := Burst(first.next, n - 1, stored);
      Joined(rest.next, [first.wait] + rest.waits)
  }

  /** While a run is in flight or cached, further calls all subscribe to the current subject and change nothing. */
  lemma {:induction false} BurstJoinsFlight(s: State, n: nat, stored: Option<string>)
    requires Invariant(s) && s.status != NotStarted
    ensures Burst(s, n, stored).next == s
    ensures forall i :: 0 <= i < n ==> Burst(s, n, stored).waits[i] == OnSubject(s.gen)
  {
    if n > 0 {
      BurstJoinsFlight(RequestStep(s, false, stored).next, n - 1, stored);
    }
  }

  /**
   * Same value for all callers: one call starts a run, `n` more join it,
   * and the run settles before anything else happens. Exactly one run was
   * started; if it resolves, the starter and every joiner get its value; if
   * it rejects, the starter rejects and the joiners keep waiting.
   */
  lemma SameValueForAll(s: State, reset: bool, stored: Option<string>, n: nat, io: Io)
    requires Invariant(s) && (reset || s.status == NotStarted)
    ensures var first := RequestStep(s, reset, stored);
      var burst := Burst(first.next, n, stored);
      var settled := SettleStep(burst.next, |s.comps|, io);
      var outcome := Compute(StoredPath(stored), io).outcome;
      && first.wait == OnComputation(|s.comps|)
      && |burst.next.comps| == |s.comps| + 1
      && AnswerOf(settled, first.wait) == Some(outcome)
      && (outcome.Resolved? ==>
            settled.status == Cached && forall i :: 0 <= i < n ==> AnswerOf(settled, burst.waits[i]) == Some(outcome))
      && (outcome.Rejected? ==>
            settled.status == InProgress && forall i :: 0 <= i < n ==> AnswerOf(settled, burst.waits[i]) == None)
  {
    var first := RequestStep(s, reset, stored);
    SingleFlight(s, reset, stored);
    BurstJoinsFlight(first.next, n, stored);
  }

  /** One event of the cache: a call of `nxWorkspace`, or a run settling. */
  datatype Step = Request(reset: bool, stored: Option<string>) | Settle(k: nat, io: Io)

  function Apply(s: State, step: Step): (t: State)
    requires Invariant(s)
    ensures Invariant(t)
  {
    match step
    case Request(reset, stored) => RequestStep(s, reset, stored).next
    case Settle(k, io) => SettleStep(s, k, io)
  }

  function Run(s: State, steps: seq<Step>): (t: State)
    requires Invariant(s)
    ensures Invariant(t)
    decreases |steps|
  {
    if steps == [] then s else Run(Apply(s, steps[0]), steps[1..])
  }

  /** The number of reset calls among `steps`. */
  function Resets(steps: seq<Step>): nat
    decreases |steps|
  {
    if steps == [] then 0
    else (if steps[0].Request? && steps[0].reset then 1 else 0) + Resets(steps[1..])
  }

  /**
   * What one step leaves alone: the number of generations only grows, a
   * subject only grows at its end and only the current one grows, runs
   * are only added, and a settled run stays as it is.
   */
  lemma StepFrame(s: State, step: Step)
    requires Invariant(s)
    ensures var t := Apply(s, step);
      && t.gen >= s.gen
      && (forall g :: 0 <= g < s.gen ==> t.emitted[g] == s.emitted[g])
      && t.emitted[s.gen][..|s.emitted[s.gen]|] == s.emitted[s.gen]
      && |t.comps| >= |s.comps|
      && (forall k :: 0 <= k < |s.comps| && s.comps[k].outcome.Some? ==> t.comps[k] == s.comps[k])
  {
    var t := Apply(s, step);
    if step.Request? && step.reset {
      assert t.emitted[..s.gen + 1] == s.emitted;
    }
  }

  /** Once a caller has settled, its answer never changes: a subject replays its first value and a run settles once. */
  lemma {:induction false} AnswersNeverChange(s: State, steps: seq<Step>, w: Wait)
    requires Invariant(s) && AnswerOf(s, w).Some?
    ensures AnswerOf(Run(s, steps), w) == AnswerOf(s, w)
    decreases |steps|
  {
    if steps != [] {
      var t := Apply(s, steps[0]);
      StepFrame(s, steps[0]);
      if w.OnSubject? && w.g == s.gen {
        assert t.emitted[w.g][0] == t.emitted[w.g][..|s.emitted[w.g]|][0];
      }
      AnswersNeverChange(t, steps[1..], w);
    }
  }

  /**
   * Callers left on a subject that a reset replaced, while it was still
   * empty, are never resolved, whatever happens afterwards.
   */
  lemma {:induction false} StaleSubjectNeverResolves(s: State, steps: seq<Step>, g: nat)
    requires Invariant(s) && g < s.gen && s.emitted[g] == []
    ensures AnswerOf(Run(s, steps), OnSubject(g)) == None
    decreases |steps|
  {
    if steps != [] {
      StepFrame(s, steps[0]);
      StaleSubjectNeverResolves(Apply(s, steps[0]), steps[1..], g);
    }
  }

  /** Once started, only reset calls start runs: one each. */
  lemma {:induction false} OnlyResetsStartRuns(s: State, steps: seq<Step>)
    requires Invariant(s) && s.status != NotStarted
    ensures |Run(s, steps).comps| == |s.comps| + Resets(steps)
    decreases |steps|
  {
    if steps != [] {
      var step := steps[0];
      if step.Request? {
        SingleFlight(s, step.reset, step.stored);
      }
      OnlyResetsStartRuns(Apply(s, step), steps[1..]);
    }
  }

  /** Without a reset, a cached workspace stays cached with the same first value, so every later call gets that value. */
  lemma {:induction false} CachedUntilReset(s: State, steps: seq<Step>)
    requires Invariant(s) && s.status == Cached && Resets(steps) == 0
    ensures var t := Run(s, steps);
      && t.status == Cached
      && t.gen == s.gen
      && t.emitted[t.gen][0] == s.emitted[s.gen][0]
      && |t.comps| == |s.comps|
    decreases |steps|
  {
    if steps != [] {
      var step := steps[0];
      var t := Apply(s, step);
      if step.Request? {
        SingleFlight(s, step.reset, step.stored);
      }
      StepFrame(s, step);
      assert t.emitted[s.gen][0] == t.emitted[s.gen][..|s.emitted[s.gen]|][0];
      CachedUntilReset(t, steps[1..]);
    }
  }

  /**
   * A reset while a run is in flight: A starts run 0 on subject 0, B
   * subscribes to subject 0, C resets (subject 1, run 1), D subscribes to
   * subject 1. Run 0 then resolves into subject 1, so D gets A's value and
   * B is stranded; when run 1 resolves, C gets its own value, unlike D.
   */
  lemma ResetDuringFlight(io: Io)
    requires ReadsSucceed(io) && io.construction.Constructs?
    ensures var a := RequestStep(Init(), false, Some("a"));
      var b := RequestStep(a.next, false, Some("a"));
      var c := RequestStep(b.next, true, Some("c"));
      var d := RequestStep(c.next, false, Some("c"));
      var e := SettleStep(SettleStep(d.next, 0, io), 1, io);
      && a.wait == OnComputation(0) && b.wait == OnSubject(0)
      && c.wait == OnComputation(1) && d.wait == OnSubject(1)
      && AnswerOf(e, b.wait) == None
      && AnswerOf(e, a.wait) == AnswerOf(e, d.wait)
      && AnswerOf(e, a.wait).Some? && AnswerOf(e, a.wait).value.Resolved?
      && AnswerOf(e, a.wait).value.value.workspacePath == "a"
      && AnswerOf(e, c.wait).Some? && AnswerOf(e, c.wait).value.Resolved?
      && AnswerOf(e, c.wait).value.value.workspacePath == "c"
      && e.emitted[0] == []
  {
    InitInvariant();
  }

  /** The state of nx-workspace.ts as mutable module variables, stepped like the source. */
  class NxWorkspaceCache {
    var status: Status
    var gen: nat
    var emitted: seq<seq<NxWorkspace>>
    var comps: seq<Computation>
    var cleared: seq<ClearCall>

    function Model(): State
      reads this
    {
      State(status, gen, emitted, comps, cleared)
    }

    ghost predicate Valid()
      reads this
    {
      Invariant(Model())
    }

    constructor ()
      ensures Model() == Init() && Valid()
    {
      status, gen, emitted, comps, cleared := NotStarted, 0, [[]], [], [];
    }

    /** `nxWorkspace(reset)`: returns what the call then waits on. */
    method Request(reset: bool, stored: Option<string>) returns (w: Wait)
      requires Valid()
      modifies this
      ensures Requested(Model(), w) == RequestStep(old(Model()), reset, stored)
      ensures Valid()
      ensures w.OnComputation? <==> reset || old(status) == NotStarted
      ensures w.OnComputation? ==> w.k == |old(comps)| && |comps| == |old(comps)| + 1
      ensures !w.OnComputation? ==> Model() == old(Model()) && w == OnSubject(gen)
    {
      SingleFlight(Model(), reset, stored);
      var path := StoredPath(stored);
      if reset {
        status := NotStarted;
        gen := gen + 1;
        emitted := emitted + [[]];
        cleared := cleared + [ClearJsonCache("angular.json", path), ClearJsonCache("workspace.json", path)];
      }
      if status == NotStarted {
        status := InProgress;
        w := OnComputation(|comps|);
        comps := comps + [Computation(gen, path, None)];
      } else {
        w := OnSubject(gen);
      }
    }

    /** Run `k` settles with the results `io`. */
    method Settle(k: nat, io: Io)
      requires Valid()
      modifies this
      ensures Model() == SettleStep(old(Model()), k, io)
      ensures Valid()
      ensures |comps| == |old(comps)|
    {
      if k < |comps| && comps[k].outcome.None? {
        var outcome := Compute(comps[k].path, io).outcome;
        comps := comps[k := comps[k].(outcome := Some(outcome))];
        if outcome.Resolved? {
          emitted := emitted[gen := emitted[gen] + [outcome.value]];
          status := Cached;
        }
      }
    }
  }
}
