/**
 * The debounced refresh trigger of refresh-workspace.ts: a `Subject` piped
 * through `debounceTime(150)` whose handler awaits `nxWorkspace(true)` and
 * then executes three refresh commands.
 *
 * Time is an explicit millisecond clock. `Signal` is `refresh.next`, `Tick`
 * lets time pass and fires a window that is due, and `Resume` continues a
 * handler run once the workspace run it awaits has settled in the cache.
 */
module Refresh {
  import opened Wrappers
  import opened Workspace
  import opened WorkspaceCache

  const RefreshWorkspaceId: string := "nxConsole.refreshWorkspace"
  const DebounceMs: int := 150

  /** The three commands the handler executes after the workspace is reloaded. */
  datatype Command = RefreshNxProjectsTree | RefreshRunTargetTree | GraphRefresh {
    function Id(): string {
      match this
      case RefreshNxProjectsTree => "nxConsole.refreshNxProjectsTree"
      case RefreshRunTargetTree => "nxConsole.refreshRunTargetTree"
      case GraphRefresh => "nx.graph.refresh"
    }
  }

  datatype Effect = ResetRequested(run: nat) | Executed(command: Command)

  /** The fan-out of one handler run, in execution order. */
  function FanOut(): (effects: seq<Effect>)
    ensures |effects| == 3
    ensures forall i :: 0 <= i < 3 ==> effects[i].Executed?
    ensures effects[0].command.Id() == "nxConsole.refreshNxProjectsTree"
    ensures effects[1].command.Id() == "nxConsole.refreshRunTargetTree"
    ensures effects[2].command.Id() == "nx.graph.refresh"
  {
    [Executed(RefreshNxProjectsTree), Executed(RefreshRunTargetTree), Executed(GraphRefresh)]
  }

  datatype RunState = Awaiting | Notified | Failed

  /** One handler run: when its window fired, the cache run its `nxWorkspace(true)` awaits, and how far it got. */
  datatype HandlerRun = HandlerRun(firedAt: int, computation: nat, state: RunState)

  /** The fire times of `runs`, in order. */
  function FireTimes(runs: seq<HandlerRun>): (times: seq<int>)
    ensures |times| == |runs|
    decreases |runs|
  {
    if runs == [] then [] else FireTimes(runs[..|runs| - 1]) + [runs[|runs| - 1].firedAt]
  }

  lemma FireTimesAppend(runs: seq<HandlerRun>, run: HandlerRun)
    ensures FireTimes(runs + [run]) == FireTimes(runs) + [run.firedAt]
  {
    assert (runs + [run])[..|runs|] == runs;
  }

  lemma ConcatAssoc(a: seq<int>, b: seq<int>, c: seq<int>)
    ensures a + b + c == a + (b + c)
  {
  }

  // ---------------------------------------------------------------------
  // Reference semantics of debounceTime over a timeline of signals.
  // ---------------------------------------------------------------------

  predicate Sorted(s: seq<int>) {
    forall i, j :: 0 <= i < j < |s| ==> s[i] <= s[j]
  }

  /**
   * Fire times of the windows among the first `n` signals of `s` that the
   * next of those signals, DebounceMs or more later, has already let run out.
   */
  function Closed(s: seq<int>, n: nat): (fires: seq<int>)
    requires n <= |s|
    ensures n > 0 ==> |fires| < n
    decreases n
  {
    if n < 2 then []
    else Closed(s, n - 1) + (if s[n - 2] + DebounceMs <= s[n - 1] then [s[n - 2] + DebounceMs] else [])
  }

  /** When the handler fires for signals at times `s` (ascending, a signal at a fire time comes after the firing). */
  function DebounceFires(s: seq<int>): (fires: seq<int>)
    ensures |fires| <= |s|
    ensures s != [] ==> fires != [] && fires[|fires| - 1] == s[|s| - 1] + DebounceMs
  {
    if s == [] then [] else Closed(s, |s|) + [s[|s| - 1] + DebounceMs]
  }

  /** Consecutive signals less than DebounceMs apart. */
  predicate Burst(s: seq<int>) {
    forall i :: 0 < i < |s| ==> s[i] - s[i - 1] < DebounceMs
  }

  lemma {:induction false} BurstClosesNothing(s: seq<int>, n: nat)
    requires n <= |s| && Burst(s)
    ensures Closed(s, n) == []
    decreases n
  {
    if n >= 2 {
      BurstClosesNothing(s, n - 1);
    }
  }

  /** Coalescing: a burst fires the handler exactly once, DebounceMs after its last signal. */
  lemma Coalescing(s: seq<int>)
    requires s != [] && Burst(s)
    ensures DebounceFires(s) == [s[|s| - 1] + DebounceMs]
  {
    BurstClosesNothing(s, |s|);
  }

  /** Every closed window started at a signal, and the next signal came at or after its end. */
  lemma {:induction false} ClosedAt(s: seq<int>, n: nat, m: nat) returns (i: nat)
    requires n <= |s| && m < |Closed(s, n)|
    ensures i + 1 < n && s[i] + DebounceMs == Closed(s, n)[m] && s[i + 1] >= Closed(s, n)[m]
    decreases n
  {
    if m < |Closed(s, n - 1)| {
      i := ClosedAt(s, n - 1, m);
    } else {
      i := n - 2;
    }
  }

  /** The handler fires DebounceMs after some signal, and no signal falls strictly inside that window. */
  lemma QuietWindow(s: seq<int>, m: nat) returns (i: nat)
    requires Sorted(s) && m < |DebounceFires(s)|
    ensures i < |s| && s[i] + DebounceMs == DebounceFires(s)[m]
    ensures forall j :: 0 <= j < |s| ==> !(DebounceFires(s)[m] - DebounceMs < s[j] < DebounceFires(s)[m])
  {
    var f := DebounceFires(s)[m];
    if m < |Closed(s, |s|)| {
      i := ClosedAt(s, |s|, m);
      forall j | 0 <= j < |s|
        ensures !(f - DebounceMs < s[j] < f)
      {
        if j > i {
          assert s[i + 1] <= s[j];
        }
      }
    } else {
      i := |s| - 1;
    }
  }

  /** Three signals at 0, 50 and 90 ms fire the handler once, at 240 ms. */
  lemma ThreeQuickSignals()
    ensures DebounceFires([0, 50, 90]) == [240]
  {
    Coalescing([0, 50, 90]);
  }

  // ---------------------------------------------------------------------
  // The trigger as state.
  // ---------------------------------------------------------------------

  class Refresher {
    /** End of the pending debounce window, if one is open. */
    var deadline: Option<int>
    /** The last time this object observed. */
    var clock: int
    var runs: seq<HandlerRun>
    var log: seq<Effect>
    const cache: NxWorkspaceCache

    ghost predicate Valid()
      reads this, cache
    {
      && cache.Valid()
      && (deadline.Some? ==> clock < deadline.value <= clock + DebounceMs)
      && (forall r :: 0 <= r < |runs| ==> runs[r].computation < |cache.comps|)
    }

    constructor (cache: NxWorkspaceCache, now: int)
      requires cache.Valid()
      ensures Valid() && this.cache == cache
      ensures deadline == None && clock == now && runs == [] && log == []
    {
      this.cache := cache;
      deadline, clock, runs, log := None, now, [], [];
    }

    /** `refresh.next()`: opens a window, or restarts the one pending. A due window must have fired first. */
    method Signal(now: int)
      requires Valid() && clock <= now
      requires deadline.None? || now < deadline.value
      modifies this
      ensures Valid()
      ensures deadline == Some(now + DebounceMs) && clock == now
      ensures runs == old(runs) && log == old(log)
    {
      clock := now;
      deadline := Some(now + DebounceMs);
    }

    /** The callback registered for 'nxConsole.refreshWorkspace': one signal and nothing else. */
    method RefreshWorkspace(now: int)
      requires Valid() && clock <= now
      requires deadline.None? || now < deadline.value
      modifies this
      ensures Valid()
      ensures deadline == Some(now + DebounceMs) && clock == now
      ensures runs == old(runs) && log == old(log)
    {
      Signal(now);
    }

    /**
     * Time passes to `now`. A window that is due fires: the handler starts
     * and calls `nxWorkspace(true)`, which always starts a workspace run;
     * the handler then awaits that run.
     */
    method Tick(now: int, stored: Option<string>) returns (fired: bool)
      requires Valid() && clock <= now
      modifies this, cache
      ensures Valid() && clock == now
      ensures fired <==> old(deadline).Some? && old(deadline).value <= now
      ensures fired ==>
        && deadline == None
        && cache.Model() == RequestStep(old(cache.Model()), true, stored).next
        && runs == old(runs) + [HandlerRun(old(deadline).value, |old(cache.comps)|, Awaiting)]
        && log == old(log) + [ResetRequested(|old(runs)|)]
      ensures !fired ==>
        deadline == old(deadline) && runs == old(runs) && log == old(log) && cache.Model() == old(cache.Model())
    {
      clock := now;
      fired := deadline.Some? && deadline.value <= now;
      if fired {
        var due := deadline.value;
        deadline := None;
        var w := cache.Request(true, stored);
        log := log + [ResetRequested(|runs|)];
        runs := runs + [HandlerRun(due, w.k, Awaiting)];
      }
    }

    /**
     * Handler run `r` continues after its `await nxWorkspace(true)`, if that
     * has settled: on a value it executes the three commands in order; on a
     * rejection it ends and executes none.
     */
    method Resume(r: nat) returns (resumed: bool)
      requires Valid()
      modifies this
      ensures Valid() && deadline == old(deadline) && clock == old(clock)
      ensures resumed <==>
        r < |old(runs)| && old(runs)[r].state == Awaiting && cache.comps[old(runs)[r].computation].outcome.Some?
      ensures resumed ==>
        var outcome := cache.comps[old(runs)[r].computation].outcome.value;
        && runs == old(runs)[r := old(runs)[r].(state := if outcome.Resolved? then Notified else Failed)]
        && log == old(log) + (if outcome.Resolved? then FanOut() else [])
      ensures !resumed ==> runs == old(runs) && log == old(log)
    {
      resumed := r < |runs| && runs[r].state == Awaiting && cache.comps[runs[r].computation].outcome.Some?;
      if resumed {
        var outcome := cache.comps[runs[r].computation].outcome.value;
        if outcome.Resolved? {
          runs := runs[r := runs[r].(state := Notified)];
          log := log + [Executed(RefreshNxProjectsTree)];
          log := log + [Executed(RefreshRunTargetTree)];
          log := log + [Executed(GraphRefresh)];
        } else {
          runs := runs[r := runs[r].(state := Failed)];
        }
      }
    }

    /** Time passes to `now`, a window due by then fires, and then a signal arrives at `now`. */
    method SignalAt(now: int, stored: Option<string>)
      requires Valid() && clock <= now
      modifies this, cache
      ensures Valid() && deadline == Some(now + DebounceMs) && clock == now
      ensures FireTimes(runs) == FireTimes(old(runs))
        + (if old(deadline).Some? && old(deadline).value <= now then [old(deadline).value] else [])
    {
      ghost var before := runs;
      var fired := Tick(now, stored);
      if fired {
        FireTimesAppend(before, runs[|runs| - 1]);
      }
      Signal(now);
    }

    /**
     * Signals at the ascending times `signals`, the timer firing on time in
     * between: the windows closed so far have fired and the last one is pending.
     */
    method SignalEach(signals: seq<int>, stored: Option<string>)
      requires Valid() && deadline == None && Sorted(signals)
      requires signals != [] && clock <= signals[0]
      modifies this, cache
      ensures Valid()
      ensures deadline == Some(signals[|signals| - 1] + DebounceMs) && clock == signals[|signals| - 1]
      ensures FireTimes(runs) == FireTimes(old(runs)) + Closed(signals, |signals|)
    {
      SignalAt(signals[0], stored);
      var i := 1;
      while i < |signals|
        invariant 1 <= i <= |signals|
        invariant Valid()
        invariant deadline == Some(signals[i - 1] + DebounceMs) && clock == signals[i - 1]
        invariant FireTimes(runs) == FireTimes(old(runs)) + Closed(signals, i)
      {
        SignalAt(signals[i], stored);
        ConcatAssoc(FireTimes(old(runs)), Closed(signals, i),
          if signals[i - 1] + DebounceMs <= signals[i] then [signals[i - 1] + DebounceMs] else []);
        i := i + 1;
      }
    }

    /**
     * Signals at the ascending times `signals`, with the timer firing on
     * time in between and after the last one: the handler starts exactly
     * at the times `DebounceFires(signals)`.
     */
    method SignalsAt(signals: seq<int>, stored: Option<string>)
      requires Valid() && deadline == None && Sorted(signals)
      requires signals != [] ==> clock <= signals[0]
      modifies this, cache
      ensures Valid()
      ensures FireTimes(runs) == FireTimes(old(runs)) + DebounceFires(signals)
    {
      if signals == [] {
        assert FireTimes(runs) + [] == FireTimes(runs);
        return;
      }
      SignalEach(signals, stored);
      ghost var before := runs;
      var last := signals[|signals| - 1] + DebounceMs;
      var fired := Tick(last, stored);
      FireTimesAppend(before, runs[|runs| - 1]);
      ConcatAssoc(FireTimes(old(runs)), Closed(signals, |signals|), [last]);
    }
  }

  /**
   * A client: a signal during a handler run that still awaits its workspace
   * opens a new window whose handler starts beside the first; both await,
   * each on its own workspace run.
   */
  method OverlappingRuns() returns (refresher: Refresher)
    ensures refresher.Valid()
    ensures |refresher.runs| == 2
    ensures refresher.runs[0].state == Awaiting && refresher.runs[1].state == Awaiting
    ensures refresher.runs[0].computation == 0 && refresher.runs[1].computation == 1
    ensures refresher.cache.comps[0].outcome.None? && refresher.cache.comps[1].outcome.None?
    ensures refresher.log == [ResetRequested(0), ResetRequested(1)]
  {
    var cache := new NxWorkspaceCache();
    refresher := new Refresher(cache, 0);
    refresher.Signal(0);
    var first := refresher.Tick(150, None);
    refresher.Signal(200);
    var second := refresher.Tick(350, None);
  }
}
