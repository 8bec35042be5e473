/**
 * The auto-destroy state machine: a monitor timer that checks the game server
 * for players, and a teardown timer that, while it runs, tears the instance
 * down in the background at twice the monitor's period.
 *
 * `SchedulerState` records which of the two timers is running; the step
 * functions say what each event does to it, and the classes `Timer` and
 * `AutoDestroy` are the two timer objects the events start and stop.
 */
module Scheduler {
  import opened Wrappers
  import opened Cloud
  import opened Host

  /** The monitor's period in milliseconds (ten minutes); the teardown's is twice that. */
  const IdleCheckInterval: nat := 10 * 60 * 1000

  /** What the fallback `get_host_status()` of a tick gave: a server or none, or an exception. */
  datatype Lookup = Found(server: Option<Server>) | LookupError

  /** What the tick's game status query gave: a player count, or an exception. */
  datatype Observation = Reachable(players: nat) | QueryFailed(lookup: Lookup)

  datatype SchedulerState = SchedulerState(monitoringEnabled: bool, teardownArmed: bool)

  /** Teardown only counts down while the monitor runs. */
  predicate Inv(s: SchedulerState) {
    s.teardownArmed ==> s.monitoringEnabled
  }

  /** Both timers exist and neither runs until the process starts the monitor. */
  const Initial := SchedulerState(false, false)

  /** Process start: only the monitor is started. */
  function StartUp(s: SchedulerState): SchedulerState {
    s.(monitoringEnabled := true)
  }

  /**
   * The guard of the failed-query path as written: it compares the whole
   * `(status, ip)` tuple with the string "destroyed".
   */
  predicate NotDestroyedAsWritten(h: HostStatus) {
    AsPython(h) != PyStr(Destroyed)
  }

  /** One monitor tick, as the code is written. */
  function Tick(s: SchedulerState, obs: Observation): SchedulerState {
    match obs
    case Reachable(players) =>
      if players > 0 then s.(teardownArmed := false)
      else if !s.teardownArmed then s.(teardownArmed := true)
      else s
    case QueryFailed(Found(server)) =>
      if NotDestroyedAsWritten(GetHostStatus(server)) && !s.teardownArmed then s.(teardownArmed := true)
      else s
    case QueryFailed(LookupError) =>
      s
  }

  /**
   * INTENDED VARIANT, not the code as written: the failed-query path compares
   * the status string, so a missing server never arms teardown.
   */
  function TickIntended(s: SchedulerState, obs: Observation): SchedulerState {
    match obs
    case QueryFailed(Found(server)) =>
      if GetHostStatus(server).status != Destroyed && !s.teardownArmed then s.(teardownArmed := true)
      else s
    case _ =>
      Tick(s, obs)
  }

  /** The operator's auto-destroy toggle. */
  function Toggle(s: SchedulerState): SchedulerState {
    if s.monitoringEnabled then SchedulerState(false, false)
    else s.(monitoringEnabled := true)
  }

  /** A destroy that ran to its end stops the teardown. */
  function DestroyCompleted(s: SchedulerState): SchedulerState {
    s.(teardownArmed := false)
  }

  lemma BootState()
    ensures StartUp(Initial) == SchedulerState(true, false) && Inv(StartUp(Initial))
  {
  }

  /** Players online: teardown ends up stopped, whatever it was; the monitor is untouched. */
  lemma TickWithPlayersDisarms(s: SchedulerState, players: nat)
    requires players > 0
    ensures Tick(s, Reachable(players)) == SchedulerState(s.monitoringEnabled, false)
  {
  }

  /** No players: teardown ends up running; if it already ran, nothing at all changes. */
  lemma TickWithoutPlayersArms(s: SchedulerState)
    ensures Tick(s, Reachable(0)) == SchedulerState(s.monitoringEnabled, true)
    ensures s.teardownArmed ==> Tick(s, Reachable(0)) == s
  {
  }

  /** As written, a failed query arms teardown whatever the host lookup found, a missing server included. */
  lemma FailedQueryArmsWithoutServer(s: SchedulerState, server: Option<Server>)
    ensures Tick(s, QueryFailed(Found(server))) == SchedulerState(s.monitoringEnabled, true)
  {
    TupleIsNeverAString(GetHostStatus(server), Destroyed);
  }

  /** A host lookup that raises ends the tick before any timer is touched. */
  lemma FailedLookupChangesNothing(s: SchedulerState)
    ensures Tick(s, QueryFailed(LookupError)) == s
  {
  }

  /** The tick never starts or stops the monitor. */
  lemma TickKeepsMonitoring(s: SchedulerState, obs: Observation)
    ensures Tick(s, obs).monitoringEnabled == s.monitoringEnabled
    ensures TickIntended(s, obs).monitoringEnabled == s.monitoringEnabled
  {
  }

  /** Repeating an observation changes nothing more: a running countdown is never restarted. */
  lemma TickIdempotent(s: SchedulerState, obs: Observation)
    ensures Tick(Tick(s, obs), obs) == Tick(s, obs)
  {
  }

  /** The intended guard: a missing server never arms teardown, an existing one does. */
  lemma TickIntendedSparesAbsentServer(s: SchedulerState, server: Option<Server>)
    ensures TickIntended(s, QueryFailed(Found(None))) == s
    ensures server.Some? && server.value.status != Destroyed ==>
              TickIntended(s, QueryFailed(Found(server))).teardownArmed
  {
  }

  /** Toggling with the monitor on stops both timers; with it off, starts only the monitor. */
  lemma ToggleRules(s: SchedulerState)
    requires Inv(s)
    ensures s.monitoringEnabled ==> Toggle(s) == SchedulerState(false, false)
    ensures !s.monitoringEnabled ==> Toggle(s) == SchedulerState(true, false)
  {
  }

  /** Off then on (or on then off) comes back with teardown stopped, never straight to a countdown. */
  lemma ToggleTwice(s: SchedulerState)
    requires Inv(s)
    ensures Toggle(Toggle(s)) == SchedulerState(s.monitoringEnabled, false)
  {
  }

  /** Ticks (which run only while the monitor runs), toggles and destroy completion keep the invariant. */
  lemma StepsKeepInv(s: SchedulerState, obs: Observation)
    requires Inv(s)
    ensures s.monitoringEnabled ==> Inv(Tick(s, obs)) && Inv(TickIntended(s, obs))
    ensures Inv(Toggle(s)) && Inv(DestroyCompleted(s))
    ensures !s.monitoringEnabled ==> Inv(StartUp(s))
  {
  }

  // ---------------------------------------------------------------------------
  // Runs of events

  datatype Event =
    | MonitorFires(obs: Observation)
    | TeardownFires
    | ToggleAutoDestroy
    | ManualDestroy
    | DestroyFinished(succeeded: bool)

  /**
   * A stopped timer does not fire; a teardown firing and a manual destroy only
   * launch a destroy in the background (the teardown keeps running); a destroy
   * that fails part way never reaches the statement that stops the teardown.
   */
  function Step(s: SchedulerState, e: Event): SchedulerState {
    match e
    case MonitorFires(obs) => if s.monitoringEnabled then Tick(s, obs) else s
    case TeardownFires => s
    case ToggleAutoDestroy => Toggle(s)
    case ManualDestroy => s
    case DestroyFinished(succeeded) => if succeeded then DestroyCompleted(s) else s
  }

  /** The destroys the teardown timer launches in event `e`. */
  function Launched(s: SchedulerState, e: Event): nat {
    if e.TeardownFires? && s.teardownArmed then 1 else 0
  }

  function Run(s: SchedulerState, es: seq<Event>): SchedulerState
    decreases |es|
  {
    if es == [] then s else Run(Step(s, es[0]), es[1..])
  }

  function Launches(s: SchedulerState, es: seq<Event>): nat
    decreases |es|
  {
    if es == [] then 0 else Launched(s, es[0]) + Launches(Step(s, es[0]), es[1..])
  }

  /** The events that can start the teardown timer. */
  predicate Arms(e: Event) {
    e == MonitorFires(Reachable(0)) || (e.MonitorFires? && e.obs.QueryFailed? && e.obs.lookup.Found?)
  }

  /** Teardown runs only while the monitor runs, after any run of events. */
  lemma {:induction false} RunKeepsInv(s: SchedulerState, es: seq<Event>)
    requires Inv(s)
    ensures Inv(Run(s, es))
    decreases |es|
  {
    if es != [] {
      RunKeepsInv(Step(s, es[0]), es[1..]);
    }
  }

  /** With teardown stopped and no event that could start it, teardown never launches a destroy. */
  lemma {:induction false} NoArmingNoLaunch(s: SchedulerState, es: seq<Event>)
    requires !s.teardownArmed
    requires forall k :: 0 <= k < |es| ==> !Arms(es[k])
    ensures !Run(s, es).teardownArmed
    ensures Launches(s, es) == 0
    decreases |es|
  {
    if es != [] {
      assert !Arms(es[0]);
      var t := Step(s, es[0]);
      assert !t.teardownArmed;
      forall k | 0 <= k < |es[1..]| ensures !Arms(es[1..][k]) {
        assert es[1..][k] == es[k + 1];
      }
      NoArmingNoLaunch(t, es[1..]);
    }
  }

  /** A tick that sees players cancels the countdown: nothing is torn down until something re-arms it. */
  lemma PlayersPreventTeardown(s: SchedulerState, players: nat, es: seq<Event>)
    requires Inv(s) && players > 0
    requires forall k :: 0 <= k < |es| ==> !Arms(es[k])
    ensures Launches(s, [MonitorFires(Reachable(players))] + es) == 0
    ensures !Run(s, [MonitorFires(Reachable(players))] + es).teardownArmed
  {
    var all := [MonitorFires(Reachable(players))] + es;
    assert all[0] == MonitorFires(Reachable(players)) && all[1..] == es;
    NoArmingNoLaunch(Step(s, all[0]), es);
  }

  /** `n` rounds of a teardown firing and its destroy failing. */
  function FailedRounds(n: nat): seq<Event> {
    if n == 0 then [] else [TeardownFires, DestroyFinished(false)] + FailedRounds(n - 1)
  }

  /** The teardown is periodic: while destroys fail, it stays armed and fires again every round. */
  lemma {:induction false} TeardownRepeatsWhileDestroyFails(s: SchedulerState, n: nat)
    requires s.teardownArmed
    ensures Launches(s, FailedRounds(n)) == n
    ensures Run(s, FailedRounds(n)) == s
  {
    if n > 0 {
      var rest := FailedRounds(n - 1);
      var all := [TeardownFires, DestroyFinished(false)] + rest;
      assert all[0] == TeardownFires && all[1..] == [DestroyFinished(false)] + rest;
      assert ([DestroyFinished(false)] + rest)[0] == DestroyFinished(false);
      assert ([DestroyFinished(false)] + rest)[1..] == rest;
      TeardownRepeatsWhileDestroyFails(s, n - 1);
    }
  }

  /** A failed game query after the server is gone. */
  const OrphanTick := MonitorFires(QueryFailed(Found(None)))

  /**
   * `n` teardown periods with the server gone: two monitor ticks whose query
   * fails (the teardown's period is twice the monitor's), then a teardown
   * firing whose destroy fails.
   */
  function OrphanRounds(n: nat): seq<Event> {
    if n == 0 then [] else [OrphanTick, OrphanTick, TeardownFires, DestroyFinished(false)] + OrphanRounds(n - 1)
  }

  /** With the server gone, the ticks between firings keep teardown armed, and it fires once per period. */
  lemma {:induction false} OrphanRoundsKeepTeardown(s: SchedulerState, n: nat)
    requires s.teardownArmed
    ensures Run(s, OrphanRounds(n)) == s
    ensures Launches(s, OrphanRounds(n)) == n
  {
    if n > 0 {
      FailedQueryArmsWithoutServer(s, None);
      assert Step(s, OrphanTick) == s;
      var rest := OrphanRounds(n - 1);
      var e3 := [DestroyFinished(false)] + rest;
      var e2 := [TeardownFires] + e3;
      var e1 := [OrphanTick] + e2;
      var all := [OrphanTick] + e1;
      assert OrphanRounds(n) == all;
      assert all[0] == OrphanTick && all[1..] == e1;
      assert e1[0] == OrphanTick && e1[1..] == e2;
      assert e2[0] == TeardownFires && e2[1..] == e3;
      assert e3[0] == DestroyFinished(false) && e3[1..] == rest;
      OrphanRoundsKeepTeardown(s, n - 1);
      assert Step(s, TeardownFires) == s && Launched(s, TeardownFires) == 1;
      assert Step(s, DestroyFinished(false)) == s && Launched(s, DestroyFinished(false)) == 0;
      assert Run(s, all) == Run(s, e1) == Run(s, e2) == Run(s, e3) == Run(s, rest);
      assert Launches(s, e3) == Launches(s, rest);
      assert Launches(s, e2) == 1 + Launches(s, e3);
      assert Launches(s, e1) == Launches(s, e2);
      assert Launches(s, all) == Launches(s, e1);
    }
  }

  /** Idle server: two ticks without players arm the teardown once, and its firing launches one destroy. */
  lemma IdleServerIsTornDown()
    ensures Launches(StartUp(Initial),
      [MonitorFires(Reachable(0)), MonitorFires(Reachable(0)), TeardownFires]) == 1
  {
  }

  /** As written, a failed query after the server is gone still arms teardown, which then fires. */
  lemma AbsentServerStillArms()
    ensures Launches(StartUp(Initial), [MonitorFires(QueryFailed(Found(None))), TeardownFires]) == 1
  {
    FailedQueryArmsWithoutServer(StartUp(Initial), None);
  }

  // ---------------------------------------------------------------------------
  // The timer objects

  /** A periodic callback: a period, and whether it is running. */
  class Timer {
    const period: nat
    var running: bool

    constructor (period: nat)
      ensures this.period == period && !running
    {
      this.period := period;
      running := false;
    }

    /** Every start made by the panel is on a stopped timer, so no countdown is ever restarted. */
    method Start()
      requires !running
      modifies this
      ensures running
    {
      running := true;
    }

    /** Stopping an already stopped timer is harmless. */
    method Stop()
      modifies this
      ensures !running
    {
      running := false;
    }
  }

  /** The two module-level timers: the idle monitor and the destroy countdown. */
  class AutoDestroy {
    const monitor: Timer
    const teardown: Timer

    function State(): SchedulerState
      reads monitor, teardown
    {
      SchedulerState(monitor.running, teardown.running)
    }

    ghost predicate Valid()
      reads monitor, teardown
    {
      monitor != teardown && teardown.period == 2 * monitor.period && Inv(State())
    }

    /** Creating the two callbacks at module load; neither runs yet. */
    constructor (interval: nat)
      ensures Valid() && fresh(monitor) && fresh(teardown)
      ensures monitor.period == interval
      ensures State() == Initial
    {
      monitor := new Timer(interval);
      teardown := new Timer(2 * interval);
    }

    /** Process start: `idle_callback.start()`. */
    method Boot()
      requires Valid() && !monitor.running
      modifies monitor
      ensures Valid()
      ensures State() == StartUp(old(State()))
    {
      monitor.Start();
    }

    /** `idle()`: the monitor fires only while it runs. */
    method Idle(obs: Observation)
      requires Valid() && monitor.running
      modifies teardown
      ensures Valid()
      ensures State() == Tick(old(State()), obs)
    {
      match obs {
        case Reachable(players) =>
          if players > 0 {
            teardown.Stop();
          } else if !teardown.running {
            teardown.Start();
          }
        case QueryFailed(lookup) =>
          match lookup {
            case LookupError =>
              // the exception leaves idle() before any timer is touched
            case Found(server) =>
              var status := GetHostStatus(server);
              if AsPython(status) != PyStr(Destroyed) && !teardown.running {
                teardown.Start();
              }
          }
      }
    }

    /** `AutoDestroyHandler.post` */
    method ToggleAutoDestroy()
      requires Valid()
      modifies monitor, teardown
      ensures Valid()
      ensures State() == Toggle(old(State()))
    {
      if monitor.running {
        monitor.Stop();
        teardown.Stop();
      } else {
        monitor.Start();
      }
    }

    /** The last statement of a destroy that got that far: `destroy_callback.stop()`. */
    method DestroyDone()
      requires Valid()
      modifies teardown
      ensures Valid()
      ensures State() == DestroyCompleted(old(State()))
    {
      teardown.Stop();
    }
  }

  /**
   * The process: the two callbacks created at module load with the ten-minute
   * interval, then `idle_callback.start()`.
   */
  method StartPanel() returns (panel: AutoDestroy)
    ensures fresh(panel.monitor) && fresh(panel.teardown)
    ensures panel.Valid()
    ensures panel.monitor.period == IdleCheckInterval && panel.teardown.period == 2 * IdleCheckInterval
    ensures panel.State() == StartUp(Initial) == SchedulerState(true, false)
  {
    panel := new AutoDestroy(IdleCheckInterval);
    panel.Boot();
  }
}
