/**
 * The collector (pkg/collector/start.go): it owns the monitors built from its
 * configuration, plus a monitor of its own pprof server when self-telemetry
 * is configured, and starts, shuts down and reloads them together.
 *
 * The HTTP server, the readiness poll, the logger, the lock and the
 * goroutines of the error group are not modelled; whether the server's own
 * shutdown succeeds is a parameter.
 */
module Collector {
  import opened Wrappers
  import opened Text
  import opened Config
  import opened Monitor

  /** The internal pprof server, known by the address it listens on. */
  class PprofServer {
    const addr: string

    constructor (addr: string)
      ensures this.addr == addr
    {
      this.addr := addr;
    }
  }

  /** `127.0.0.1:<port>`, where the internal pprof server listens. */
  function SelfAddr(st: SelfTelemetryConfig): string
  {
    "127.0.0.1:" + FormatInt(st.pprofPort)
  }

  /**
   * The monitor of the collector's own pprof server: every kind but trace,
   * each every `intervalSeconds`, labelled namespace "self", name "self".
   */
  function SelfMonitorConfig(st: SelfTelemetryConfig): MonitorConfig
  {
    var every := Some(st.intervalSeconds);
    MonitorConfig("__self", "http://" + SelfAddr(st), map["namespace" := "self", "name" := "self"],
                  Sampling(every, every, every, every, every, every, every, None, ""))
  }

  /** The configurations of the monitors Start builds: the self monitor first, when configured. */
  function MonitorConfigs(cfg: CollectorConfig): seq<MonitorConfig>
  {
    (if cfg.selfTelemetry.Some? then [SelfMonitorConfig(cfg.selfTelemetry.value)] else []) + cfg.monitors
  }

  /** Every configured monitor can be planned (see `Monitor.MutexOk`). */
  predicate ConfigOk(cfg: CollectorConfig)
  {
    forall i :: 0 <= i < |cfg.monitors| ==> MutexOk(cfg.monitors[i].sampling)
  }

  function ConfigsOf(ms: seq<Monitor>): (cs: seq<MonitorConfig>)
    ensures |cs| == |ms|
    ensures forall i :: 0 <= i < |ms| ==> cs[i] == ms[i].config
  {
    if ms == [] then [] else [ms[0].config] + ConfigsOf(ms[1..])
  }

  predicate Distinct(ms: seq<Monitor>)
  {
    forall i, j :: 0 <= i < j < |ms| ==> ms[i] != ms[j]
  }

  function Stoppers(ms: seq<Monitor>): set<Channel>
    reads ms
  {
    set i | 0 <= i < |ms| && ms[i].stopper != null :: ms[i].stopper
  }

  function Cancels(ms: seq<Monitor>): set<CancelFunc>
    reads ms
  {
    set i | 0 <= i < |ms| && ms[i].ca != null :: ms[i].ca
  }

  /**
   * The monitors can all be shut down by `Monitor.Shutdown` as written, which
   * closes its channel unconditionally, without closing a channel twice:
   * distinct monitors, distinct stop channels, none closed yet.
   */
  predicate CanShutdownAll(ms: seq<Monitor>)
    reads ms, Stoppers(ms)
  {
    && Distinct(ms)
    && (forall i, j :: 0 <= i < j < |ms| && ms[i].stopper != null ==> ms[i].stopper != ms[j].stopper)
    && (forall i :: 0 <= i < |ms| && ms[i].stopper != null ==> !ms[i].stopper.closed)
  }

  /** All of a collector's monitors are launched, in the sense of `Monitor.Launched`. */
  predicate AllLaunched(ms: seq<Monitor>)
    reads ms, Stoppers(ms), Cancels(ms)
  {
    forall i :: 0 <= i < |ms| ==> ms[i].Launched()
  }

  lemma SelfMonitorOk(st: SelfTelemetryConfig)
    ensures MutexOk(SelfMonitorConfig(st).sampling)
    ensures ValidUrl(SelfMonitorConfig(st).endpoint)
  {
    var n := FormatInt(st.pprofPort);
    var e := SelfMonitorConfig(st).endpoint;
    assert e == "http://127.0.0.1:" + n;
    forall i | 0 <= i < |e|
      ensures !IsControl(e[i])
    {
      if i >= |"http://127.0.0.1:"| {
        assert e[i] == n[i - |"http://127.0.0.1:"|];
      }
    }
  }

  /** The self monitor requests all seven kinds, each every `intervalSeconds`, and that cannot fail. */
  lemma SelfMonitorRequestsEverything(st: SelfTelemetryConfig)
    ensures MutexOk(SelfMonitorConfig(st).sampling)
    ensures RequestsFromMonitorConfig(SelfMonitorConfig(st)).Ok?
    ensures ProfileTypes(RequestsFromMonitorConfig(SelfMonitorConfig(st)).value) == Kinds
  {
    var m := SelfMonitorConfig(st);
    SelfMonitorOk(st);
    RequestsFailOnlyForBadEndpoint(m);
    var plan := Plan(m.sampling);
    PlanKindNames(m.sampling);
    EnabledAll(plan);
    assert Enabled(plan) == Kinds;
  }

  /** Every monitor Start builds can be planned. */
  lemma MonitorConfigsOk(cfg: CollectorConfig)
    requires ConfigOk(cfg)
    ensures forall i :: 0 <= i < |MonitorConfigs(cfg)| ==> MutexOk(MonitorConfigs(cfg)[i].sampling)
  {
    if cfg.selfTelemetry.Some? {
      SelfMonitorOk(cfg.selfTelemetry.value);
    }
  }

  /** One new, not yet started monitor per configuration, in order. */
  method NewMonitors(cfgs: seq<MonitorConfig>) returns (ms: seq<Monitor>)
    ensures ConfigsOf(ms) == cfgs
    ensures Distinct(ms)
    ensures forall i :: 0 <= i < |ms| ==> fresh(ms[i]) && ms[i].stopper == null && ms[i].ca == null && ms[i].workers == []
  {
    ms := [];
    for i := 0 to |cfgs|
      invariant |ms| == i
      invariant forall k :: 0 <= k < i ==> ms[k].config == cfgs[k]
      invariant Distinct(ms)
      invariant forall k :: 0 <= k < i ==> fresh(ms[k]) && ms[k].stopper == null && ms[k].ca == null && ms[k].workers == []
    {
      var m := new Monitor(cfgs[i]);
      ms := ms + [m];
    }
  }

  /** Starts each monitor in turn; a monitor that fails to start stays as it was. */
  method StartAll(ms: seq<Monitor>)
    requires Distinct(ms)
    requires forall i :: 0 <= i < |ms| ==> MutexOk(ms[i].config.sampling)
    requires forall i :: 0 <= i < |ms| ==> ms[i].stopper == null && ms[i].ca == null && ms[i].workers == []
    modifies ms
    ensures AllLaunched(ms)
    ensures CanShutdownAll(ms)
    ensures forall i :: 0 <= i < |ms| && ms[i].stopper != null ==> fresh(ms[i].stopper)
    ensures forall i :: 0 <= i < |ms| && ms[i].ca != null ==> fresh(ms[i].ca)
  {
    // Which monitor each stop channel belongs to: channels of different monitors differ.
    ghost var owner: map<Channel, int> := map[];
    for i := 0 to |ms|
      invariant forall k :: 0 <= k < i ==>
                  ms[k].Launched() && (ms[k].stopper != null ==> fresh(ms[k].stopper) && fresh(ms[k].ca))
      invariant forall k :: i <= k < |ms| ==> ms[k].stopper == null && ms[k].ca == null && ms[k].workers == []
      invariant forall k :: 0 <= k < i && ms[k].stopper != null ==> ms[k].stopper in owner && owner[ms[k].stopper] == k
    {
      var _ := ms[i].Start();
      if ms[i].stopper != null {
        owner := owner[ms[i].stopper := i];
      }
    }
    forall a, b | 0 <= a < b < |ms| && ms[a].stopper != null
      ensures ms[a].stopper != ms[b].stopper
    {
      if ms[b].stopper != null {
        assert owner[ms[a].stopper] == a && owner[ms[b].stopper] == b;
      }
    }
  }

  class Collector {
    var Config: CollectorConfig
    var pprofServer: PprofServer?
    var Monitors: seq<Monitor>

    /** `NewCollector`: no monitors and no pprof server yet. */
    constructor (cfg: CollectorConfig)
      ensures Config == cfg && pprofServer == null && Monitors == []
    {
      Config, pprofServer, Monitors := cfg, null, [];
    }

    /**
     * Builds the monitors anew from the configuration, the self monitor first
     * when self-telemetry is configured (with a new pprof server, which must
     * not exist yet), and starts each of them, ignoring their errors.
     */
    method Start() returns (err: Option<string>)
      requires Config.selfTelemetry.Some? ==> pprofServer == null
      requires ConfigOk(Config)
      modifies this
      ensures err.None?
      ensures Config == old(Config)
      ensures Config.selfTelemetry.Some? ==>
                fresh(pprofServer) && pprofServer.addr == SelfAddr(Config.selfTelemetry.value)
      ensures Config.selfTelemetry.None? ==> pprofServer == old(pprofServer)
      ensures ConfigsOf(Monitors) == MonitorConfigs(Config)
      ensures forall i :: 0 <= i < |Monitors| ==> fresh(Monitors[i])
      ensures forall i :: 0 <= i < |Monitors| && Monitors[i].stopper != null ==> fresh(Monitors[i].stopper)
      ensures forall i :: 0 <= i < |Monitors| && Monitors[i].ca != null ==> fresh(Monitors[i].ca)
      ensures AllLaunched(Monitors) && CanShutdownAll(Monitors)
    {
      if Config.selfTelemetry.Some? {
        pprofServer := new PprofServer(SelfAddr(Config.selfTelemetry.value));
      }
      MonitorConfigsOk(Config);
      var mons := NewMonitors(MonitorConfigs(Config));
      Monitors := mons;
      StartAll(mons);
      return None;
    }

    /**
     * Shuts every monitor down, and the pprof server when there is one; the
     * server is dropped only when its shutdown succeeds, whose error is the
     * only one returned. The monitors stay in `Monitors`, so after a failed
     * server shutdown their channels are closed already: each monitor is shut
     * down with `GuardedShutdown`, which tolerates that (see
     * `FailedReloadClosesSelfMonitor` for the unguarded case).
     */
    method Shutdown(serverShutdownOk: bool) returns (err: Option<string>)
      modifies this, Stoppers(Monitors), Cancels(Monitors)
      ensures Config == old(Config) && Monitors == old(Monitors)
      ensures forall i :: 0 <= i < |Monitors| && Monitors[i].stopper != null ==> Monitors[i].stopper.closed
      ensures forall i :: 0 <= i < |Monitors| && Monitors[i].ca != null ==> Monitors[i].ca.called
      ensures old(pprofServer) == null ==> err.None? && pprofServer == null
      ensures old(pprofServer) != null ==>
                && (err.None? <==> serverShutdownOk)
                && pprofServer == (if serverShutdownOk then null else old(pprofServer))
    {
      for i := 0 to |Monitors|
        invariant Config == old(Config) && Monitors == old(Monitors) && pprofServer == old(pprofServer)
        invariant forall k :: 0 <= k < i && Monitors[k].stopper != null ==> Monitors[k].stopper.closed
        invariant forall k :: 0 <= k < i && Monitors[k].ca != null ==> Monitors[k].ca.called
      {
        var _ := Monitors[i].GuardedShutdown();
      }
      err := None;
      if pprofServer != null {
        if serverShutdownOk {
          pprofServer := null;
        } else {
          err := Some("error shutting down pprof server");
        }
      }
    }

    /**
     * Shuts down, and only if that succeeds takes the new configuration and
     * starts again.
     */
    method Reload(cfg: CollectorConfig, serverShutdownOk: bool) returns (err: Option<string>)
      requires ConfigOk(cfg)
      modifies this, Stoppers(Monitors), Cancels(Monitors)
      ensures forall i :: 0 <= i < |old(Monitors)| && old(Monitors)[i].stopper != null ==> old(Monitors)[i].stopper.closed
      ensures old(pprofServer) != null && !serverShutdownOk ==>
                err.Some? && Config == old(Config) && Monitors == old(Monitors) && pprofServer == old(pprofServer)
      ensures old(pprofServer) == null || serverShutdownOk ==>
                && err.None? && Config == cfg
                && ConfigsOf(Monitors) == MonitorConfigs(cfg)
                && (forall i :: 0 <= i < |Monitors| ==> fresh(Monitors[i]))
                && (forall i :: 0 <= i < |Monitors| && Monitors[i].stopper != null ==> fresh(Monitors[i].stopper))
                && (forall i :: 0 <= i < |Monitors| && Monitors[i].ca != null ==> fresh(Monitors[i].ca))
                && AllLaunched(Monitors) && CanShutdownAll(Monitors)
                && (cfg.selfTelemetry.Some? ==> fresh(pprofServer) && pprofServer.addr == SelfAddr(cfg.selfTelemetry.value))
                && (cfg.selfTelemetry.None? ==> pprofServer == null)
    {
      err := Shutdown(serverShutdownOk);
      if err.Some? {
        return;
      }
      Config := cfg;
      err := Start();
    }
  }

  /**
   * The collector lifecycle test: for a base and an incoming configuration,
   * Start, then Reload, then Shutdown all succeed when the pprof server
   * shuts down cleanly.
   */
  method LifecycleTest(base: CollectorConfig, incoming: CollectorConfig)
    returns (started: Option<string>, reloaded: Option<string>, stopped: Option<string>)
    requires ConfigOk(base) && ConfigOk(incoming)
    ensures started.None? && reloaded.None? && stopped.None?
  {
    var c := new Collector(base);
    started := c.Start();
    reloaded := c.Reload(incoming, true);
    stopped := c.Shutdown(true);
  }

  /**
   * A Reload whose pprof server shutdown fails returns its error and keeps
   * the old monitors, with their stop channels closed. The self monitor,
   * first in the list, has one, so the next Reload or Shutdown that the
   * command's loop issues would call the unguarded `Monitor.Shutdown` on a
   * closed channel, which panics in the source.
   */
  method FailedReloadClosesSelfMonitor(base: CollectorConfig, incoming: CollectorConfig)
    returns (reloadErr: Option<string>, selfStopperClosed: bool, canShutdownAgain: bool)
    requires ConfigOk(base) && base.selfTelemetry.Some? && ConfigOk(incoming)
    ensures reloadErr.Some? && selfStopperClosed && !canShutdownAgain
  {
    var c := new Collector(base);
    var _ := c.Start();
    SelfMonitorRequestsEverything(base.selfTelemetry.value);
    assert c.Monitors[0].config == SelfMonitorConfig(base.selfTelemetry.value);
    assert c.Monitors[0].Launched();
    reloadErr := c.Reload(incoming, false);
    var self := c.Monitors[0];
    selfStopperClosed := self.stopper != null && self.stopper.closed;
    canShutdownAgain := CanShutdownAll(c.Monitors);
  }

  /**
   * With the guarded shutdown, the command's loop recovers from that failure:
   * after a failed Reload, the next Reload and the final Shutdown succeed.
   */
  method RetryAfterFailedReload(base: CollectorConfig, incoming: CollectorConfig)
    returns (failed: Option<string>, retried: Option<string>, stopped: Option<string>)
    requires ConfigOk(base) && base.selfTelemetry.Some? && ConfigOk(incoming)
    ensures failed.Some? && retried.None? && stopped.None?
  {
    var c := new Collector(base);
    var _ := c.Start();
    failed := c.Reload(incoming, false);
    retried := c.Reload(incoming, true);
    stopped := c.Shutdown(true);
  }
}
