/**
 * One scrape target of the collector (pkg/collector/monitor/monitor.go):
 * the pprof requests planned from its sampling configuration, the
 * Start/Shutdown state held in its stop channel and cancel function, and one
 * pass of the collection loop each request runs.
 *
 * The HTTP client, the goroutines and the clock are not modelled: a pass of
 * the loop is given what the request returned and when it started and ended.
 */
module Monitor {
  import opened Wrappers
  import opened Text
  import opened Config
  import Storage

  /** A planned scrape: the URL to GET and the profile type its response is stored under. */
  datatype Request = Request(url: string, profileType: string)

  /** `url.Parse` refuses ASCII control characters. */
  predicate IsControl(c: char) { c < ' ' || c == '\U{7F}' }

  predicate ValidUrl(s: string) { forall i :: 0 <= i < |s| ==> !IsControl(s[i]) }

  lemma ValidUrlAppend(a: string, b: string)
    ensures ValidUrl(a + b) <==> ValidUrl(a) && ValidUrl(b)
  {
    if ValidUrl(a + b) {
      assert forall i :: 0 <= i < |a| ==> a[i] == (a + b)[i];
      assert forall i :: 0 <= i < |b| ==> b[i] == (a + b)[|a| + i];
    }
  }

  /** The query suffix of a request: none for 0 seconds, `?seconds=N` otherwise. */
  function SecondsQuery(seconds: int): string
  {
    if seconds != 0 then "?seconds=" + FormatInt(seconds) else ""
  }

  /**
   * `constructRequest`: GET `endpoint/debug/pprof/suffix`, with `?seconds=N`
   * for a non-zero N; the profile type is the suffix.
   */
  function ConstructRequest(endpoint: string, suffix: string, seconds: int): (r: Result<Request>)
    ensures r.Ok? ==> r.value.profileType == suffix
    ensures r.Ok? ==> HasPrefix(r.value.url, endpoint + "/debug/pprof/" + suffix)
    ensures r.Err? <==> !ValidUrl(endpoint + "/debug/pprof/" + suffix + SecondsQuery(seconds))
  {
    var target := endpoint + "/debug/pprof/" + suffix + SecondsQuery(seconds);
    if !ValidUrl(target) then Err("net/url: invalid control character in URL")
    else Ok(Request(target, suffix))
  }

  /** The seconds a request URL asks for, read back from its query; 0 when there is none. */
  function QuerySeconds(url: string, prefix: string): Result<int>
  {
    if url == prefix then Ok(0)
    else if HasPrefix(url, prefix + "?seconds=") then ParseInt(url[|prefix + "?seconds="|..])
    else Err("no seconds query")
  }

  /** The request URL carries exactly the seconds it was built with. */
  lemma ConstructRequestSeconds(endpoint: string, suffix: string, seconds: int)
    requires MinInt64 <= seconds <= MaxInt64
    requires ConstructRequest(endpoint, suffix, seconds).Ok?
    ensures QuerySeconds(ConstructRequest(endpoint, suffix, seconds).value.url, endpoint + "/debug/pprof/" + suffix)
         == Ok(seconds)
  {
    var prefix := endpoint + "/debug/pprof/" + suffix;
    assert ConstructRequest(endpoint, suffix, seconds).value.url == prefix + SecondsQuery(seconds);
    QuerySecondsOf(prefix, seconds);
  }

  lemma QuerySecondsOf(prefix: string, seconds: int)
    requires MinInt64 <= seconds <= MaxInt64
    ensures QuerySeconds(prefix + SecondsQuery(seconds), prefix) == Ok(seconds)
  {
    if seconds == 0 {
      assert prefix + SecondsQuery(seconds) == prefix;
    } else {
      var q := prefix + "?seconds=";
      var url := prefix + SecondsQuery(seconds);
      assert url == q + FormatInt(seconds);
      assert |url| > |prefix|;
      assert url[..|q|] == q;
      assert url[|q|..] == FormatInt(seconds);
      ParseFormatInt(seconds);
    }
  }

  /** The Go code reads the Goroutine sampler for the mutex request, so a mutex sampler needs one. */
  predicate MutexOk(s: Sampling)
  {
    s.mutex.Some? ==> s.goroutine.Some?
  }

  /**
   * The profile kinds and seconds the monitor requests, in the code's fixed
   * order; `None` for a nil sampler. The mutex entry takes the Goroutine
   * sampler's seconds, the thread-creation kind is spelled "threadcrate", and
   * trace is never requested.
   */
  function Plan(s: Sampling): (p: seq<(string, Option<int>)>)
    requires MutexOk(s)
    ensures |p| == 7
  {
    [("allocs", s.allocs),
     ("block", s.block),
     ("goroutine", s.goroutine),
     ("heap", s.heap),
     ("mutex", if s.mutex.Some? then Some(s.goroutine.value) else None),
     ("profile", s.profile),
     ("threadcrate", s.threadCrate)]
  }

  /** The kinds of a plan that have a sampler, in plan order. */
  function Enabled(plan: seq<(string, Option<int>)>): seq<string>
  {
    if plan == [] then []
    else (if plan[0].1.Some? then [plan[0].0] else []) + Enabled(plan[1..])
  }

  /** The profile types of a list of requests. */
  function ProfileTypes(reqs: seq<Request>): (ts: seq<string>)
    ensures |ts| == |reqs|
    ensures forall i :: 0 <= i < |reqs| ==> ts[i] == reqs[i].profileType
  {
    if reqs == [] then [] else [reqs[0].profileType] + ProfileTypes(reqs[1..])
  }

  /**
   * One request per enabled plan entry, in order, or the first construction
   * error (the builder then returns no requests at all).
   */
  function BuildRequests(endpoint: string, plan: seq<(string, Option<int>)>): (r: Result<seq<Request>>)
    ensures r.Ok? ==> ProfileTypes(r.value) == Enabled(plan)
    decreases |plan|
  {
    if plan == [] then Ok([])
    else
      var first: Result<seq<Request>> :=
        if plan[0].1.None? then Ok([])
        else match ConstructRequest(endpoint, plan[0].0, plan[0].1.value)
             case Err(msg) => Err(msg)
             case Ok(req) => Ok([req]);
      match first
      case Err(msg) => Err(msg)
      case Ok(head) =>
        match BuildRequests(endpoint, plan[1..])
        case Err(msg) => Err(msg)
        case Ok(rest) => Ok(head + rest)
  }

  /** Building fails exactly when some enabled entry's request cannot be constructed. */
  lemma {:induction false} BuildRequestsErr(endpoint: string, plan: seq<(string, Option<int>)>)
    ensures BuildRequests(endpoint, plan).Err? <==>
              exists i :: 0 <= i < |plan| && plan[i].1.Some? && ConstructRequest(endpoint, plan[i].0, plan[i].1.value).Err?
    decreases |plan|
  {
    if plan != [] {
      var rest := plan[1..];
      BuildRequestsErr(endpoint, rest);
      if exists i :: 0 <= i < |rest| && rest[i].1.Some? && ConstructRequest(endpoint, rest[i].0, rest[i].1.value).Err? {
        var i :| 0 <= i < |rest| && rest[i].1.Some? && ConstructRequest(endpoint, rest[i].0, rest[i].1.value).Err?;
        assert plan[i + 1] == rest[i];
      }
      if exists i :: 0 <= i < |plan| && plan[i].1.Some? && ConstructRequest(endpoint, plan[i].0, plan[i].1.value).Err? {
        var i :| 0 <= i < |plan| && plan[i].1.Some? && ConstructRequest(endpoint, plan[i].0, plan[i].1.value).Err?;
        if i > 0 {
          assert rest[i - 1] == plan[i];
        }
      }
    }
  }

  /** `requestsFromMonitorConfig`. */
  function RequestsFromMonitorConfig(cfg: MonitorConfig): Result<seq<Request>>
    requires MutexOk(cfg.sampling)
  {
    BuildRequests(cfg.endpoint, Plan(cfg.sampling))
  }

  /** The seven kinds, in the order requests are issued. */
  const Kinds: seq<string> := ["allocs", "block", "goroutine", "heap", "mutex", "profile", "threadcrate"]

  lemma {:induction false} EnabledIsSubsequence(plan: seq<(string, Option<int>)>)
    ensures forall k :: k in Enabled(plan) ==> exists i :: 0 <= i < |plan| && plan[i].0 == k && plan[i].1.Some?
    decreases |plan|
  {
    if plan != [] {
      EnabledIsSubsequence(plan[1..]);
      forall k | k in Enabled(plan)
        ensures exists i :: 0 <= i < |plan| && plan[i].0 == k && plan[i].1.Some?
      {
        if !(plan[0].1.Some? && k == plan[0].0) {
          assert k in Enabled(plan[1..]);
          var i :| 0 <= i < |plan[1..]| && plan[1..][i].0 == k && plan[1..][i].1.Some?;
          assert plan[i + 1].0 == k;
        }
      }
    }
  }

  /** `[kind]` when the sampler is set, nothing otherwise. */
  function KindIf(sampler: Option<int>, kind: string): seq<string>
  {
    if sampler.Some? then [kind] else []
  }

  lemma {:induction false} EnabledAppend(a: seq<(string, Option<int>)>, b: seq<(string, Option<int>)>)
    ensures Enabled(a + b) == Enabled(a) + Enabled(b)
    decreases |a|
  {
    if a == [] {
      assert a + b == b;
    } else {
      assert (a + b)[1..] == a[1..] + b;
      EnabledAppend(a[1..], b);
    }
  }

  /** The enabled kinds of a plan: one per set sampler, in the fixed order. */
  lemma PlanKinds(s: Sampling)
    requires MutexOk(s)
    ensures Enabled(Plan(s))
         == KindIf(s.allocs, "allocs") + KindIf(s.block, "block") + KindIf(s.goroutine, "goroutine")
          + KindIf(s.heap, "heap") + KindIf(s.mutex, "mutex") + KindIf(s.profile, "profile")
          + KindIf(s.threadCrate, "threadcrate")
  {
    var plan := Plan(s);
    var e := seq(7, i requires 0 <= i < 7 => [plan[i]]);
    assert plan == e[0] + e[1] + e[2] + e[3] + e[4] + e[5] + e[6];
    EnabledAppend(e[0] + e[1] + e[2] + e[3] + e[4] + e[5], e[6]);
    EnabledAppend(e[0] + e[1] + e[2] + e[3] + e[4], e[5]);
    EnabledAppend(e[0] + e[1] + e[2] + e[3], e[4]);
    EnabledAppend(e[0] + e[1] + e[2], e[3]);
    EnabledAppend(e[0] + e[1], e[2]);
    EnabledAppend(e[0], e[1]);
    forall i | 0 <= i < 7
      ensures Enabled(e[i]) == KindIf(plan[i].1, plan[i].0)
    {
      assert e[i][1..] == [];
    }
  }

  /**
   * The requests are one per non-nil sampler, with the kinds in the fixed
   * order and the mutex kind present exactly when the Mutex sampler is set.
   */
  lemma RequestKinds(cfg: MonitorConfig)
    requires MutexOk(cfg.sampling) && RequestsFromMonitorConfig(cfg).Ok?
    ensures var s := cfg.sampling;
            (ProfileTypes(RequestsFromMonitorConfig(cfg).value)
             == KindIf(s.allocs, "allocs") + KindIf(s.block, "block") + KindIf(s.goroutine, "goroutine")
              + KindIf(s.heap, "heap") + KindIf(s.mutex, "mutex") + KindIf(s.profile, "profile")
              + KindIf(s.threadCrate, "threadcrate"))
  {
    PlanKinds(cfg.sampling);
  }

  lemma PlanKindNames(s: Sampling)
    requires MutexOk(s)
    ensures forall i :: 0 <= i < 7 ==> Plan(s)[i].0 == Kinds[i]
  {
  }

  /** Every request is for one of the seven kinds; trace is never requested. */
  lemma NoTraceRequest(cfg: MonitorConfig)
    requires MutexOk(cfg.sampling) && RequestsFromMonitorConfig(cfg).Ok?
    ensures forall r :: r in RequestsFromMonitorConfig(cfg).value ==> r.profileType in Kinds && r.profileType != "trace"
  {
    var plan := Plan(cfg.sampling);
    var reqs := RequestsFromMonitorConfig(cfg).value;
    EnabledIsSubsequence(plan);
    PlanKindNames(cfg.sampling);
    assert "trace" !in Kinds;
    forall r | r in reqs
      ensures r.profileType in Kinds
    {
      var j :| 0 <= j < |reqs| && reqs[j] == r;
      assert ProfileTypes(reqs)[j] in Enabled(plan);
    }
  }

  /** A monitor without samplers plans no requests, and that cannot fail. */
  lemma NoSamplingNoRequests(cfg: MonitorConfig)
    requires cfg.sampling == NoSampling
    ensures RequestsFromMonitorConfig(cfg) == Ok([])
  {
    var plan := Plan(cfg.sampling);
    assert forall i :: 0 <= i < |plan| ==> plan[i].1.None?;
    BuildRequestsNone(cfg.endpoint, plan);
  }

  /** With every sampler set, every kind of the plan is enabled, in plan order. */
  lemma {:induction false} EnabledAll(plan: seq<(string, Option<int>)>)
    requires forall i :: 0 <= i < |plan| ==> plan[i].1.Some?
    ensures |Enabled(plan)| == |plan|
    ensures forall i :: 0 <= i < |plan| ==> Enabled(plan)[i] == plan[i].0
    decreases |plan|
  {
    if plan != [] {
      var rest := plan[1..];
      assert forall j :: 0 <= j < |rest| ==> rest[j] == plan[j + 1];
      EnabledAll(rest);
    }
  }

  /** A plan with no sampler set yields no request. */
  lemma {:induction false} BuildRequestsNone(endpoint: string, plan: seq<(string, Option<int>)>)
    requires forall j :: 0 <= j < |plan| ==> plan[j].1.None?
    ensures BuildRequests(endpoint, plan) == Ok([])
    decreases |plan|
  {
    if plan != [] {
      var rest := plan[1..];
      assert forall j :: 0 <= j < |rest| ==> rest[j] == plan[j + 1];
      BuildRequestsNone(endpoint, rest);
      var none: seq<Request> := [];
      assert none + none == none;
    }
  }

  /** A plan with a single sampler set yields that one request, when it can be built. */
  lemma {:induction false} BuildRequestsOne(endpoint: string, plan: seq<(string, Option<int>)>, i: int, req: Request)
    requires 0 <= i < |plan| && plan[i].1.Some?
    requires forall j :: 0 <= j < |plan| && j != i ==> plan[j].1.None?
    requires ConstructRequest(endpoint, plan[i].0, plan[i].1.value) == Ok(req)
    ensures BuildRequests(endpoint, plan) == Ok([req])
    decreases |plan|
  {
    var rest := plan[1..];
    assert forall j :: 0 <= j < |rest| ==> rest[j] == plan[j + 1];
    if i == 0 {
      BuildRequestsNone(endpoint, rest);
      assert [req] + [] == [req];
    } else {
      BuildRequestsOne(endpoint, rest, i - 1, req);
      assert [] + [req] == [req];
    }
  }

  /** The request for the CPU profile over 5 seconds. */
  lemma ProfileRequestUrl(endpoint: string)
    ensures endpoint + "/debug/pprof/" + "profile" + SecondsQuery(5) == endpoint + "/debug/pprof/profile?seconds=5"
  {
    assert FormatInt(5) == "5";
    var q := "/debug/pprof/" + "profile" + SecondsQuery(5);
    assert q == "/debug/pprof/profile?seconds=5";
    assert endpoint + "/debug/pprof/" + "profile" + SecondsQuery(5) == endpoint + q;
  }

  /** The mutex request carries the Goroutine sampler's seconds, not the Mutex sampler's. */
  lemma MutexUsesGoroutineSeconds(cfg: MonitorConfig)
    requires MutexOk(cfg.sampling) && cfg.sampling.mutex.Some?
    requires RequestsFromMonitorConfig(cfg).Ok?
    ensures ConstructRequest(cfg.endpoint, "mutex", cfg.sampling.goroutine.value).Ok?
    ensures ConstructRequest(cfg.endpoint, "mutex", cfg.sampling.goroutine.value).value
            in RequestsFromMonitorConfig(cfg).value
  {
    var plan := Plan(cfg.sampling);
    RequestIn(cfg.endpoint, plan, 4);
  }

  lemma {:induction false} RequestIn(endpoint: string, plan: seq<(string, Option<int>)>, i: int)
    requires 0 <= i < |plan| && plan[i].1.Some?
    requires BuildRequests(endpoint, plan).Ok?
    ensures ConstructRequest(endpoint, plan[i].0, plan[i].1.value).Ok?
    ensures ConstructRequest(endpoint, plan[i].0, plan[i].1.value).value in BuildRequests(endpoint, plan).value
    decreases |plan|
  {
    var rest := BuildRequests(endpoint, plan[1..]);
    assert rest.Ok?;
    if i > 0 {
      RequestIn(endpoint, plan[1..], i - 1);
      assert plan[1..][i - 1] == plan[i];
    }
  }

  /** Construction fails exactly when the endpoint has a control character and some sampler is set. */
  lemma RequestsFailOnlyForBadEndpoint(cfg: MonitorConfig)
    requires MutexOk(cfg.sampling)
    ensures RequestsFromMonitorConfig(cfg).Err? <==> !ValidUrl(cfg.endpoint) && Enabled(Plan(cfg.sampling)) != []
  {
    var plan := Plan(cfg.sampling);
    BuildRequestsErr(cfg.endpoint, plan);
    PlanKindNames(cfg.sampling);
    forall i | 0 <= i < |plan| && plan[i].1.Some?
      ensures ConstructRequest(cfg.endpoint, plan[i].0, plan[i].1.value).Err? <==> !ValidUrl(cfg.endpoint)
    {
      ConstructRequestErr(cfg.endpoint, Kinds[i], plan[i].1.value);
    }
    EnabledNonEmpty(plan);
  }

  /** The request for a known kind is refused exactly when the endpoint has a control character. */
  lemma ConstructRequestErr(endpoint: string, kind: string, seconds: int)
    requires kind in Kinds
    ensures ConstructRequest(endpoint, kind, seconds).Err? <==> !ValidUrl(endpoint)
  {
    var withPrefix := endpoint + "/debug/pprof/";
    var withKind := withPrefix + kind;
    assert ValidUrl("/debug/pprof/");
    KindIsValid(kind);
    SecondsQueryIsValid(seconds);
    ValidUrlAppend(endpoint, "/debug/pprof/");
    ValidUrlAppend(withPrefix, kind);
    ValidUrlAppend(withKind, SecondsQuery(seconds));
  }

  lemma SecondsQueryIsValid(seconds: int)
    ensures ValidUrl(SecondsQuery(seconds))
  {
    if seconds != 0 {
      ValidUrlAppend("?seconds=", FormatInt(seconds));
    }
  }

  lemma KindIsValid(kind: string)
    requires kind in Kinds
    ensures ValidUrl(kind)
  {
  }

  lemma {:induction false} EnabledNonEmpty(plan: seq<(string, Option<int>)>)
    ensures Enabled(plan) != [] <==> exists i :: 0 <= i < |plan| && plan[i].1.Some?
    decreases |plan|
  {
    if plan != [] {
      EnabledNonEmpty(plan[1..]);
      if exists i :: 0 <= i < |plan[1..]| && plan[1..][i].1.Some? {
        var i :| 0 <= i < |plan[1..]| && plan[1..][i].1.Some?;
        assert plan[i + 1].1.Some?;
      }
      if exists i :: 0 <= i < |plan| && plan[i].1.Some? {
        var i :| 0 <= i < |plan| && plan[i].1.Some?;
        if i > 0 {
          assert plan[1..][i - 1].1.Some?;
        }
      }
    }
  }

  // ---------------------------------------------------------------------------
  // Lifecycle
  // ---------------------------------------------------------------------------

  /** The monitor's stop channel; closing it twice panics. */
  class Channel {
    var closed: bool

    constructor ()
      ensures !closed
    {
      closed := false;
    }
  }

  /** The cancel function of the monitor's request context. */
  class CancelFunc {
    var called: bool

    constructor ()
      ensures !called
    {
      called := false;
    }
  }

  /** What a pass of the collection loop got back from the target. */
  datatype Fetch =
    | DoFailed           // `client.Do` returned an error
    | ReadFailed         // reading the body failed
    | Body(data: Storage.Bytes)

  /** How the collection loop goes on after one pass. */
  datatype Step = Stopped | Next | Retry

  class Monitor {
    const config: MonitorConfig
    var stopper: Channel?
    var ca: CancelFunc?
    /** The requests the running collection loops issue, one loop per request. */
    var workers: seq<Request>

    constructor (config: MonitorConfig)
      ensures this.config == config && stopper == null && ca == null && workers == []
    {
      this.config := config;
      stopper, ca, workers := null, null, [];
    }

    /** The monitor runs: an open stop channel and a cancel function not yet called. */
    predicate Running()
      reads this, stopper, ca
    {
      stopper != null && !stopper.closed && ca != null && !ca.called
    }

    /**
     * The state Start leaves a fresh monitor in: running the planned requests,
     * or, when planning failed, untouched.
     */
    predicate Launched()
      reads this, stopper, ca
    {
      && MutexOk(config.sampling)
      && match RequestsFromMonitorConfig(config)
         case Ok(reqs) => Running() && workers == reqs
         case Err(_) => stopper == null && ca == null && workers == []
    }

    /**
     * Plans the requests and starts one collection loop per request under a
     * new stop channel and cancel function; if planning fails, nothing starts
     * and nothing changes. The monitor must not be running already: a second
     * Start would leave the earlier loops running beside the new ones.
     */
    method Start() returns (err: Option<string>)
      requires MutexOk(config.sampling)
      requires stopper == null || stopper.closed
      modifies this
      ensures RequestsFromMonitorConfig(config).Err? ==> err.Some? && unchanged(this)
      ensures RequestsFromMonitorConfig(config).Ok? ==>
                && err.None? && fresh(stopper) && fresh(ca) && Running()
                && workers == RequestsFromMonitorConfig(config).value
      ensures old(stopper) == null && old(ca) == null && old(workers) == [] ==>
                Launched() && (stopper != null ==> fresh(stopper) && fresh(ca))
    {
      var reqs := RequestsFromMonitorConfig(config);
      if reqs.Err? {
        return Some(reqs.msg);
      }
      ca := new CancelFunc();
      stopper := new Channel();
      workers := reqs.value;
      return None;
    }

    /**
     * Cancels the request context and closes the stop channel, whichever of
     * them exist; it never resets them, so the channel must not already be
     * closed. Before any Start it does nothing.
     */
    method Shutdown() returns (err: Option<string>)
      requires stopper != null ==> !stopper.closed
      modifies stopper, ca
      ensures err.None?
      ensures ca != null ==> ca.called
      ensures stopper != null ==> stopper.closed
    {
      if ca != null {
        ca.called := true;
      }
      if stopper != null {
        stopper.closed := true;
      }
      return None;
    }

    /**
     * `Shutdown` as evidently intended: it closes the stop channel only while
     * it is open, so it may be called in any state, again after a Shutdown
     * included, and always leaves the monitor stopped.
     */
    method GuardedShutdown() returns (err: Option<string>)
      modifies stopper, ca
      ensures err.None?
      ensures ca != null ==> ca.called
      ensures stopper != null ==> stopper.closed
    {
      if ca != null {
        ca.called := true;
      }
      if stopper != null && !stopper.closed {
        stopper.closed := true;
      }
      return None;
    }

    /**
     * One pass of a collection loop for `req`: stop (cancelling the context)
     * once the stop channel is closed; otherwise store a fetched body with
     * `Put(start, end, req.profileType, config.name, config.labels, body)`,
     * whatever Put answers; retry the same request when the body could not be
     * read; go on after a failed request.
     */
    method CollectOnce(store: Storage.LabelBasedFileStore, req: Request, fetched: Fetch, startNano: int, endNano: int)
      returns (step: Step)
      requires stopper != null && stopper.closed ==> ca != null
      modifies store, ca
      ensures stopper != null && stopper.closed ==> step == Stopped && ca.called && unchanged(store)
      ensures !(stopper != null && stopper.closed) ==>
                && (ca != null ==> unchanged(ca))
                && (fetched.Body? ==> step == Next)
                && (fetched.ReadFailed? ==> step == Retry && unchanged(store))
                && (fetched.DoFailed? ==> step == Next && unchanged(store))
      ensures !(stopper != null && stopper.closed) && fetched.Body? ==>
                var b := Storage.BasePathOf(store.DataDir, store.IndexBy, config.labels, req.profileType, config.name);
                && (b.Err? ==> store.files == old(store.files) && store.dirs == old(store.dirs))
                && (b.Ok? ==>
                      var spec := Storage.PutSpec(Storage.Disk(old(store.files), old(store.dirs)), b.value,
                                                  startNano, endNano, fetched.data, store.Merge);
                      store.files == spec.1.files && store.dirs == spec.1.dirs)
    {
      if stopper != null && stopper.closed {
        ca.called := true;
        return Stopped;
      }
      match fetched
      case DoFailed =>
        return Next;
      case ReadFailed =>
        return Retry;
      case Body(data) =>
        var _ := store.Put(startNano, endNano, req.profileType, config.name, config.labels, data);
        return Next;
    }
  }

  /**
   * The monitor lifecycle test: a monitor with no samplers is started and
   * shut down ten times in a row, and every call succeeds.
   */
  method LifecycleTest(endpoint: string) returns (allOk: bool)
    ensures allOk
  {
    var m := new Monitor(MonitorConfig("test", endpoint, map[], NoSampling));
    NoSamplingNoRequests(m.config);
    allOk := true;
    var i := 0;
    while i < 10
      invariant m.config == MonitorConfig("test", endpoint, map[], NoSampling)
      invariant allOk
      invariant m.stopper == null || m.stopper.closed
    {
      var started := m.Start();
      var stopped := m.Shutdown();
      allOk := allOk && started.None? && stopped.None?;
      i := i + 1;
    }
  }
}
