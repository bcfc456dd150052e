/**
 * The collector's configuration types (pkg/config/sampler.go).
 *
 * `GlobalSamplingConfig` is a struct of pointers in Go; `DeepCopyInto` is about
 * which of those pointers are fresh, so the struct and its `SamplerConfig`s are
 * classes here. Everywhere else a sampling configuration is read, never written,
 * and the model uses its value, `Sampling`.
 */
module Config {
  import opened Wrappers

  /** The value of a `GlobalSamplingConfig`: per profile kind, `None` for a nil
      sampler pointer, `Some(seconds)` otherwise. */
  datatype Sampling = Sampling(
    allocs: Option<int>,
    block: Option<int>,
    goroutine: Option<int>,
    heap: Option<int>,
    mutex: Option<int>,
    profile: Option<int>,
    threadCrate: Option<int>,
    trace: Option<int>,
    compression: string)

  /** The zero value: every sampler nil. */
  const NoSampling: Sampling := Sampling(None, None, None, None, None, None, None, None, "")

  /** A monitor's target; a nil `Labels` map reads as the empty map. */
  datatype MonitorConfig = MonitorConfig(
    name: string,
    endpoint: string,
    labels: map<string, string>,
    sampling: Sampling)

  datatype SelfTelemetryConfig = SelfTelemetryConfig(pprofPort: int, intervalSeconds: int)

  /** `SelfTelemetry` is a pointer in Go: `None` is nil. */
  datatype CollectorConfig = CollectorConfig(
    selfTelemetry: Option<SelfTelemetryConfig>,
    monitors: seq<MonitorConfig>)

  class SamplerConfig {
    var Seconds: int

    constructor (seconds: int)
      ensures Seconds == seconds
    {
      Seconds := seconds;
    }
  }

  /** The `Seconds` behind a possibly nil sampler pointer. */
  function SecondsOf(p: SamplerConfig?): Option<int>
    reads p
  {
    if p == null then None else Some(p.Seconds)
  }

  /** `x := *p; return &x` for a non-nil p, nil for nil. */
  method CopySampler(p: SamplerConfig?) returns (q: SamplerConfig?)
    ensures SecondsOf(q) == SecondsOf(p)
    ensures q != null ==> fresh(q)
  {
    q := null;
    if p != null {
      q := new SamplerConfig(p.Seconds);
    }
  }

  class GlobalSamplingConfig {
    var Allocs: SamplerConfig?
    var Block: SamplerConfig?
    var Goroutine: SamplerConfig?
    var Heap: SamplerConfig?
    var Mutex: SamplerConfig?
    var Profile: SamplerConfig?
    var ThreadCrate: SamplerConfig?
    var Trace: SamplerConfig?
    var Compression: string

    constructor ()
      ensures View() == NoSampling
    {
      Allocs, Block, Goroutine, Heap := null, null, null, null;
      Mutex, Profile, ThreadCrate, Trace := null, null, null, null;
      Compression := "";
    }

    /** The samplers this struct points to. */
    function Samplers(): set<SamplerConfig?>
      reads this
    {
      {Allocs, Block, Goroutine, Heap, Mutex, Profile, ThreadCrate, Trace}
    }

    /** What the struct denotes: the nil-ness and `Seconds` of each sampler. */
    function View(): Sampling
      reads this, Samplers()
    {
      Sampling(SecondsOf(Allocs), SecondsOf(Block), SecondsOf(Goroutine), SecondsOf(Heap),
               SecondsOf(Mutex), SecondsOf(Profile), SecondsOf(ThreadCrate), SecondsOf(Trace),
               Compression)
    }

    /**
     * Copies this struct into `out`: the same value, with every non-nil sampler
     * a newly allocated copy, so that no sampler is shared with the source; nil
     * samplers stay nil and the source is left as it was.
     */
    method DeepCopyInto(out: GlobalSamplingConfig)
      modifies out
      ensures SecondsOf(out.Allocs) == old(SecondsOf(Allocs))
      ensures SecondsOf(out.Block) == old(SecondsOf(Block))
      ensures SecondsOf(out.Goroutine) == old(SecondsOf(Goroutine))
      ensures SecondsOf(out.Heap) == old(SecondsOf(Heap))
      ensures SecondsOf(out.Mutex) == old(SecondsOf(Mutex))
      ensures SecondsOf(out.Profile) == old(SecondsOf(Profile))
      ensures SecondsOf(out.ThreadCrate) == old(SecondsOf(ThreadCrate))
      ensures SecondsOf(out.Trace) == old(SecondsOf(Trace))
      ensures out.Compression == old(Compression)
      ensures out.Allocs != null ==> fresh(out.Allocs)
      ensures out.Block != null ==> fresh(out.Block)
      ensures out.Goroutine != null ==> fresh(out.Goroutine)
      ensures out.Heap != null ==> fresh(out.Heap)
      ensures out.Mutex != null ==> fresh(out.Mutex)
      ensures out.Profile != null ==> fresh(out.Profile)
      ensures out.ThreadCrate != null ==> fresh(out.ThreadCrate)
      ensures out.Trace != null ==> fresh(out.Trace)
      ensures out != this ==> unchanged(this)
    {
      CopyAllocsInto(out);
      CopyBlockInto(out);
      CopyGoroutineInto(out);
      CopyHeapInto(out);
      CopyMutexInto(out);
      CopyProfileInto(out);
      CopyThreadCrateInto(out);
      CopyTraceInto(out);
      out.Compression := Compression;
    }

    method CopyAllocsInto(out: GlobalSamplingConfig)
      modifies out`Allocs
      ensures SecondsOf(out.Allocs) == old(SecondsOf(Allocs))
      ensures out.Allocs != null ==> fresh(out.Allocs)
    {
      out.Allocs := CopySampler(Allocs);
    }

    method CopyBlockInto(out: GlobalSamplingConfig)
      modifies out`Block
      ensures SecondsOf(out.Block) == old(SecondsOf(Block))
      ensures out.Block != null ==> fresh(out.Block)
    {
      out.Block := CopySampler(Block);
    }

    method CopyGoroutineInto(out: GlobalSamplingConfig)
      modifies out`Goroutine
      ensures SecondsOf(out.Goroutine) == old(SecondsOf(Goroutine))
      ensures out.Goroutine != null ==> fresh(out.Goroutine)
    {
      out.Goroutine := CopySampler(Goroutine);
    }

    method CopyHeapInto(out: GlobalSamplingConfig)
      modifies out`Heap
      ensures SecondsOf(out.Heap) == old(SecondsOf(Heap))
      ensures out.Heap != null ==> fresh(out.Heap)
    {
      out.Heap := CopySampler(Heap);
    }

    method CopyMutexInto(out: GlobalSamplingConfig)
      modifies out`Mutex
      ensures SecondsOf(out.Mutex) == old(SecondsOf(Mutex))
      ensures out.Mutex != null ==> fresh(out.Mutex)
    {
      out.Mutex := CopySampler(Mutex);
    }

    method CopyProfileInto(out: GlobalSamplingConfig)
      modifies out`Profile
      ensures SecondsOf(out.Profile) == old(SecondsOf(Profile))
      ensures out.Profile != null ==> fresh(out.Profile)
    {
      out.Profile := CopySampler(Profile);
    }

    method CopyThreadCrateInto(out: GlobalSamplingConfig)
      modifies out`ThreadCrate
      ensures SecondsOf(out.ThreadCrate) == old(SecondsOf(ThreadCrate))
      ensures out.ThreadCrate != null ==> fresh(out.ThreadCrate)
    {
      out.ThreadCrate := CopySampler(ThreadCrate);
    }

    method CopyTraceInto(out: GlobalSamplingConfig)
      modifies out`Trace
      ensures SecondsOf(out.Trace) == old(SecondsOf(Trace))
      ensures out.Trace != null ==> fresh(out.Trace)
    {
      out.Trace := CopySampler(Trace);
    }
  }
}
