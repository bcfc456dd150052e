/**
 * The OTLP profile ingester (pkg/collector/ingest/ingest.go): conversion of an
 * OTLP profile's flat tables into a pprof profile, the per-process split of
 * its samples, the per-process store key, and the handler that stores each
 * converted profile and counts the rejected ones.
 *
 * The conversion's final `Write`/`Parse` round trip is taken to be the
 * identity on the serialised form (`Pprof`); `CheckValid`, `Write` and the
 * clock are parameters of the handler.
 */
module Ingest {
  import opened Wrappers
  import opened Text
  import Otlp
  import Pprof
  import Storage

  // ---------------------------------------------------------------------------
  // Function IDs
  // ---------------------------------------------------------------------------

  const MinInt32: int := -0x8000_0000
  const MaxInt32: int := 0x7fff_ffff
  const TwoTo32: int := 0x1_0000_0000
  const TwoTo64: int := 0x1_0000_0000_0000_0000

  predicate IsInt32(x: int) { MinInt32 <= x <= MaxInt32 }

  /** Go's conversion to `int32`: the value modulo 2^32, read as signed. */
  function Int32(x: int): (r: int)
    ensures IsInt32(r)
    ensures IsInt32(x) ==> r == x
  {
    var m := x % TwoTo32;
    if m > MaxInt32 then m - TwoTo32 else m
  }

  /** Go's conversion to `uint64` (and `uint64` addition): the value modulo 2^64. */
  function Uint64(x: int): (r: int)
    ensures 0 <= r < TwoTo64
    ensures 0 <= x < TwoTo64 ==> r == x
  {
    x % TwoTo64
  }

  predicate IsPow10(n: int)
    decreases if n > 0 then n else 0
  {
    n == 1 || (n >= 10 && n % 10 == 0 && IsPow10(n / 10))
  }

  /** The smallest power of ten that is at least `n`. */
  function Pow10AtLeast(n: int): (f: int)
    requires n >= 1
    ensures IsPow10(f) && n <= f
    ensures f == 1 || f / 10 < n
    decreases n
  {
    if n == 1 then 1
    else
      var g := Pow10AtLeast((n + 9) / 10);
      assert g == 1 || g == 10 * (g / 10);
      10 * g
  }

  /**
   * The multiplier of the system-name index: 10 for a string table of at
   * most 10 entries, otherwise the smallest power of ten at least its length.
   */
  function IdFactor(strTableLen: int): (f: int)
    ensures strTableLen <= 10 ==> f == 10
    ensures strTableLen > 10 ==> IsPow10(f) && strTableLen <= f && f / 10 < strTableLen
    ensures 10 <= f && strTableLen <= f
  {
    if strTableLen <= 10 then 10 else Pow10AtLeast(strTableLen)
  }

  /**
   * `uniqueFunctionIDx`: `nameIdx + factor * systemIdx + 1`, computed as the
   * code does, in 32-bit signed arithmetic that wraps, then widened to an
   * unsigned 64-bit value.
   */
  function UniqueFunctionId(strTableLen: int, nameIdx: int, systemIdx: int): (id: int)
    requires IsInt32(nameIdx) && IsInt32(systemIdx)
    ensures 0 <= id < TwoTo64
  {
    var factor := IdFactor(strTableLen);
    Uint64(Uint64(Int32(nameIdx + Int32(Int32(factor) * systemIdx))) + 1)
  }

  /** Without overflow, the ID is `nameIdx + factor * systemIdx + 1`, so at least 1. */
  lemma UniqueFunctionIdValue(strTableLen: int, nameIdx: int, systemIdx: int)
    requires IsInt32(nameIdx) && IsInt32(systemIdx)
    requires 0 <= nameIdx < strTableLen && 0 <= systemIdx
    requires nameIdx + IdFactor(strTableLen) * systemIdx <= MaxInt32
    ensures UniqueFunctionId(strTableLen, nameIdx, systemIdx) == nameIdx + IdFactor(strTableLen) * systemIdx + 1
    ensures UniqueFunctionId(strTableLen, nameIdx, systemIdx) >= 1
  {
    var f := IdFactor(strTableLen);
    WrapFree(f, nameIdx, systemIdx);
    assert UniqueFunctionId(strTableLen, nameIdx, systemIdx) == Uint64(Uint64(Int32(nameIdx + Int32(Int32(f) * systemIdx))) + 1);
  }

  /** The 32-bit steps of the ID do not wrap when the exact value fits. */
  lemma WrapFree(f: int, nameIdx: int, systemIdx: int)
    requires 1 <= f && 0 <= nameIdx && 0 <= systemIdx && nameIdx + f * systemIdx <= MaxInt32
    ensures Uint64(Uint64(Int32(nameIdx + Int32(Int32(f) * systemIdx))) + 1) == nameIdx + f * systemIdx + 1
    ensures 0 <= f * systemIdx
  {
    var prod := f * systemIdx;
    if systemIdx == 0 {
      assert Int32(f) * systemIdx == 0;
    } else {
      MulStep(f, 0, systemIdx);
      assert f <= prod;
      assert Int32(f) == f;
    }
    assert Int32(Int32(f) * systemIdx) == prod;
    assert Int32(nameIdx + prod) == nameIdx + prod;
  }

  /**
   * Distinct in-range (name, system-name) index pairs get distinct IDs, as
   * long as the arithmetic does not overflow.
   */
  lemma UniqueFunctionIdInjective(strTableLen: int, a1: int, b1: int, a2: int, b2: int)
    requires IsInt32(a1) && IsInt32(b1) && IsInt32(a2) && IsInt32(b2)
    requires 0 <= a1 < strTableLen && 0 <= b1 && a1 + IdFactor(strTableLen) * b1 <= MaxInt32
    requires 0 <= a2 < strTableLen && 0 <= b2 && a2 + IdFactor(strTableLen) * b2 <= MaxInt32
    requires (a1, b1) != (a2, b2)
    ensures UniqueFunctionId(strTableLen, a1, b1) != UniqueFunctionId(strTableLen, a2, b2)
  {
    UniqueFunctionIdValue(strTableLen, a1, b1);
    UniqueFunctionIdValue(strTableLen, a2, b2);
    DistinctDigits(IdFactor(strTableLen), a1, b1, a2, b2);
  }

  /** Base-`f` numbers with digits below `f` are equal only when their digits are. */
  lemma DistinctDigits(f: int, a1: int, b1: int, a2: int, b2: int)
    requires 0 <= a1 < f && 0 <= a2 < f && 0 <= b1 && 0 <= b2 && (a1, b1) != (a2, b2)
    ensures a1 + f * b1 != a2 + f * b2
  {
    if b1 < b2 {
      MulStep(f, b1, b2);
    } else if b2 < b1 {
      MulStep(f, b2, b1);
    }
  }

  lemma MulSucc(f: int, b: int)
    ensures f * (b + 1) == f * b + f
  {
  }

  lemma {:induction false} MulStep(f: int, b: int, c: int)
    requires 0 < f && b < c
    ensures f * b + f <= f * c
    decreases c - b
  {
    MulSucc(f, c - 1);
    if b < c - 1 {
      MulStep(f, b, c - 1);
    }
  }

  /** `isEmptyFunction`: the name, file name and system name indices are all 0. */
  predicate IsEmptyFunction(f: Otlp.Function)
  {
    f.nameStrindex == 0 && f.filenameStrindex == 0 && f.systemNameStrindex == 0
  }

  // ---------------------------------------------------------------------------
  // What Convert needs of its input
  // ---------------------------------------------------------------------------

  predicate StrIndex(p: Otlp.Profile, i: int)
  {
    0 <= i < |p.stringTable|
  }

  /**
   * A non-empty function's string lookups resolve (its indices are `int32`
   * on the wire), and its three strings are not all empty, which Convert
   * would reject with a panic.
   */
  predicate FunctionOk(p: Otlp.Profile, f: Otlp.Function)
  {
    !IsEmptyFunction(f) ==>
      && StrIndex(p, f.nameStrindex) && StrIndex(p, f.filenameStrindex) && StrIndex(p, f.systemNameStrindex)
      && IsInt32(f.nameStrindex) && IsInt32(f.systemNameStrindex)
      && !(p.stringTable[f.nameStrindex] == "" && p.stringTable[f.filenameStrindex] == ""
           && p.stringTable[f.systemNameStrindex] == "")
  }

  predicate FunctionsOk(p: Otlp.Profile)
  {
    forall i :: 0 <= i < |p.functionTable| ==> FunctionOk(p, p.functionTable[i])
  }

  predicate LinesOk(p: Otlp.Profile, lines: seq<Otlp.Line>)
  {
    forall k :: 0 <= k < |lines| ==> 0 <= lines[k].functionIndex < |p.functionTable|
  }

  /** A location's mapping index is negative (no mapping) or in the mapping table. */
  predicate LocationOk(p: Otlp.Profile, l: Otlp.Location)
  {
    l.mappingIndex < |p.mappingTable| && LinesOk(p, l.line)
  }

  /** A sample's slice of the location indices is in range and each index names a location. */
  predicate SampleOk(p: Otlp.Profile, s: Otlp.Sample)
  {
    && 0 <= s.locationsStartIndex && 0 <= s.locationsLength
    && s.locationsStartIndex + s.locationsLength <= |p.locationIndices|
    && (forall k :: s.locationsStartIndex <= k < s.locationsStartIndex + s.locationsLength ==>
                      0 <= p.locationIndices[k] < |p.locationTable|)
    && Otlp.AttributesInRange(p, s)
  }

  /** Every lookup Convert makes is in range and it reaches no panic. */
  predicate WellFormed(p: Otlp.Profile)
  {
    && (forall i :: 0 <= i < |p.sampleType| ==>
          StrIndex(p, p.sampleType[i].typeStrindex) && StrIndex(p, p.sampleType[i].unitStrindex))
    && FunctionsOk(p)
    && (forall i :: 0 <= i < |p.mappingTable| ==> StrIndex(p, p.mappingTable[i].filenameStrindex))
    && (forall i :: 0 <= i < |p.locationTable| ==> LocationOk(p, p.locationTable[i]))
    && (forall i :: 0 <= i < |p.sample| ==> SampleOk(p, p.sample[i]))
  }

  // ---------------------------------------------------------------------------
  // The converted profile
  // ---------------------------------------------------------------------------

  function ResolveValueType(p: Otlp.Profile, st: Otlp.ValueType): Pprof.ValueType
    requires StrIndex(p, st.typeStrindex) && StrIndex(p, st.unitStrindex)
  {
    Pprof.ValueType(p.stringTable[st.typeStrindex], p.stringTable[st.unitStrindex])
  }

  function ResolveFunction(p: Otlp.Profile, f: Otlp.Function): Pprof.Function
    requires FunctionOk(p, f) && !IsEmptyFunction(f)
  {
    Pprof.Function(UniqueFunctionId(|p.stringTable|, f.nameStrindex, f.systemNameStrindex),
                   p.stringTable[f.nameStrindex], p.stringTable[f.filenameStrindex],
                   p.stringTable[f.systemNameStrindex], f.startLine)
  }

  /** The function table built from the first `n` input functions: the non-empty ones, in order. */
  function KeptFunctions(p: Otlp.Profile, n: nat): seq<Pprof.Function>
    requires FunctionsOk(p) && n <= |p.functionTable|
  {
    if n == 0 then []
    else
      var f := p.functionTable[n - 1];
      KeptFunctions(p, n - 1) + (if IsEmptyFunction(f) then [] else [ResolveFunction(p, f)])
  }

  /** A location's lines: those of non-empty functions, in order, each with Column set to its Line. */
  function ResolveLines(p: Otlp.Profile, lines: seq<Otlp.Line>): seq<Pprof.Line>
    requires FunctionsOk(p) && LinesOk(p, lines)
    decreases |lines|
  {
    if lines == [] then []
    else
      var l := lines[|lines| - 1];
      var f := p.functionTable[l.functionIndex];
      ResolveLines(p, lines[..|lines| - 1])
        + (if IsEmptyFunction(f) then [] else [Pprof.Line(ResolveFunction(p, f).id, l.line, l.line)])
  }

  function ResolveMapping(p: Otlp.Profile, i: int): Pprof.Mapping
    requires 0 <= i < |p.mappingTable| && StrIndex(p, p.mappingTable[i].filenameStrindex)
  {
    var m := p.mappingTable[i];
    Pprof.Mapping(i + 1, m.memoryStart, m.memoryLimit, m.fileOffset, p.stringTable[m.filenameStrindex],
                  m.hasFunctions, m.hasFilenames, m.hasLineNumbers, m.hasInlineFrames)
  }

  /** The ID a location refers to its mapping by: none (0) for a negative index. */
  function MappingId(mappingIndex: int): int
  {
    if mappingIndex >= 0 then mappingIndex + 1 else 0
  }

  function ResolveLocation(p: Otlp.Profile, i: int): Pprof.Location
    requires FunctionsOk(p) && 0 <= i < |p.locationTable| && LocationOk(p, p.locationTable[i])
  {
    var l := p.locationTable[i];
    Pprof.Location(i + 1, MappingId(l.mappingIndex), l.address, ResolveLines(p, l.line), l.isFolded)
  }

  /** A sample's stack: the IDs of `locationIndices[start : start+length]`, in order. */
  function SampleStack(p: Otlp.Profile, s: Otlp.Sample): seq<int>
    requires SampleOk(p, s)
  {
    seq(s.locationsLength, k requires 0 <= k < s.locationsLength => p.locationIndices[s.locationsStartIndex + k] + 1)
  }

  /** The profile Convert returns. */
  function Converted(p: Otlp.Profile): Pprof.Profile
    requires WellFormed(p)
  {
    Pprof.Profile(
      seq(|p.sampleType|, i requires 0 <= i < |p.sampleType| => ResolveValueType(p, p.sampleType[i])),
      seq(|p.sample|, i requires 0 <= i < |p.sample| =>
            Pprof.Sample(SampleStack(p, p.sample[i]), p.sample[i].value)),
      seq(|p.mappingTable|, i requires 0 <= i < |p.mappingTable| => ResolveMapping(p, i)),
      seq(|p.locationTable|, i requires 0 <= i < |p.locationTable| => ResolveLocation(p, i)),
      KeptFunctions(p, |p.functionTable|))
  }

  // ---------------------------------------------------------------------------
  // What the converted profile satisfies
  // ---------------------------------------------------------------------------

  /**
   * The function table holds exactly the non-empty input functions, resolved,
   * and none of them has an empty name, file name and system name at once.
   */
  lemma {:induction false} KeptFunctionsSpec(p: Otlp.Profile, n: nat)
    requires FunctionsOk(p) && n <= |p.functionTable|
    ensures forall f :: f in KeptFunctions(p, n) <==>
              exists i :: 0 <= i < n && !IsEmptyFunction(p.functionTable[i]) && f == ResolveFunction(p, p.functionTable[i])
    ensures forall f :: f in KeptFunctions(p, n) ==> !(f.name == "" && f.filename == "" && f.systemName == "")
  {
    if n > 0 {
      KeptFunctionsSpec(p, n - 1);
      forall f | f in KeptFunctions(p, n)
        ensures exists i :: 0 <= i < n && !IsEmptyFunction(p.functionTable[i]) && f == ResolveFunction(p, p.functionTable[i])
      {
        if f !in KeptFunctions(p, n - 1) {
          assert f == ResolveFunction(p, p.functionTable[n - 1]);
        }
      }
    }
  }

  /** Every line of a resolved location refers to a function of the function table, and has Column = Line. */
  lemma {:induction false} ResolveLinesSpec(p: Otlp.Profile, lines: seq<Otlp.Line>)
    requires FunctionsOk(p) && LinesOk(p, lines)
    ensures forall l :: l in ResolveLines(p, lines) ==>
              l.column == l.line && exists f :: f in KeptFunctions(p, |p.functionTable|) && f.id == l.functionId
    decreases |lines|
  {
    if lines != [] {
      ResolveLinesSpec(p, lines[..|lines| - 1]);
      var l := lines[|lines| - 1];
      var fn := p.functionTable[l.functionIndex];
      if !IsEmptyFunction(fn) {
        KeptFunctionsSpec(p, |p.functionTable|);
        assert ResolveFunction(p, fn) in KeptFunctions(p, |p.functionTable|);
      }
    }
  }

  /** The lines of a resolved location are its input lines of non-empty functions, in order. */
  lemma {:induction false} ResolveLinesCount(p: Otlp.Profile, lines: seq<Otlp.Line>)
    requires FunctionsOk(p) && LinesOk(p, lines)
    ensures |ResolveLines(p, lines)| <= |lines|
    ensures (forall k :: 0 <= k < |lines| ==> !IsEmptyFunction(p.functionTable[lines[k].functionIndex]))
            ==> |ResolveLines(p, lines)| == |lines|
    decreases |lines|
  {
    if lines != [] {
      ResolveLinesCount(p, lines[..|lines| - 1]);
    }
  }

  /**
   * Cross references of the converted profile resolve: every sample's
   * location ID `id` is `locationIndices[start + k] + 1` and names the
   * location built from that table entry; every location's mapping ID is 0
   * or names a mapping; every line names a function of the function table.
   */
  lemma ConvertedReferencesResolve(p: Otlp.Profile)
    requires WellFormed(p)
    ensures var r := Converted(p);
            && (forall j, k :: 0 <= j < |p.sample| && 0 <= k < p.sample[j].locationsLength ==>
                  var id := r.sample[j].locationIds[k];
                  && id == p.locationIndices[p.sample[j].locationsStartIndex + k] + 1
                  && 1 <= id <= |r.location| && r.location[id - 1].id == id
                  && r.location[id - 1] == ResolveLocation(p, id - 1))
            && (forall i :: 0 <= i < |r.location| ==>
                  r.location[i].id == i + 1
                  && (r.location[i].mappingId == 0
                      || (1 <= r.location[i].mappingId <= |r.mapping|
                          && r.mapping[r.location[i].mappingId - 1].id == r.location[i].mappingId)))
            && (forall i, l :: 0 <= i < |r.location| && l in r.location[i].line ==>
                  l.column == l.line && exists f :: f in r.functions && f.id == l.functionId)
  {
    forall i | 0 <= i < |p.locationTable|
      ensures forall l :: l in ResolveLines(p, p.locationTable[i].line) ==>
                l.column == l.line && exists f :: f in KeptFunctions(p, |p.functionTable|) && f.id == l.functionId
    {
      ResolveLinesSpec(p, p.locationTable[i].line);
    }
  }

  // ---------------------------------------------------------------------------
  // Convert
  // ---------------------------------------------------------------------------

  method ConvertSampleTypes(p: Otlp.Profile) returns (r: seq<Pprof.ValueType>)
    requires WellFormed(p)
    ensures |r| == |p.sampleType|
    ensures forall i :: 0 <= i < |r| ==> r[i] == ResolveValueType(p, p.sampleType[i])
  {
    r := [];
    for i := 0 to |p.sampleType|
      invariant |r| == i
      invariant forall k :: 0 <= k < i ==> r[k] == ResolveValueType(p, p.sampleType[k])
    {
      var st := p.sampleType[i];
      r := r + [Pprof.ValueType(p.stringTable[st.typeStrindex], p.stringTable[st.unitStrindex])];
    }
  }

  method ConvertFunctions(p: Otlp.Profile) returns (r: seq<Pprof.Function>)
    requires WellFormed(p)
    ensures r == KeptFunctions(p, |p.functionTable|)
  {
    r := [];
    for i := 0 to |p.functionTable|
      invariant r == KeptFunctions(p, i)
    {
      var f := p.functionTable[i];
      if IsEmptyFunction(f) {
        continue;
      }
      var id := UniqueFunctionId(|p.stringTable|, f.nameStrindex, f.systemNameStrindex);
      r := r + [Pprof.Function(id, p.stringTable[f.nameStrindex], p.stringTable[f.filenameStrindex],
                               p.stringTable[f.systemNameStrindex], f.startLine)];
    }
  }

  method ConvertMappings(p: Otlp.Profile) returns (r: seq<Pprof.Mapping>)
    requires WellFormed(p)
    ensures |r| == |p.mappingTable|
    ensures forall i :: 0 <= i < |r| ==> r[i] == ResolveMapping(p, i) && r[i].id == i + 1
  {
    r := [];
    for i := 0 to |p.mappingTable|
      invariant |r| == i
      invariant forall k :: 0 <= k < i ==> r[k] == ResolveMapping(p, k)
    {
      var m := p.mappingTable[i];
      r := r + [Pprof.Mapping(i + 1, m.memoryStart, m.memoryLimit, m.fileOffset, p.stringTable[m.filenameStrindex],
                              m.hasFunctions, m.hasFilenames, m.hasLineNumbers, m.hasInlineFrames)];
    }
  }

  method ConvertLines(p: Otlp.Profile, lines: seq<Otlp.Line>) returns (r: seq<Pprof.Line>)
    requires FunctionsOk(p) && LinesOk(p, lines)
    ensures r == ResolveLines(p, lines)
  {
    r := [];
    for k := 0 to |lines|
      invariant r == ResolveLines(p, lines[..k])
    {
      assert lines[..k + 1][..k] == lines[..k];
      var fn := p.functionTable[lines[k].functionIndex];
      if IsEmptyFunction(fn) {
        continue;
      }
      var id := UniqueFunctionId(|p.stringTable|, fn.nameStrindex, fn.systemNameStrindex);
      r := r + [Pprof.Line(id, lines[k].line, lines[k].line)];
    }
    assert lines[..|lines|] == lines;
  }

  method ConvertLocations(p: Otlp.Profile) returns (r: seq<Pprof.Location>)
    requires WellFormed(p)
    ensures |r| == |p.locationTable|
    ensures forall i :: 0 <= i < |r| ==> r[i] == ResolveLocation(p, i)
  {
    r := [];
    for i := 0 to |p.locationTable|
      invariant |r| == i
      invariant forall k :: 0 <= k < i ==> r[k] == ResolveLocation(p, k)
    {
      var l := p.locationTable[i];
      var mappingId := 0;
      if l.mappingIndex >= 0 {
        mappingId := l.mappingIndex + 1;
      }
      var lines := ConvertLines(p, l.line);
      r := r + [Pprof.Location(i + 1, mappingId, l.address, lines, l.isFolded)];
    }
  }

  method ConvertSample(p: Otlp.Profile, s: Otlp.Sample) returns (r: Pprof.Sample)
    requires SampleOk(p, s)
    ensures r.value == s.value
    ensures |r.locationIds| == s.locationsLength
    ensures forall k :: 0 <= k < |r.locationIds| ==> r.locationIds[k] == p.locationIndices[s.locationsStartIndex + k] + 1
  {
    var lIdxs := p.locationIndices[s.locationsStartIndex .. s.locationsStartIndex + s.locationsLength];
    var ids := [];
    for k := 0 to |lIdxs|
      invariant |ids| == k
      invariant forall j :: 0 <= j < k ==> ids[j] == lIdxs[j] + 1
    {
      ids := ids + [lIdxs[k] + 1];
    }
    r := Pprof.Sample(ids, s.value);
  }

  method ConvertSamples(p: Otlp.Profile) returns (r: seq<Pprof.Sample>)
    requires WellFormed(p)
    ensures |r| == |p.sample|
    ensures forall i :: 0 <= i < |r| ==> r[i] == Pprof.Sample(SampleStack(p, p.sample[i]), p.sample[i].value)
  {
    r := [];
    for i := 0 to |p.sample|
      invariant |r| == i
      invariant forall k :: 0 <= k < i ==> r[k] == Pprof.Sample(SampleStack(p, p.sample[k]), p.sample[k].value)
    {
      var s := ConvertSample(p, p.sample[i]);
      assert s.locationIds == SampleStack(p, p.sample[i]);
      r := r + [s];
    }
  }

  /** `Convert`: the OTLP profile's tables, resolved into a pprof profile. */
  method Convert(p: Otlp.Profile) returns (r: Pprof.Profile)
    requires WellFormed(p)
    ensures r == Converted(p)
  {
    var sampleTypes := ConvertSampleTypes(p);
    var functions := ConvertFunctions(p);
    var mappings := ConvertMappings(p);
    var locations := ConvertLocations(p);
    var samples := ConvertSamples(p);
    r := Pprof.Profile(sampleTypes, samples, mappings, locations, functions);
  }

  // ---------------------------------------------------------------------------
  // splitByPid
  // ---------------------------------------------------------------------------

  predicate AllAttributesInRange(p: Otlp.Profile)
  {
    forall i :: 0 <= i < |p.sample| ==> Otlp.AttributesInRange(p, p.sample[i])
  }

  /** A sample's pid: the integer value of its last `process.pid` attribute, if any. */
  function PidOf(p: Otlp.Profile, attrs: seq<int>): Option<int>
    requires forall k :: 0 <= k < |attrs| ==> 0 <= attrs[k] < |p.attributeTable|
  {
    if attrs == [] then None
    else
      var a := p.attributeTable[attrs[|attrs| - 1]];
      if a.key == "process.pid" then Some(Otlp.IntValueOf(a.value)) else PidOf(p, attrs[..|attrs| - 1])
  }

  /** The samples among the first `n` whose pid is `pid`, in sample order. */
  function SamplesWithPid(p: Otlp.Profile, pid: int, n: nat): seq<Otlp.Sample>
    requires AllAttributesInRange(p) && n <= |p.sample|
  {
    if n == 0 then []
    else
      var s := p.sample[n - 1];
      SamplesWithPid(p, pid, n - 1) + (if PidOf(p, s.attributeIndices) == Some(pid) then [s] else [])
  }

  /** The profile with its samples replaced by `ss[i]` alone, for each `i`. */
  function Copies(p: Otlp.Profile, ss: seq<Otlp.Sample>): (r: seq<Otlp.Profile>)
    ensures |r| == |ss|
    ensures forall i :: 0 <= i < |ss| ==> r[i] == p.(sample := [ss[i]])
  {
    seq(|ss|, i requires 0 <= i < |ss| => p.(sample := [ss[i]]))
  }

  /** The map `splitByPid` builds from the first `n` samples. */
  function SplitSpec(p: Otlp.Profile, n: nat): map<int, seq<Otlp.Profile>>
    requires AllAttributesInRange(p) && n <= |p.sample|
  {
    if n == 0 then map[]
    else
      var m := SplitSpec(p, n - 1);
      var s := p.sample[n - 1];
      match PidOf(p, s.attributeIndices)
      case None => m
      case Some(pid) => m[pid := (if pid in m then m[pid] else []) + [p.(sample := [s])]]
  }

  /**
   * `splitByPid` groups the samples by pid: a pid is a key exactly when some
   * sample has it, and its entry holds one single-sample copy of the profile
   * per such sample, in sample order; samples without a pid are dropped.
   */
  lemma {:induction false} SplitSpecGroups(p: Otlp.Profile, n: nat)
    requires AllAttributesInRange(p) && n <= |p.sample|
    ensures forall pid :: pid in SplitSpec(p, n) <==> SamplesWithPid(p, pid, n) != []
    ensures forall pid :: pid in SplitSpec(p, n) ==> SplitSpec(p, n)[pid] == Copies(p, SamplesWithPid(p, pid, n))
  {
    if n > 0 {
      SplitSpecGroups(p, n - 1);
      var s := p.sample[n - 1];
      forall pid
        ensures pid in SplitSpec(p, n) <==> SamplesWithPid(p, pid, n) != []
        ensures pid in SplitSpec(p, n) ==> SplitSpec(p, n)[pid] == Copies(p, SamplesWithPid(p, pid, n))
      {
        if PidOf(p, s.attributeIndices) == Some(pid) {
          CopiesSnoc(p, SamplesWithPid(p, pid, n - 1), s);
        } else {
          assert SamplesWithPid(p, pid, n) == SamplesWithPid(p, pid, n - 1);
        }
      }
    }
  }

  lemma CopiesSnoc(p: Otlp.Profile, ss: seq<Otlp.Sample>, s: Otlp.Sample)
    ensures Copies(p, ss + [s]) == Copies(p, ss) + [p.(sample := [s])]
  {
    assert Copies(p, ss + [s])[..|ss|] == Copies(p, ss);
  }

  /** Each single-sample copy keeps the attribute table, so its lookups stay in range. */
  lemma SplitSpecEntriesOk(p: Otlp.Profile, n: nat, pid: int)
    requires AllAttributesInRange(p) && n <= |p.sample| && pid in SplitSpec(p, n)
    ensures ProfilesOk(SplitSpec(p, n)[pid])
  {
    SplitSpecGroups(p, n);
    SamplesWithPidSpec(p, pid, n);
    var ss := SamplesWithPid(p, pid, n);
    forall i | 0 <= i < |ss|
      ensures Otlp.AttributesInRange(p, ss[i])
    {
      assert ss[i] in ss;
    }
  }

  /** A sample is in its pid's group exactly when it is one of the profile's samples with that pid. */
  lemma {:induction false} SamplesWithPidSpec(p: Otlp.Profile, pid: int, n: nat)
    requires AllAttributesInRange(p) && n <= |p.sample|
    ensures forall s :: s in SamplesWithPid(p, pid, n) <==>
              exists i :: 0 <= i < n && p.sample[i] == s && PidOf(p, s.attributeIndices) == Some(pid)
  {
    if n > 0 {
      SamplesWithPidSpec(p, pid, n - 1);
    }
  }

  /** `splitByPid`. */
  method SplitByPid(p: Otlp.Profile) returns (ret: map<int, seq<Otlp.Profile>>)
    requires AllAttributesInRange(p)
    ensures ret == SplitSpec(p, |p.sample|)
  {
    ret := map[];
    for i := 0 to |p.sample|
      invariant ret == SplitSpec(p, i)
    {
      var s := p.sample[i];
      var pid: Option<int> := None;
      for j := 0 to |s.attributeIndices|
        invariant pid == PidOf(p, s.attributeIndices[..j])
      {
        assert s.attributeIndices[..j + 1][..j] == s.attributeIndices[..j];
        var attr := p.attributeTable[s.attributeIndices[j]];
        if attr.key == "process.pid" {
          pid := Some(Otlp.IntValueOf(attr.value));
        }
      }
      assert s.attributeIndices[..|s.attributeIndices|] == s.attributeIndices;
      assert pid == PidOf(p, p.sample[i].attributeIndices);
      if pid.None? {
        continue;
      }
      var base := p.(sample := [s]);
      if pid.value !in ret {
        assert [] + [base] == [base];
        ret := ret[pid.value := [base]];
      } else {
        ret := ret[pid.value := ret[pid.value] + [base]];
      }
    }
  }

  // ---------------------------------------------------------------------------
  // The per-pid store key
  // ---------------------------------------------------------------------------

  /** The thread names of a sample's `thread.name` attributes, with '/' replaced by '-'. */
  function AttrThreadNames(p: Otlp.Profile, attrs: seq<int>): seq<string>
    requires forall k :: 0 <= k < |attrs| ==> 0 <= attrs[k] < |p.attributeTable|
  {
    if attrs == [] then []
    else
      var a := p.attributeTable[attrs[|attrs| - 1]];
      AttrThreadNames(p, attrs[..|attrs| - 1])
        + (if a.key == "thread.name" then [ReplaceChar(Otlp.StringValueOf(a.value), '/', '-')] else [])
  }

  function SampleThreadNames(p: Otlp.Profile, ss: seq<Otlp.Sample>): seq<string>
    requires forall i :: 0 <= i < |ss| ==> Otlp.AttributesInRange(p, ss[i])
  {
    if ss == [] then []
    else
      assert Otlp.AttributesInRange(p, ss[|ss| - 1]);
      SampleThreadNames(p, ss[..|ss| - 1]) + AttrThreadNames(p, ss[|ss| - 1].attributeIndices)
  }

  predicate ProfilesOk(profiles: seq<Otlp.Profile>)
  {
    forall i :: 0 <= i < |profiles| ==> AllAttributesInRange(profiles[i])
  }

  /** The thread names of a pid's profiles, in order, repeats included. */
  function ThreadNames(profiles: seq<Otlp.Profile>): seq<string>
    requires ProfilesOk(profiles)
  {
    if profiles == [] then []
    else
      var q := profiles[|profiles| - 1];
      assert AllAttributesInRange(q);
      ThreadNames(profiles[..|profiles| - 1]) + SampleThreadNames(q, q.sample)
  }

  lemma {:induction false} AttrThreadNamesNoSlash(p: Otlp.Profile, attrs: seq<int>)
    requires forall k :: 0 <= k < |attrs| ==> 0 <= attrs[k] < |p.attributeTable|
    ensures forall name :: name in AttrThreadNames(p, attrs) ==> '/' !in name
  {
    if attrs != [] {
      AttrThreadNamesNoSlash(p, attrs[..|attrs| - 1]);
    }
  }

  lemma {:induction false} SampleThreadNamesNoSlash(p: Otlp.Profile, ss: seq<Otlp.Sample>)
    requires forall i :: 0 <= i < |ss| ==> Otlp.AttributesInRange(p, ss[i])
    ensures forall name :: name in SampleThreadNames(p, ss) ==> '/' !in name
  {
    if ss != [] {
      SampleThreadNamesNoSlash(p, ss[..|ss| - 1]);
      AttrThreadNamesNoSlash(p, ss[|ss| - 1].attributeIndices);
    }
  }

  /** No thread name contributes a '/' to the key. */
  lemma {:induction false} ThreadNamesNoSlash(profiles: seq<Otlp.Profile>)
    requires ProfilesOk(profiles)
    ensures forall name :: name in ThreadNames(profiles) ==> '/' !in name
  {
    if profiles != [] {
      var q := profiles[|profiles| - 1];
      ThreadNamesNoSlash(profiles[..|profiles| - 1]);
      SampleThreadNamesNoSlash(q, q.sample);
    }
  }

  /** Collects the thread names of a pid's profiles, in order. */
  method CollectThreadNames(profiles: seq<Otlp.Profile>) returns (names: seq<string>)
    requires ProfilesOk(profiles)
    ensures names == ThreadNames(profiles)
  {
    names := [];
    for i := 0 to |profiles|
      invariant names == ThreadNames(profiles[..i])
    {
      assert profiles[..i + 1][..i] == profiles[..i];
      var q := profiles[i];
      var more := CollectSampleNames(q);
      names := names + more;
    }
    assert profiles[..|profiles|] == profiles;
  }

  /** The thread names of one profile's samples, in order. */
  method CollectSampleNames(q: Otlp.Profile) returns (names: seq<string>)
    requires AllAttributesInRange(q)
    ensures names == SampleThreadNames(q, q.sample)
  {
    names := [];
    for j := 0 to |q.sample|
      invariant names == SampleThreadNames(q, q.sample[..j])
    {
      assert q.sample[..j + 1][..j] == q.sample[..j];
      var more := CollectAttrNames(q, q.sample[j].attributeIndices);
      names := names + more;
    }
    assert q.sample[..|q.sample|] == q.sample;
  }

  /** The thread names among one sample's attributes, in order. */
  method CollectAttrNames(q: Otlp.Profile, attrs: seq<int>) returns (names: seq<string>)
    requires forall k :: 0 <= k < |attrs| ==> 0 <= attrs[k] < |q.attributeTable|
    ensures names == AttrThreadNames(q, attrs)
  {
    names := [];
    for k := 0 to |attrs|
      invariant names == AttrThreadNames(q, attrs[..k])
    {
      assert attrs[..k + 1][..k] == attrs[..k];
      var attr := q.attributeTable[attrs[k]];
      if attr.key == "thread.name" {
        names := names + [ReplaceChar(Otlp.StringValueOf(attr.value), '/', '-')];
      }
    }
    assert attrs[..|attrs|] == attrs;
  }

  /** `pid-<pid>-<distinct thread names, in first-occurrence order, joined by '-'>`. */
  function PidKey(pid: int, threadNames: seq<string>): string
  {
    "pid-" + FormatInt(pid) + "-" + Join(Uniq(threadNames), "-")
  }

  /** A pid key is a single path segment: it has no '/'. */
  lemma PidKeyNoSlash(pid: int, profiles: seq<Otlp.Profile>)
    requires ProfilesOk(profiles)
    ensures '/' !in PidKey(pid, ThreadNames(profiles))
  {
    var names := ThreadNames(profiles);
    ThreadNamesNoSlash(profiles);
    NoCharInJoin(Uniq(names), '-', '/');
    FormatIntAvoids(pid, '/');
    var tail := Join(Uniq(names), "-");
    assert PidKey(pid, names) == "pid-" + FormatInt(pid) + "-" + tail;
    assert forall i :: 0 <= i < |tail| ==> tail[i] != '/';
  }

  /** A pid key starts with its pid and then lists each thread name once, in first-occurrence order. */
  lemma PidKeyLayout(pid: int, names: seq<string>)
    ensures HasPrefix(PidKey(pid, names), "pid-" + FormatInt(pid) + "-")
    ensures TrimPrefix(PidKey(pid, names), "pid-" + FormatInt(pid) + "-") == Join(Uniq(names), "-")
    ensures NoDup(Uniq(names)) && forall name :: name in Uniq(names) <==> name in names
    ensures InFirstOccurrenceOrder(Uniq(names), names)
    ensures names != [] ==> HasPrefix(TrimPrefix(PidKey(pid, names), "pid-" + FormatInt(pid) + "-"), names[0])
  {
    var head := "pid-" + FormatInt(pid) + "-";
    var key := PidKey(pid, names);
    var u := Uniq(names);
    assert key == head + Join(u, "-");
    assert key[..|head|] == head;
    if names != [] {
      var tail := Join(u, "-");
      assert |u| > 1 ==> tail == u[0] + "-" + Join(u[1..], "-");
      assert tail[..|u[0]|] == u[0];
    }
  }

  /** The pid part of a key ends at the first '-' after a digit, so it is determined by the key. */
  lemma KeyHeadDetermines(a: string, b: string, x: string, y: string)
    requires |a| >= 1 && |b| >= 1
    requires forall i :: 1 <= i < |a| ==> IsDigit(a[i])
    requires forall i :: 1 <= i < |b| ==> IsDigit(b[i])
    ensures "pid-" + a + "-" + x == "pid-" + b + "-" + y ==> a == b
  {
    var k1, k2 := "pid-" + a + "-" + x, "pid-" + b + "-" + y;
    assert k1[4 + |a|] == '-' && k2[4 + |b|] == '-';
    if |a| < |b| {
      assert k2[4 + |a|] == b[|a|];
      assert k1 != k2;
    } else if |b| < |a| {
      assert k1[4 + |b|] == a[|b|];
      assert k1 != k2;
    } else if k1 == k2 {
      assert a == k1[4..4 + |a|];
      assert b == k2[4..4 + |b|];
    }
  }

  /** Different pids get different keys, whatever their thread names. */
  lemma PidKeyInjective(pid1: int, names1: seq<string>, pid2: int, names2: seq<string>)
    requires pid1 != pid2
    requires MinInt64 <= pid1 <= MaxInt64 && MinInt64 <= pid2 <= MaxInt64
    ensures PidKey(pid1, names1) != PidKey(pid2, names2)
  {
    KeyHeadDetermines(FormatInt(pid1), FormatInt(pid2), Join(Uniq(names1), "-"), Join(Uniq(names2), "-"));
    ParseFormatInt(pid1);
    ParseFormatInt(pid2);
  }

  /** The key each pid's profiles would be stored under on the per-pid path. */
  method PidKeys(p: Otlp.Profile) returns (keys: map<int, string>)
    requires AllAttributesInRange(p)
    ensures keys.Keys == SplitSpec(p, |p.sample|).Keys
    ensures forall pid :: pid in keys ==>
              ProfilesOk(SplitSpec(p, |p.sample|)[pid])
              && keys[pid] == PidKey(pid, ThreadNames(SplitSpec(p, |p.sample|)[pid]))
              && HasPrefix(keys[pid], "pid-" + FormatInt(pid) + "-") && '/' !in keys[pid]
  {
    var split := SplitByPid(p);
    forall pid | pid in split
      ensures ProfilesOk(split[pid])
    {
      SplitSpecEntriesOk(p, |p.sample|, pid);
    }
    keys := KeysOf(split);
    forall pid | pid in keys
      ensures HasPrefix(keys[pid], "pid-" + FormatInt(pid) + "-") && '/' !in keys[pid]
    {
      PidKeyLayout(pid, ThreadNames(split[pid]));
      PidKeyNoSlash(pid, split[pid]);
    }
  }

  /** The key of every pid of a split, from its profiles' thread names. */
  method KeysOf(split: map<int, seq<Otlp.Profile>>) returns (keys: map<int, string>)
    requires forall pid :: pid in split ==> ProfilesOk(split[pid])
    ensures keys == map pid | pid in split :: PidKey(pid, ThreadNames(split[pid]))
  {
    ghost var expected := map pid | pid in split :: PidKey(pid, ThreadNames(split[pid]));
    keys := map[];
    var todo := split.Keys;
    while todo != {}
      invariant todo <= split.Keys
      invariant keys.Keys == split.Keys - todo
      invariant forall pid :: pid in keys ==> keys[pid] == expected[pid]
      decreases |todo|
    {
      NonEmptyHasElement(todo);
      var pid :| pid in todo;
      var names := CollectThreadNames(split[pid]);
      keys := keys[pid := PidKey(pid, names)];
      todo := todo - {pid};
    }
  }

  // ---------------------------------------------------------------------------
  // handleEbpfCollectorProfile
  // ---------------------------------------------------------------------------

  /** The labels both ingest paths store under (keys as in the collector's labels package). */
  const HostLabels: map<string, string> := map["namespace" := "ebpf-local", "name" := "host"]

  /** The key every converted profile is merged into. */
  const AllKey: string := "all"

  predicate AllWellFormed(ps: seq<Otlp.Profile>)
  {
    forall i :: 0 <= i < |ps| ==> WellFormed(ps[i])
  }

  function ScopeProfilesOf(scopes: seq<Otlp.ScopeProfiles>): seq<Otlp.Profile>
  {
    if scopes == [] then [] else ScopeProfilesOf(scopes[..|scopes| - 1]) + scopes[|scopes| - 1].profiles
  }

  /** The profiles of a request, in the order the handler visits them. */
  function AllProfiles(rscs: seq<Otlp.ResourceProfiles>): seq<Otlp.Profile>
  {
    if rscs == [] then [] else AllProfiles(rscs[..|rscs| - 1]) + ScopeProfilesOf(rscs[|rscs| - 1].scopeProfiles)
  }

  /** Conversion leaves the profile invalid, or it cannot be serialised. */
  predicate Bad(p: Otlp.Profile, checkValid: Pprof.Profile -> Option<string>, write: Pprof.Profile -> Result<Storage.Bytes>)
    requires WellFormed(p)
  {
    checkValid(Converted(p)).Some? || write(Converted(p)).Err?
  }

  function BadCount(ps: seq<Otlp.Profile>, checkValid: Pprof.Profile -> Option<string>,
                    write: Pprof.Profile -> Result<Storage.Bytes>): nat
    requires AllWellFormed(ps)
  {
    if ps == [] then 0
    else BadCount(ps[..|ps| - 1], checkValid, write) + (if Bad(ps[|ps| - 1], checkValid, write) then 1 else 0)
  }

  /** What the handler reports back: how many profiles it rejected, and why. */
  datatype PartialSuccess = PartialSuccess(rejectedProfiles: int, errorMessage: string)

  /** Joined messages are empty exactly when there are none, provided none is empty. */
  lemma JoinNonEmpty(parts: seq<string>, sep: string)
    requires forall i :: 0 <= i < |parts| ==> parts[i] != ""
    ensures Join(parts, sep) == "" <==> parts == []
  {
    if |parts| > 1 {
      assert Join(parts, sep) == parts[0] + sep + Join(parts[1..], sep);
      assert |Join(parts, sep)| >= |parts[0]| > 0;
    }
  }

  /**
   * Where the handler is after some profiles: the disk, how many times it
   * has read the clock, and how many profiles it has rejected.
   */
  datatype Run = Run(disk: Storage.Disk, ticks: nat, rejected: nat)

  /**
   * One profile on the "all"-key path. A profile that fails its check or
   * cannot be serialised is rejected before the clock is read. Otherwise the
   * clock is read twice, for the window's start and then its end, and the
   * bytes are put under type "profile", key "all" and the host labels; the
   * profile is rejected when that Put fails.
   */
  ghost function StoreAllSpec(store: Storage.LabelBasedFileStore, r: Run, p: Otlp.Profile,
                              checkValid: Pprof.Profile -> Option<string>,
                              write: Pprof.Profile -> Result<Storage.Bytes>, clock: nat -> int): Run
    requires WellFormed(p)
  {
    if Bad(p, checkValid, write) then Run(r.disk, r.ticks, r.rejected + 1)
    else
      match Storage.BasePathOf(store.DataDir, store.IndexBy, HostLabels, "profile", AllKey)
      case Err(_) => Run(r.disk, r.ticks + 2, r.rejected + 1)
      case Ok(base) =>
        var put := Storage.PutSpec(r.disk, base, clock(r.ticks), clock(r.ticks + 1),
                                   write(Converted(p)).value, store.Merge);
        Run(put.1, r.ticks + 2, if put.0.Some? then r.rejected + 1 else r.rejected)
  }

  /** Starting from n rejections shifts one profile's outcome by n. */
  lemma StoreAllSpecShift(store: Storage.LabelBasedFileStore, d: Storage.Disk, ticks: nat, n: nat, p: Otlp.Profile,
                          checkValid: Pprof.Profile -> Option<string>,
                          write: Pprof.Profile -> Result<Storage.Bytes>, clock: nat -> int)
    requires WellFormed(p)
    ensures var s := StoreAllSpec(store, Run(d, ticks, 0), p, checkValid, write, clock);
            && s.rejected <= 1
            && StoreAllSpec(store, Run(d, ticks, n), p, checkValid, write, clock) == Run(s.disk, s.ticks, s.rejected + n)
  {
  }

  /** The handler's "all"-key path over a sequence of profiles, one after another. */
  ghost function HandleSpec(store: Storage.LabelBasedFileStore, r: Run, ps: seq<Otlp.Profile>,
                            checkValid: Pprof.Profile -> Option<string>,
                            write: Pprof.Profile -> Result<Storage.Bytes>, clock: nat -> int): Run
    requires AllWellFormed(ps)
    decreases |ps|
  {
    if ps == [] then r
    else StoreAllSpec(store, HandleSpec(store, r, ps[..|ps| - 1], checkValid, write, clock), ps[|ps| - 1],
                      checkValid, write, clock)
  }

  /**
   * Every bad profile is rejected, and no profile is rejected twice; each
   * profile that gets past serialisation ticks the clock exactly twice.
   */
  lemma {:induction false} HandleSpecCounts(store: Storage.LabelBasedFileStore, r: Run, ps: seq<Otlp.Profile>,
                                            checkValid: Pprof.Profile -> Option<string>,
                                            write: Pprof.Profile -> Result<Storage.Bytes>, clock: nat -> int)
    requires AllWellFormed(ps)
    ensures var s := HandleSpec(store, r, ps, checkValid, write, clock);
            && r.rejected + BadCount(ps, checkValid, write) <= s.rejected <= r.rejected + |ps|
            && s.ticks == r.ticks + 2 * (|ps| - BadCount(ps, checkValid, write))
    decreases |ps|
  {
    if ps != [] {
      HandleSpecCounts(store, r, ps[..|ps| - 1], checkValid, write, clock);
    }
  }

  /** The rejected count only adds up: starting from n rejections shifts the outcome by n. */
  lemma {:induction false} HandleSpecShift(store: Storage.LabelBasedFileStore, d: Storage.Disk, ticks: nat, n: nat,
                                           ps: seq<Otlp.Profile>, checkValid: Pprof.Profile -> Option<string>,
                                           write: Pprof.Profile -> Result<Storage.Bytes>, clock: nat -> int)
    requires AllWellFormed(ps)
    ensures var s := HandleSpec(store, Run(d, ticks, 0), ps, checkValid, write, clock);
            HandleSpec(store, Run(d, ticks, n), ps, checkValid, write, clock) == Run(s.disk, s.ticks, s.rejected + n)
    decreases |ps|
  {
    if ps != [] {
      HandleSpecShift(store, d, ticks, n, ps[..|ps| - 1], checkValid, write, clock);
    }
  }

  /** Handling a + b is handling a and then b from where a left off. */
  lemma {:induction false} HandleSpecAppend(store: Storage.LabelBasedFileStore, r: Run, a: seq<Otlp.Profile>,
                                            b: seq<Otlp.Profile>, checkValid: Pprof.Profile -> Option<string>,
                                            write: Pprof.Profile -> Result<Storage.Bytes>, clock: nat -> int)
    requires AllWellFormed(a) && AllWellFormed(b)
    ensures AllWellFormed(a + b)
    ensures HandleSpec(store, r, a + b, checkValid, write, clock)
         == HandleSpec(store, HandleSpec(store, r, a, checkValid, write, clock), b, checkValid, write, clock)
    decreases |b|
  {
    if b == [] {
      assert a + b == a;
    } else {
      var b' := b[..|b| - 1];
      assert (a + b)[..|a + b| - 1] == a + b';
      HandleSpecAppend(store, r, a, b', checkValid, write, clock);
    }
  }

  class OtlpIngester {
    const store: Storage.LabelBasedFileStore

    constructor (store: Storage.LabelBasedFileStore)
      ensures this.store == store
    {
      this.store := store;
    }

    /**
     * The "all"-key path for one profile: convert it, check it, serialise it
     * and merge it into the store under key "all", type "profile", reading
     * the clock (its readings numbered from `ticks`) for the window; the
     * error of the first step that fails, if any.
     */
    method StoreAll(p: Otlp.Profile, checkValid: Pprof.Profile -> Option<string>,
                    write: Pprof.Profile -> Result<Storage.Bytes>, clock: nat -> int, ticks: nat)
      returns (err: Option<string>, ticksAfter: nat)
      requires WellFormed(p)
      modifies store
      ensures err.Some? ==> err.value != ""
      ensures var s := StoreAllSpec(store, Run(Storage.Disk(old(store.files), old(store.dirs)), ticks, 0), p,
                                    checkValid, write, clock);
              Storage.Disk(store.files, store.dirs) == s.disk && ticksAfter == s.ticks && (err.Some? <==> s.rejected == 1)
    {
      var converted := Convert(p);
      var invalid := checkValid(converted);
      if invalid.Some? {
        return Some("failed to convert to pprof profile : " + invalid.value), ticks;
      }
      var b := write(converted);
      if b.Err? {
        return Some("failed to write profile to buffer: " + b.msg), ticks;
      }
      var putErr := store.Put(clock(ticks), clock(ticks + 1), "profile", AllKey, HostLabels, b.value);
      ticksAfter := ticks + 2;
      if putErr.Some? {
        return Some("failed to store profile: " + putErr.value), ticksAfter;
      }
      return None, ticksAfter;
    }

    /** The innermost loop of the handler: every profile of one scope, in order. */
    method StoreProfiles(profiles: seq<Otlp.Profile>, checkValid: Pprof.Profile -> Option<string>,
                         write: Pprof.Profile -> Result<Storage.Bytes>, clock: nat -> int, ticks: nat)
      returns (errs: seq<string>, ticksAfter: nat)
      requires AllWellFormed(profiles)
      modifies store
      ensures var s := HandleSpec(store, Run(Storage.Disk(old(store.files), old(store.dirs)), ticks, 0), profiles,
                                  checkValid, write, clock);
              Storage.Disk(store.files, store.dirs) == s.disk && ticksAfter == s.ticks && |errs| == s.rejected
      ensures forall e :: 0 <= e < |errs| ==> errs[e] != ""
    {
      ghost var start := Run(Storage.Disk(store.files, store.dirs), ticks, 0);
      errs, ticksAfter := [], ticks;
      for k := 0 to |profiles|
        invariant AllWellFormed(profiles[..k])
        invariant Run(Storage.Disk(store.files, store.dirs), ticksAfter, |errs|)
               == HandleSpec(store, start, profiles[..k], checkValid, write, clock)
        invariant forall e :: 0 <= e < |errs| ==> errs[e] != ""
      {
        assert profiles[..k + 1][..k] == profiles[..k];
        ghost var before := Storage.Disk(store.files, store.dirs);
        StoreAllSpecShift(store, before, ticksAfter, |errs|, profiles[k], checkValid, write, clock);
        var err;
        err, ticksAfter := StoreAll(profiles[k], checkValid, write, clock, ticksAfter);
        if err.Some? {
          errs := errs + [err.value];
        }
      }
      assert profiles[..|profiles|] == profiles;
    }

    /** The middle loop of the handler: every scope of one resource, in order. */
    method StoreScopes(scopes: seq<Otlp.ScopeProfiles>, checkValid: Pprof.Profile -> Option<string>,
                       write: Pprof.Profile -> Result<Storage.Bytes>, clock: nat -> int, ticks: nat)
      returns (errs: seq<string>, ticksAfter: nat)
      requires forall j, k :: 0 <= j < |scopes| && 0 <= k < |scopes[j].profiles| ==> WellFormed(scopes[j].profiles[k])
      modifies store
      ensures AllWellFormed(ScopeProfilesOf(scopes))
      ensures var s := HandleSpec(store, Run(Storage.Disk(old(store.files), old(store.dirs)), ticks, 0),
                                  ScopeProfilesOf(scopes), checkValid, write, clock);
              Storage.Disk(store.files, store.dirs) == s.disk && ticksAfter == s.ticks && |errs| == s.rejected
      ensures forall e :: 0 <= e < |errs| ==> errs[e] != ""
    {
      ghost var start := Run(Storage.Disk(store.files, store.dirs), ticks, 0);
      errs, ticksAfter := [], ticks;
      for j := 0 to |scopes|
        invariant AllWellFormed(ScopeProfilesOf(scopes[..j]))
        invariant Run(Storage.Disk(store.files, store.dirs), ticksAfter, |errs|)
               == HandleSpec(store, start, ScopeProfilesOf(scopes[..j]), checkValid, write, clock)
        invariant forall e :: 0 <= e < |errs| ==> errs[e] != ""
      {
        assert scopes[..j + 1][..j] == scopes[..j];
        var profiles := scopes[j].profiles;
        ghost var before := Storage.Disk(store.files, store.dirs);
        ghost var ticksBefore := ticksAfter;
        var more;
        more, ticksAfter := StoreProfiles(profiles, checkValid, write, clock, ticksAfter);
        HandleSpecShift(store, before, ticksBefore, |errs|, profiles, checkValid, write, clock);
        HandleSpecAppend(store, start, ScopeProfilesOf(scopes[..j]), profiles, checkValid, write, clock);
        errs := errs + more;
      }
      assert scopes[..|scopes|] == scopes;
    }

    /**
     * `handleEbpfCollectorProfile`, "all"-key path: every profile of every
     * scope of every resource is stored in turn, the clock's readings
     * numbered from 0. The store ends as `HandleSpec` says; each profile that
     * fails adds one to the rejected count and one message to the error
     * message, which is empty exactly when nothing was rejected.
     */
    method HandleEbpfCollectorProfile(rscs: seq<Otlp.ResourceProfiles>, checkValid: Pprof.Profile -> Option<string>,
                                      write: Pprof.Profile -> Result<Storage.Bytes>, clock: nat -> int)
      returns (res: PartialSuccess)
      requires forall i, j, k :: (0 <= i < |rscs| && 0 <= j < |rscs[i].scopeProfiles|
                                  && 0 <= k < |rscs[i].scopeProfiles[j].profiles|)
                 ==> WellFormed(rscs[i].scopeProfiles[j].profiles[k])
      modifies store
      ensures AllWellFormed(AllProfiles(rscs))
      ensures var s := HandleSpec(store, Run(Storage.Disk(old(store.files), old(store.dirs)), 0, 0),
                                  AllProfiles(rscs), checkValid, write, clock);
              Storage.Disk(store.files, store.dirs) == s.disk && res.rejectedProfiles == s.rejected
      ensures BadCount(AllProfiles(rscs), checkValid, write) <= res.rejectedProfiles <= |AllProfiles(rscs)|
      ensures res.errorMessage == "" <==> res.rejectedProfiles == 0
    {
      ghost var start := Run(Storage.Disk(store.files, store.dirs), 0, 0);
      var errs: seq<string> := [];
      var ticks: nat := 0;
      for i := 0 to |rscs|
        invariant AllWellFormed(AllProfiles(rscs[..i]))
        invariant Run(Storage.Disk(store.files, store.dirs), ticks, |errs|)
               == HandleSpec(store, start, AllProfiles(rscs[..i]), checkValid, write, clock)
        invariant forall e :: 0 <= e < |errs| ==> errs[e] != ""
      {
        assert rscs[..i + 1][..i] == rscs[..i];
        var scopes := rscs[i].scopeProfiles;
        ghost var before := Storage.Disk(store.files, store.dirs);
        ghost var ticksBefore := ticks;
        var more;
        more, ticks := StoreScopes(scopes, checkValid, write, clock, ticks);
        HandleSpecShift(store, before, ticksBefore, |errs|, ScopeProfilesOf(scopes), checkValid, write, clock);
        HandleSpecAppend(store, start, AllProfiles(rscs[..i]), ScopeProfilesOf(scopes), checkValid, write, clock);
        errs := errs + more;
      }
      assert rscs[..|rscs|] == rscs;
      HandleSpecCounts(store, start, AllProfiles(rscs), checkValid, write, clock);
      JoinNonEmpty(errs, "\n");
      res := PartialSuccess(|errs|, Join(errs, "\n"));
    }
  }

  lemma {:induction false} BadCountAppend(a: seq<Otlp.Profile>, b: seq<Otlp.Profile>,
                                          checkValid: Pprof.Profile -> Option<string>,
                                          write: Pprof.Profile -> Result<Storage.Bytes>)
    requires AllWellFormed(a) && AllWellFormed(b)
    ensures AllWellFormed(a + b)
    ensures BadCount(a + b, checkValid, write) == BadCount(a, checkValid, write) + BadCount(b, checkValid, write)
    decreases |b|
  {
    if b == [] {
      assert a + b == a;
    } else {
      var b' := b[..|b| - 1];
      assert (a + b)[..|a + b| - 1] == a + b';
      BadCountAppend(a, b', checkValid, write);
    }
  }
}
