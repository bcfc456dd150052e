/**
 * The part of the OpenTelemetry profiles data model (`profiles/v1development`,
 * message `Profile`) that the ingester reads: flat tables, cross-referenced by
 * integer index. Only the fields the conversion uses are kept.
 */
module Otlp {
  datatype ValueType = ValueType(typeStrindex: int, unitStrindex: int)

  datatype Function = Function(nameStrindex: int, systemNameStrindex: int, filenameStrindex: int, startLine: int)

  datatype Mapping = Mapping(
    memoryStart: int,
    memoryLimit: int,
    fileOffset: int,
    filenameStrindex: int,
    hasFunctions: bool,
    hasFilenames: bool,
    hasLineNumbers: bool,
    hasInlineFrames: bool)

  datatype Line = Line(functionIndex: int, line: int, column: int)

  datatype Location = Location(mappingIndex: int, address: int, line: seq<Line>, isFolded: bool)

  /** An attribute value; the getters of the other kinds read as zero values. */
  datatype AnyValue = StringValue(s: string) | IntValue(i: int) | OtherValue

  datatype KeyValue = KeyValue(key: string, value: AnyValue)

  datatype Sample = Sample(locationsStartIndex: int, locationsLength: int, value: seq<int>, attributeIndices: seq<int>)

  datatype Profile = Profile(
    sampleType: seq<ValueType>,
    sample: seq<Sample>,
    mappingTable: seq<Mapping>,
    locationTable: seq<Location>,
    locationIndices: seq<int>,
    functionTable: seq<Function>,
    stringTable: seq<string>,
    attributeTable: seq<KeyValue>)

  datatype ScopeProfiles = ScopeProfiles(profiles: seq<Profile>)

  datatype ResourceProfiles = ResourceProfiles(scopeProfiles: seq<ScopeProfiles>)

  /** `GetStringValue()`: "" for a value of another kind. */
  function StringValueOf(v: AnyValue): string
  {
    if v.StringValue? then v.s else ""
  }

  /** `GetIntValue()`: 0 for a value of another kind. */
  function IntValueOf(v: AnyValue): int
  {
    if v.IntValue? then v.i else 0
  }

  /** Every attribute index of the sample points into the attribute table. */
  predicate AttributesInRange(p: Profile, s: Sample)
  {
    forall k :: 0 <= k < |s.attributeIndices| ==> 0 <= s.attributeIndices[k] < |p.attributeTable|
  }
}
