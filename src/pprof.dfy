/**
 * The pprof profile (`github.com/google/pprof/profile`) in its serialised
 * form: a sample names its locations by ID, a location its mapping (0 for
 * none) and each line its function, as `Write` encodes them.
 */
module Pprof {
  datatype ValueType = ValueType(typ: string, unit: string)

  datatype Function = Function(id: int, name: string, filename: string, systemName: string, startLine: int)

  datatype Mapping = Mapping(
    id: int,
    start: int,
    limit: int,
    offset: int,
    file: string,
    hasFunctions: bool,
    hasFilenames: bool,
    hasLineNumbers: bool,
    hasInlineFrames: bool)

  datatype Line = Line(functionId: int, line: int, column: int)

  datatype Location = Location(id: int, mappingId: int, address: int, line: seq<Line>, isFolded: bool)

  datatype Sample = Sample(locationIds: seq<int>, value: seq<int>)

  datatype Profile = Profile(
    sampleType: seq<ValueType>,
    sample: seq<Sample>,
    mapping: seq<Mapping>,
    location: seq<Location>,
    functions: seq<Function>)
}
