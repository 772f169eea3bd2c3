/** The already-loaded telemetry the replay consumes: car poses and frames. */
module Telemetry {

  /** A car's raw "lap" field: a number, or a value on which Python's int() raises. */
  datatype LapField = LapNumber(n: int) | LapUnparseable(text: string)

  /** One car's state within a frame (only the fields the modelled code reads). */
  datatype CarPose = CarPose(x: real, y: real, lap: LapField, relDist: real, dist: real, drs: int)

  /** One entry of a frame's "drivers" dictionary, in its iteration order. */
  datatype DriverEntry = DriverEntry(code: string, pose: CarPose)

  /** One time sample of the race. */
  datatype Frame = Frame(t: real, drivers: seq<DriverEntry>)
}
