/** One iteration's input (sim/loop.hpp, sim/faults.hpp): operations, each with the
    faults armed before it, and the advisory switches. */
module Plans {
  import opened Ops

  datatype FaultKind =
    | PageFailRead | PageFailWrite | PageFailSync | PageFailGrow | LogFailWrite | LogFailSync

  datatype Entry = Entry(op: Op, faults: seq<FaultKind>)

  /** How an iteration ends. */
  datatype Mode = Clean | SyncCrash | Crash

  /** How keys are drawn. */
  datatype Profile = Uniform | Zipfian | Colliding

  datatype FaultProfile = NoFaults | IoFaults

  datatype Toggles = Toggles(waystone: bool, cabins: bool, accessStatistics: bool)

  datatype Plan = Plan(entries: seq<Entry>, toggles: Toggles)
}
