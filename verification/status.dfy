/**
 * Status readings exchanged between a worker and its supervisor. Values are
 * integers in this model; the source stores boxed doubles.
 */
module StatusInfo {

  /** `StatusInfoKeys` used by the process supervisor and the recycle triggers. */
  datatype StatusKey =
    | CpuUsage
    | MemoryUsage
    | TotalThreadCount
    | AvailableWorkingThreads
    | AvailableCompletionPortThreads
    | MaxWorkingThreads
    | MaxCompletionPortThreads

  /** A `StatusInfoCollection`: at most one reading per key; a missing key reads as null. */
  type Status = map<StatusKey, int>
}
