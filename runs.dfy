/**
 * The values the dashboard works on: workflow-run records, the entries a
 * workflow group holds, and the day arithmetic on millisecond timestamps.
 */
module Runs {

  /** Length of a day in milliseconds; every day is taken to be exactly this long. */
  const Day: int := 86400000

  /**
   * `setUTCHours(0, 0, 0, 0)`: the UTC midnight at or before `t`.
   * Dafny's `%` is Euclidean, so this is also right for instants before 1970.
   */
  function Floor(t: int): (r: int)
    ensures r <= t < r + Day
    ensures r % Day == 0
  {
    t - t % Day
  }

  /** Flooring never reverses the order of two instants. */
  lemma FloorMonotone(a: int, b: int)
    requires a <= b
    ensures Floor(a) <= Floor(b)
  {
  }

  /** The midnight after a midnight is a midnight. */
  lemma NextMidnight(m: int)
    requires m % Day == 0
    ensures (m + Day) % Day == 0
  {
  }

  /** An instant within the day that starts at midnight `m` floors to `m`. */
  lemma FloorWithinDay(m: int, t: int)
    requires m % Day == 0 && m <= t < m + Day
    ensures Floor(t) == m
  {
    var r := Floor(t);
    assert m == Day * (m / Day) && r == Day * (r / Day);
  }

  /** The conclusion of a workflow run; `Absent` is the API's `null` (not finished yet). */
  datatype Conclusion =
    | Success
    | Failure
    | Cancelled
    | Skipped
    | TimedOut
    | Neutral
    | ActionRequired
    | Stale
    | StartupFailure
    | Absent

  /** A workflow-run record: its workflow name, start instant, conclusion and head branch. */
  datatype Run = Run(name: string, startedAt: int, conclusion: Conclusion, branch: string)

  /** What a workflow group holds per run: its start instant and its conclusion. */
  datatype Entry = Entry(date: int, conclusion: Conclusion)

  datatype Option<T> = None | Some(value: T)
}
