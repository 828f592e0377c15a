/** The detail view's pure parts: the six-month attendance series with its
    clamp, and the choice between the fetched record and the one passed in. */
module EmployeeDetail {
  import opened Wrappers

  const Months: seq<string> := ["Jan", "Feb", "Mar", "Apr", "May", "Jun"]

  /** `Math.max(Math.min(x, 100), 75)`. */
  function Clamp(x: real): (y: real)
    ensures 75.0 <= y <= 100.0
    ensures 75.0 <= x <= 100.0 ==> y == x
    ensures x > 100.0 ==> y == 100.0
    ensures x < 75.0 ==> y == 75.0
  {
    var capped := if x < 100.0 then x else 100.0;
    if capped > 75.0 then capped else 75.0
  }

  datatype Point = Point(month: string, value: real)

  /** `generateAttendanceData(base)`: one point per month, the base plus that
      month's jitter (the random term, here an input), clamped to [75, 100].
      A missing base (null) counts as 0, as JavaScript's addition does. */
  function AttendanceData(base: Option<real>, jitter: seq<real>): (r: seq<Point>)
    requires |jitter| == |Months|
    ensures |r| == |Months|
    ensures forall i :: 0 <= i < |r| ==> r[i].month == Months[i]
    ensures forall i :: 0 <= i < |r| ==> 75.0 <= r[i].value <= 100.0
    ensures forall i :: 0 <= i < |r| ==> r[i].value == Clamp(base.GetOr(0.0) + jitter[i])
  {
    seq(|Months|, i requires 0 <= i < |Months| => Point(Months[i], Clamp(base.GetOr(0.0) + jitter[i])))
  }

  /** With the jitter in its range [-5, 5), a base between 80 and 95 is never clamped. */
  lemma MidRangeUnclamped(base: real, jitter: seq<real>)
    requires |jitter| == |Months| && 80.0 <= base <= 95.0
    requires forall i :: 0 <= i < |jitter| ==> -5.0 <= jitter[i] < 5.0
    ensures forall i :: 0 <= i < |Months| ==> AttendanceData(Some(base), jitter)[i].value == base + jitter[i]
  {
  }

  /** `data?.employee || emp`: the fetched record when there is one, else the one passed in. */
  function DisplayedEmployee<T>(fetched: Option<T>, passed: T): (e: T)
    ensures fetched.Some? ==> e == fetched.value
    ensures fetched.None? ==> e == passed
  {
    fetched.GetOr(passed)
  }
}
