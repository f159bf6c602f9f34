/** Job results, statuses and error codes shared by every part of the model. */
module Jobs {

  datatype Option<+T> = None | Some(value: T)

  datatype PipelineError =
    | Timeout | JobFailed | CyclicDependency | UnknownJob | NotArmed | NotOnDemand
    | Cancelled | Busy | DeadlineUnavailable | Unavailable

  /** What a job body returned. */
  datatype Result = Ok | Err(error: PipelineError)

  datatype Status =
    | Pending | Ready | Running | Awaiting
    | Done | Failed | TimedOut | WasCancelled | Skipped

  /** The status a job ends with: a cancellation and an expired deadline show, every other error is a failure. */
  function StatusOf(r: Result): (status: Status)
    ensures status == Done <==> r.Ok?
    ensures status == WasCancelled <==> r == Err(Cancelled)
    ensures status == TimedOut <==> r == Err(Timeout)
    ensures status == Failed <==> r.Err? && r.error != Cancelled && r.error != Timeout
  {
    match r
    case Ok => Done
    case Err(Cancelled) => WasCancelled
    case Err(Timeout) => TimedOut
    case Err(_) => Failed
  }

  predicate Terminal(s: Status) {
    s in {Done, Failed, TimedOut, WasCancelled, Skipped}
  }

  /** A fatal result ends the run: an error of a job that is not optional, or any cancellation. */
  predicate FatalResult(optional: bool, r: Result)
    ensures r == Err(Cancelled) ==> FatalResult(optional, r)
    ensures optional && r != Err(Cancelled) ==> !FatalResult(optional, r)
    ensures !optional ==> (FatalResult(optional, r) <==> r != Ok)
  {
    r.Err? && (!optional || r.error == Cancelled)
  }
}
