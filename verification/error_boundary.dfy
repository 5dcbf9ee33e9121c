/**
 * The error boundary: the error state React derives from a thrown error,
 * the details recorded when it is caught, and the bounded retry counter
 * with the retry button it drives. A page reload is reported, not performed.
 */
module ErrorBoundary {
  import opened Wrappers
  import opened JsValues

  const MaxRetries: nat := 3

  /** An `Error` as the boundary sees it. */
  datatype ErrorValue = ErrorValue(message: string, stack: Option<string>)

  /**
   * The rendered state (`hasError`, `error`, `errorInfo`) together with the
   * instance's private retry counter.
   */
  datatype Boundary = Boundary(hasError: bool, error: Option<ErrorValue>, errorInfo: Option<string>, retryCount: nat)

  const Initial := Boundary(false, None, None, 0)

  /** `getDerivedStateFromError`: the error is shown; the recorded details and the counter stay. */
  function DeriveStateFromError(b: Boundary, e: ErrorValue): (r: Boundary)
    ensures r.hasError && r.error == Some(e)
    ensures r.errorInfo == b.errorInfo && r.retryCount == b.retryCount
  {
    b.(hasError := true, error := Some(e))
  }

  /** `componentDidCatch`: the error and the component stack are recorded. */
  function DidCatch(b: Boundary, e: ErrorValue, info: string): (r: Boundary)
    ensures r.error == Some(e) && r.errorInfo == Some(info)
    ensures r.hasError == b.hasError && r.retryCount == b.retryCount
  {
    b.(error := Some(e), errorInfo := Some(info))
  }

  /** A render error reaching the boundary: the derived state first, then the catch handler. */
  function Catch(b: Boundary, e: ErrorValue, info: string): (r: Boundary)
    ensures r == Boundary(true, Some(e), Some(info), b.retryCount)
  {
    DidCatch(DeriveStateFromError(b, e), e, info)
  }

  /** The boundary after a retry click, and whether the page is reloaded instead. */
  datatype RetryResult = RetryResult(boundary: Boundary, reload: bool)

  /**
   * `#handleRetry`: below the limit the counter goes up by one and the error
   * state is cleared; at the limit nothing changes and the page reloads.
   */
  function Retry(b: Boundary): (r: RetryResult)
    ensures b.retryCount < MaxRetries ==>
              && !r.reload
              && r.boundary == Boundary(false, None, None, b.retryCount + 1)
    ensures b.retryCount >= MaxRetries ==> r.reload && r.boundary == b
  {
    if b.retryCount < MaxRetries then RetryResult(Boundary(false, None, None, b.retryCount + 1), false)
    else RetryResult(b, true)
  }

  /** The retry button is disabled exactly when the counter has reached the limit. */
  predicate RetryDisabled(b: Boundary) {
    b.retryCount >= MaxRetries
  }

  /** The retry button's label. */
  function RetryLabel(b: Boundary): (l: string)
    ensures RetryDisabled(b) ==> l == "Max Retries Reached"
    ensures !RetryDisabled(b) ==> l == "Retry (" + NatToString(b.retryCount) + "/3)"
  {
    if b.retryCount >= MaxRetries then "Max Retries Reached"
    else "Retry (" + NatToString(b.retryCount) + "/" + NatToString(MaxRetries) + ")"
  }

  /** The message in the fallback: the error's own message, or a fixed text when it is empty or absent. */
  function DisplayedMessage(b: Boundary): (m: string)
    ensures b.error.Some? && b.error.value.message != "" ==> m == b.error.value.message
    ensures m != ""
  {
    if b.error.Some? && b.error.value.message != "" then b.error.value.message
    else "An unexpected error occurred"
  }

  /** What can happen to a mounted boundary. */
  datatype Event = Thrown(e: ErrorValue, info: string) | RetryClicked

  function Step(b: Boundary, ev: Event): Boundary {
    match ev
    case Thrown(e, info) => Catch(b, e, info)
    case RetryClicked => Retry(b).boundary
  }

  function Run(b: Boundary, events: seq<Event>): Boundary
    decreases |events|
  {
    if events == [] then b else Run(Step(b, events[0]), events[1..])
  }

  /** The number of retry clicks in `events`. */
  function Retries(events: seq<Event>): nat
    decreases |events|
  {
    if events == [] then 0 else (if events[0].RetryClicked? then 1 else 0) + Retries(events[1..])
  }

  /**
   * Whatever happens, the counter never passes the limit and never goes
   * down, and it counts the retry clicks until the limit is reached.
   */
  lemma {:induction false} RetryCountBounded(b: Boundary, events: seq<Event>)
    requires b.retryCount <= MaxRetries
    ensures Run(b, events).retryCount <= MaxRetries
    ensures Run(b, events).retryCount >= b.retryCount
    ensures Run(b, events).retryCount == Min(MaxRetries, b.retryCount + Retries(events))
    decreases |events|
  {
    if events != [] {
      RetryCountBounded(Step(b, events[0]), events[1..]);
    }
  }

  function Min(a: nat, b: nat): nat {
    if a < b then a else b
  }

  /** From a fresh boundary, the button is disabled exactly after three retry clicks. */
  lemma DisabledAfterThreeRetries(events: seq<Event>)
    ensures RetryDisabled(Run(Initial, events)) <==> Retries(events) >= MaxRetries
  {
    RetryCountBounded(Initial, events);
  }

  /** Each retry count below the limit has its own label, and none is the disabled label. */
  lemma LabelsDistinct(a: Boundary, b: Boundary)
    requires !RetryDisabled(a) && !RetryDisabled(b) && a.retryCount != b.retryCount
    ensures RetryLabel(a) != RetryLabel(b)
    ensures RetryLabel(a) != "Max Retries Reached" && RetryLabel(b) != "Max Retries Reached"
  {
    var la, lb := RetryLabel(a), RetryLabel(b);
    assert la[0] == 'R' && lb[0] == 'R';
    assert "Max Retries Reached"[0] == 'M';
    assert la[7] == DigitChar(a.retryCount);
    assert lb[7] == DigitChar(b.retryCount);
  }
}
