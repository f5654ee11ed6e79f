/**
 * The `ErrorBoundary` component's state machine: catching a render error,
 * the user's "Try Again" with a retry budget, the reset when `resetKeys`
 * change, and the title and message shown for an error. The boundary's
 * `NetworkError` is its own class, not the one of the API error taxonomy.
 */
module ErrorBoundaryComponent {
  import opened Wrappers
  import ApiErrors

  /** An error reaching the boundary: an instance of its local `NetworkError`, or any other `Error`. */
  datatype CaughtError = LocalNetworkError(message: string) | OtherError(name: string, message: string)
  {
    function Name(): string {
      if LocalNetworkError? then "NetworkError" else name
    }
  }

  datatype ErrorInfo = ErrorInfo(componentStack: string)

  datatype ErrorConfig = ErrorConfig(title: string, message: string)

  /** One entry of `resetKeys`: a string or a number. */
  datatype ResetKey = StrKey(s: string) | NumKey(n: int)

  const DEFAULT_RETRY_LIMIT: int := 3
  const CONNECTION_TITLE: string := "Connection Error"
  const CONNECTION_MESSAGE: string := "Please check your internet connection and try again."
  const GENERIC_TITLE: string := "Oops!"
  const GENERIC_FALLBACK_MESSAGE: string := "Something went wrong. Please try refreshing the page."

  /**
   * The heading and text shown for an error: the connection wording exactly
   * for the local network error, otherwise the error's own message, or a
   * fallback when that is empty. The text shown is never empty.
   */
  function GetErrorConfig(e: CaughtError): (c: ErrorConfig)
    ensures c.title == CONNECTION_TITLE <==> e.LocalNetworkError?
    ensures e.LocalNetworkError? ==> c.message == CONNECTION_MESSAGE
    ensures e.OtherError? ==> c.title == GENERIC_TITLE
    ensures e.OtherError? && e.message != "" ==> c.message == e.message
    ensures e.OtherError? && e.message == "" ==> c.message == GENERIC_FALLBACK_MESSAGE
    ensures c.message != ""
  {
    match e
    case LocalNetworkError(_) => ErrorConfig(CONNECTION_TITLE, CONNECTION_MESSAGE)
    case OtherError(_, message) =>
      ErrorConfig(GENERIC_TITLE, if message != "" then message else GENERIC_FALLBACK_MESSAGE)
  }

  /** `props.retryLimit ?? DEFAULT_RETRY_LIMIT`: only a missing prop falls back, so 0 stays 0. */
  function RetryLimit(retryLimit: Option<int>): (limit: int)
    ensures retryLimit.None? ==> limit == DEFAULT_RETRY_LIMIT
    ensures retryLimit.Some? ==> limit == retryLimit.value
  {
    retryLimit.GetOr(DEFAULT_RETRY_LIMIT)
  }

  /**
   * `canRetry`: whether the "Try Again" button is offered. Without the prop
   * that is for counts below 3; a given limit of 0 or less never offers it.
   */
  predicate CanRetry(retryCount: int, retryLimit: Option<int>)
    ensures retryLimit.None? ==> (CanRetry(retryCount, retryLimit) <==> retryCount < DEFAULT_RETRY_LIMIT)
    ensures retryCount >= 0 && retryLimit.Some? && retryLimit.value <= 0 ==> !CanRetry(retryCount, retryLimit)
  {
    retryCount < RetryLimit(retryLimit)
  }

  /**
   * An error of the API layer, were one thrown during rendering (the slices
   * catch them, so none is): an `Error` with its name and message, never an
   * instance of the boundary's own `NetworkError`. Whichever API variant it
   * is, the NetworkError included, it is shown under the generic title with
   * its own message, never with the connection wording.
   */
  function FromApiError(e: ApiErrors.ApiError): (c: CaughtError)
    ensures c.OtherError? && c.Name() == e.Name() && c.message == e.Message()
    ensures GetErrorConfig(c).title == GENERIC_TITLE && GetErrorConfig(c).title != CONNECTION_TITLE
    ensures e.Message() != "" ==> GetErrorConfig(c).message == e.Message()
    ensures e.Message() == "" ==> GetErrorConfig(c).message == GENERIC_FALLBACK_MESSAGE
  {
    OtherError(e.Name(), e.Message())
  }

  /**
   * The default API `NetworkError` is shown under the generic heading, with its
   * own text "Network error occurred" rather than the connection wording.
   */
  lemma DefaultApiNetworkErrorShown()
    ensures GetErrorConfig(FromApiError(ApiErrors.NewNetworkError()))
            == ErrorConfig(GENERIC_TITLE, ApiErrors.DEFAULT_NETWORK_MESSAGE)
  {
  }

  class ErrorBoundary {
    var hasError: bool
    var error: Option<CaughtError>
    var errorInfo: Option<ErrorInfo>
    var retryCount: int

    /** An error is recorded exactly while the boundary shows its error screen; details only with an error. */
    ghost predicate Valid()
      reads this
    {
      && (hasError <==> error.Some?)
      && (errorInfo.Some? ==> hasError)
      && retryCount >= 0
    }

    /** The initial state: no error, no retries yet. */
    constructor()
      ensures Valid()
      ensures !hasError && error == None && errorInfo == None && retryCount == 0
    {
      hasError, error, errorInfo, retryCount := false, None, None, 0;
    }

    /**
     * `getDerivedStateFromError` followed by `componentDidCatch`: the error
     * and its details are recorded, the retry count is kept. The `onError`
     * callback, when given, receives the same error and details.
     */
    method CatchError(e: CaughtError, info: ErrorInfo, hasOnError: bool) returns (reported: Option<(CaughtError, ErrorInfo)>)
      requires Valid()
      modifies this
      ensures Valid()
      ensures hasError && error == Some(e) && errorInfo == Some(info)
      ensures retryCount == old(retryCount)
      ensures reported == (if hasOnError then Some((e, info)) else None)
    {
      hasError := true;
      error := Some(e);
      errorInfo := Some(info);
      reported := if hasOnError then Some((e, info)) else None;
    }

    /** `resetErrorState`: clears the error, keeps the retry count. */
    method ResetErrorState()
      requires Valid()
      modifies this
      ensures Valid()
      ensures !hasError && error == None && errorInfo == None
      ensures retryCount == old(retryCount)
    {
      hasError := false;
      error := None;
      errorInfo := None;
    }

    /**
     * `handleReset` ("Try Again"): always spends one retry; clears the error
     * only while the spent count stays under the limit. When the error is
     * still shown afterwards, "Try Again" is no longer offered.
     */
    method HandleReset(retryLimit: Option<int>)
      requires Valid()
      modifies this
      ensures Valid()
      ensures retryCount == old(retryCount) + 1
      ensures retryCount >= RetryLimit(retryLimit) ==>
                hasError == old(hasError) && error == old(error) && errorInfo == old(errorInfo)
      ensures retryCount < RetryLimit(retryLimit) ==> !hasError && error == None && errorInfo == None
      ensures hasError ==> !CanRetry(retryCount, retryLimit)
      ensures !CanRetry(retryCount, retryLimit) <==> old(retryCount) + 1 >= RetryLimit(retryLimit)
    {
      var limit := RetryLimit(retryLimit);
      var nextRetryCount := retryCount + 1;
      if nextRetryCount >= limit {
        retryCount := nextRetryCount;
        return;
      }
      hasError := false;
      error := None;
      errorInfo := None;
      retryCount := nextRetryCount;
    }

    /**
     * `componentDidUpdate`: when both the previous and the current `resetKeys`
     * are given, differ, and an error is shown, the error is cleared; the
     * retry count is never reset.
     */
    method ComponentDidUpdate(prevKeys: Option<seq<ResetKey>>, keys: Option<seq<ResetKey>>) returns (reset: bool)
      requires Valid()
      modifies this
      ensures Valid()
      ensures reset <==> keys.Some? && prevKeys.Some? && keys.value != prevKeys.value && old(hasError)
      ensures reset ==> !hasError && error == None && errorInfo == None
      ensures !reset ==> hasError == old(hasError) && error == old(error) && errorInfo == old(errorInfo)
      ensures retryCount == old(retryCount)
    {
      reset := keys.Some? && prevKeys.Some? && keys.value != prevKeys.value && hasError;
      if reset {
        ResetErrorState();
      }
    }
  }
}
