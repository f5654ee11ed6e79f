/**
 * The typed errors of the API layer: `ApiError` and its two subclasses
 * `NetworkError` and `NotFoundError`, as one closed tagged datatype. Every
 * value is an `ApiError`; the variant is the subclass.
 */
module ApiErrors {
  import opened Wrappers

  /** The raw response payload (`unknown` in the source), carried as its text. */
  type Body = string

  const DEFAULT_NETWORK_MESSAGE: string := "Network error occurred"
  const NOT_FOUND_STATUS: int := 404

  datatype ApiError =
    | ApiError(msg: string, status: Option<int>, body: Option<Body>)  // `new ApiError(message, statusCode?, response?)`
    | NetworkError(networkMsg: string)                                // `new NetworkError(message = 'Network error occurred')`
    | NotFoundError(resource: string)                                 // `new NotFoundError(resource)`
  {
    /** `error.message` */
    function Message(): string {
      match this
      case ApiError(m, _, _) => m
      case NetworkError(m) => m
      case NotFoundError(r) => r + " not found"
    }

    /** `error.statusCode` */
    function StatusCode(): Option<int> {
      match this
      case ApiError(_, s, _) => s
      case NetworkError(_) => None
      case NotFoundError(_) => Some(NOT_FOUND_STATUS)
    }

    /** `error.response` */
    function Response(): Option<Body> {
      match this
      case ApiError(_, _, b) => b
      case _ => None
    }

    /** `error.name` */
    function Name(): string {
      match this
      case ApiError(_, _, _) => "ApiError"
      case NetworkError(_) => "NetworkError"
      case NotFoundError(_) => "NotFoundError"
    }
  }

  /** `new NetworkError()` */
  function NewNetworkError(): (e: ApiError)
    ensures e.Message() == DEFAULT_NETWORK_MESSAGE && e.StatusCode() == None && e.Response() == None
    ensures e.Name() == "NetworkError"
  {
    NetworkError(DEFAULT_NETWORK_MESSAGE)
  }

  /** `new NotFoundError(resource)` carries the message `<resource> not found` and status 404, and no response. */
  lemma NotFoundErrorFields(resource: string)
    ensures NotFoundError(resource).Message() == resource + " not found"
    ensures NotFoundError(resource).StatusCode() == Some(404)
    ensures NotFoundError(resource).Response() == None
    ensures NotFoundError(resource).Name() == "NotFoundError"
  {
  }

  /** `new ApiError(message, statusCode, response)` keeps all three exactly as given. */
  lemma ApiErrorFields(message: string, statusCode: Option<int>, response: Option<Body>)
    ensures ApiError(message, statusCode, response).Message() == message
    ensures ApiError(message, statusCode, response).StatusCode() == statusCode
    ensures ApiError(message, statusCode, response).Response() == response
    ensures ApiError(message, statusCode, response).Name() == "ApiError"
  {
  }

  /** The three name tags are distinct: the name alone tells the variant. */
  lemma NamesDistinguishVariants(e1: ApiError, e2: ApiError)
    ensures e1.Name() == e2.Name() <==>
              (e1.ApiError? && e2.ApiError?) || (e1.NetworkError? && e2.NetworkError?) || (e1.NotFoundError? && e2.NotFoundError?)
  {
  }
}
