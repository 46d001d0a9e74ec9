/** The single HTTP GET each tool performs, reduced to what the tools decide:
    the request they build, the status check `raise_for_status()` makes before
    the body is read, and the two ways a call can fail after the reply has
    arrived. */
module Http {

  /** A GET request: the URL and the query parameters sent with it. */
  datatype Request = Request(url: string, params: map<string, string>)

  /** HttpError carries the status the provider answered with;
      Malformed stands for every KeyError, IndexError, TypeError or
      AttributeError raised while reading a success body. */
  datatype Error = HttpError(status: int) | Malformed

  datatype Result<+T> = Ok(value: T) | Err(error: Error)

  /** `raise_for_status()` lets a response through exactly when its status is
      in the 2xx range; every other status (1xx, 3xx, 4xx, 5xx) raises. */
  predicate IsSuccess(status: int)
  {
    200 <= status < 300
  }
}
