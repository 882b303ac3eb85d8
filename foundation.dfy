/** The few Foundation values the adapter inspects: `NSError` and
    `NSHTTPURLResponse`. */
module Foundation {
  import opened Wrappers

  /** An `NSError`: its domain, its code and its (possibly nil) user info. */
  datatype Error = Error(domain: string, code: int, userInfo: Option<map<string, string>>)

  /** `NSURLErrorDomain` and `NSURLErrorCancelled` of the Foundation URL
      loading system: the error a request reports after `cancel()`. */
  const NSURLErrorDomain: string := "NSURLErrorDomain"
  const NSURLErrorCancelled: int := -999

  /** The test of YoutubeEngine/Classes/Helpers/Alamofire+ReactiveCocoa.swift:41:
      both the domain and the code must match. */
  predicate IsCancellation(e: Error) {
    e.domain == NSURLErrorDomain && e.code == NSURLErrorCancelled
  }

  /** The HTTP response metadata handed to the logger. */
  datatype HttpResponse = HttpResponse(statusCode: int, headers: map<string, string>)
}
