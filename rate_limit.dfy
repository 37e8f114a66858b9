/** The rate limiters of the API (apps/api/src/lib/rate-limit.ts). Counting
    requests per window is the limiter library's job; what the source decides is
    the client key and the response sent once the limit is hit. */
module RateLimit {
  import opened Text
  import opened Wrappers
  import opened ApiUtils

  /** The client key: the text of `x-forwarded-for` up to its first comma,
      untrimmed; otherwise `x-real-ip`; otherwise "unknown". */
  function ClientKey(forwardedFor: Option<string>, realIp: Option<string>): (key: string)
    ensures forwardedFor.Some? ==>
      && ',' !in key
      && key <= forwardedFor.value
      && (|key| < |forwardedFor.value| ==> forwardedFor.value[|key|] == ',')
    ensures forwardedFor.Some? && ',' !in forwardedFor.value ==> key == forwardedFor.value
    ensures forwardedFor.None? && realIp.Some? ==> key == realIp.value
    ensures forwardedFor.None? && realIp.None? ==> key == "unknown"
  {
    if forwardedFor.Some? then Split(forwardedFor.value, ',')[0]
    else if realIp.Some? then realIp.value
    else "unknown"
  }

  /** The two limiters differ only in their budget; both use ClientKey. */
  datatype Limiter = Limiter(windowMs: nat, limit: nat)

  const AuthLimiter := Limiter(60 * 1000, 100)
  const ApiLimiter := Limiter(60 * 1000, 1000)

  /** The reply of either limiter once a client is over its budget. */
  function TooManyRequests(): (r: Reply<()>)
    ensures r.status == TOO_MANY_REQUESTS && r.body.ErrorBody?
    ensures r.body.error.code == "TOO_MANY_REQUESTS"
    ensures r.body.error.details == "Too many requests have been made. Please try again later."
    ensures r.body.error.fields == map[]
  {
    Reply(TOO_MANY_REQUESTS, ErrorResponse("TOO_MANY_REQUESTS",
      "Too many requests have been made. Please try again later.", None))
  }
}
