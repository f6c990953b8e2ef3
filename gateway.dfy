/**
  * The three request handlers of the gateway's entry point that decide something: the key the
  * rate limiter counts a client under, the limiter's 429 answer, and the 404 answer for a
  * route nothing matched.
  */
module Gateway {
  import opened Common
  import opened JsText
  import opened Http
  import ErrorHandler

  /** The first entry of an `X-Forwarded-For` list, trimmed (the client as the first proxy saw it). */
  function ForwardedClient(header: string): (c: string)
    ensures ',' !in c
    ensures c == [] || (!IsSpace(c[0]) && !IsSpace(c[|c| - 1]))
  {
    var first := Split(header, ',')[0];
    NoCommaInTrim(first);
    TrimEdgesNotSpace(first);
    Trim(first)
  }

  lemma NoCommaInTrim(s: string)
    requires ',' !in s
    ensures ',' !in Trim(s)
  {
    TrimIsInfix(s);
    var i := |s| - |TrimStart(s)|;
    var r := Trim(s);
    forall k | 0 <= k < |r|
      ensures r[k] != ','
    {
      assert r[k] == s[i + k];
    }
  }

  /** The limiter's `keyGenerator`: the forwarded client when that is not empty, else the
      socket's remote address when that is not empty, else `req.ip` as it is. */
  function RateLimitKey(forwardedFor: Option<string>, remoteAddress: Option<string>, ip: Option<string>): (k: Option<string>)
    ensures forwardedFor.Some? && ForwardedClient(forwardedFor.value) != "" ==> k == Some(ForwardedClient(forwardedFor.value))
    ensures (forwardedFor.None? || ForwardedClient(forwardedFor.value) == "") && remoteAddress.Some? && remoteAddress.value != ""
      ==> k == remoteAddress
    ensures (forwardedFor.None? || ForwardedClient(forwardedFor.value) == "") && (remoteAddress.None? || remoteAddress.value == "")
      ==> k == ip
  {
    if forwardedFor.Some? && ForwardedClient(forwardedFor.value) != "" then Some(ForwardedClient(forwardedFor.value))
    else if remoteAddress.Some? && remoteAddress.value != "" then remoteAddress
    else ip
  }

  /** Behind proxies (`client, proxy1, proxy2`), the key is the client entry with its
      surrounding white space removed, whatever the later entries and the socket say. */
  lemma KeyIsFirstForwardedEntry(client: string, proxies: string, remoteAddress: Option<string>, ip: Option<string>)
    requires ',' !in client && Trim(client) != ""
    ensures RateLimitKey(Some(client + "," + proxies), remoteAddress, ip) == Some(Trim(client))
  {
    SplitFirstField(client, proxies, ',');
    assert client + "," + proxies == client + [','] + proxies;
  }

  /** A header whose first entry is blank (`" , 10.0.0.1"`) does not name the client: the
      socket's address is used instead. */
  lemma BlankFirstEntryFallsBack(blank: string, proxies: string, remoteAddress: string, ip: Option<string>)
    requires ',' !in blank && AllSpaces(blank) && remoteAddress != ""
    ensures RateLimitKey(Some(blank + "," + proxies), Some(remoteAddress), ip) == Some(remoteAddress)
  {
    SplitFirstField(blank, proxies, ',');
    assert blank + "," + proxies == blank + [','] + proxies;
    TrimEmptyIffAllSpaces(blank);
  }

  /** The limiter's `handler`: 429 with a `Retry-After: 60` header and `retryAfter: 60` in the body. */
  function TooManyRequests(): (r: Response)
    ensures r.status == r.body.status == 429
    ensures r.retryAfterHeader == Some(HeaderText("60")) && r.body.retryAfter == Some(Seconds(60))
  {
    Response(429, Some(HeaderText("60")),
             Envelope("Rate Limit Exceeded", "Too many requests from this IP, please try again later.", 429,
                      Some(Seconds(60)), None))
  }

  /** The limiter and the error handler agree: both answer a rate-limited request with 429,
      a `Retry-After` header and the same error title. */
  lemma LimiterAgreesWithErrorHandler(e: ErrorHandler.ErrorRecord, nodeEnv: Option<string>)
    requires ErrorHandler.WellFormed(e) && ErrorHandler.Classify(e) == ErrorHandler.RateLimited
    ensures var mine, theirs := TooManyRequests(), ErrorHandler.Handle(e, nodeEnv);
      && mine.status == theirs.status
      && mine.retryAfterHeader.Some? && theirs.retryAfterHeader.Some?
      && mine.body.error == theirs.body.error
  {
    ErrorHandler.RetryAfterHeader(e, nodeEnv);
  }

  /** The final handler for an unmatched route: 404 naming the method and the path. */
  function NotFound(verb: string, path: string): (r: Response)
    ensures r.status == r.body.status == 404 && r.retryAfterHeader == None
    ensures var m := r.body.message;
      && |m| == |verb| + |path| + 17
      && m[..6] == "Route " && m[6..6 + |verb|] == verb
      && m[7 + |verb|..7 + |verb| + |path|] == path && m[|m| - 10..] == " not found"
  {
    Plain(404, "Not Found", "Route " + verb + " " + path + " not found")
  }
}
