/**
 Properties of the classifier and the endpoints of src/client.rs that relate
 several calls, and an independent statement of the status table.
 */
module ClientLemmas {
  import opened Results
  import opened Text
  import opened Client

  /** For a status of 400 or above neither the body nor the decoder has any say in the outcome. */
  lemma ErrorStatusIgnoresBody<T>(status: u16, text1: Result<string, TransportError>,
                                  text2: Result<string, TransportError>,
                                  decode1: Decoder<T>, decode2: Decoder<T>)
    requires 400 <= status
    ensures Request(Ok(Response(status, text1)), decode1) == Request(Ok(Response(status, text2)), decode2)
    ensures Request(Ok(Response(status, text1)), decode1) == Err(StatusError(status))
  {
  }

  /** An empty body with a status below 400 is `EmptyResponse` whatever the decoder would say. */
  lemma EmptyBodyIsNeverDecoded<T>(status: u16, decode: Decoder<T>)
    requires status <= 399
    ensures Request(Ok(Response(status, Ok(""))), decode) == Err(EmptyResponse)
  {
  }

  /**
   A body carrying the invalid-token phrase is `InvalidApiKey`, even when the
   decoder would accept it. The body need not be known to be non-empty: the
   phrase does not fit in an empty body.
   */
  lemma InvalidTokenOverridesDecoder<T>(status: u16, body: string, decode: Decoder<T>)
    requires status <= 399
    requires Contains(body, InvalidTokenPhrase)
    ensures Request(Ok(Response(status, Ok(body))), decode) == Err(InvalidApiKey)
  {
  }

  /** Any other non-empty body is handed to `deserialize`, and its outcome is the request's outcome. */
  lemma DecodableBodyIsDeserialized<T>(status: u16, body: string, decode: Decoder<T>)
    requires status <= 399
    requires body != "" && !Contains(body, InvalidTokenPhrase)
    ensures Request(Ok(Response(status, Ok(body))), decode) == Deserialize(body, decode)
    ensures decode(body).Ok? ==> Request(Ok(Response(status, Ok(body))), decode) == Ok(decode(body).value)
    ensures decode(body).Err? ==>
              Request(Ok(Response(status, Ok(body))), decode) == Err(FailedToDeserialize(decode(body).error))
  {
  }

  /** The statuses that have an error of their own. */
  const NamedStatuses: map<int, Error> :=
    map[400 := BadRequest, 401 := Unauthorized, 403 := Forbidden, 404 := NotFound,
        405 := MethodNotAllowed, 429 := TooManyRequests,
        500 := InternalServerError, 501 := NotImplemented, 502 := BadGateway,
        503 := ServiceUnavailable, 504 := GatewayTimeout]

  /** The status table as a lookup: a named status, else the unhandled error of its class. */
  function ExpectedStatusError(status: int): Error
    requires 400 <= status
  {
    if status in NamedStatuses then NamedStatuses[status]
    else if status <= 499 then UnhandledClientError
    else UnhandledServerError
  }

  /** The ordered status arms agree with the lookup table on every status of 400 or above. */
  lemma StatusErrorMatchesTable(status: u16)
    requires 400 <= status
    ensures StatusError(status) == ExpectedStatusError(status)
  {
  }

  /** Every operation requests its own URL. */
  lemma UrlsDistinct(e1: Endpoint, e2: Endpoint)
    requires e1 != e2
    ensures Url(e1) != Url(e2)
  {
    assert Url(e1)[|BaseUrl|..] == Path(e1);
    assert Url(e2)[|BaseUrl|..] == Path(e2);
    if |Path(e1)| == |Path(e2)| {
      // Both lie under "/accounts/": they part at the next character.
      assert Path(e1)[10] != Path(e2)[10];
    }
  }

  /** Every URL is the base URL followed by a path that ends in "/json/btc". */
  lemma UrlShape(e: Endpoint)
    ensures |BaseUrl| < |Url(e)|
    ensures Url(e)[..|BaseUrl|] == BaseUrl
    ensures Url(e)[|Url(e)| - 9..] == "/json/btc"
  {
    var section := match e
      case PoolStatsEndpoint => "/stats"
      case UserProfileEndpoint => "/accounts/profile"
      case DailyRewardsEndpoint => "/accounts/rewards"
      case WorkersEndpoint => "/accounts/workers";
    assert Path(e) == section + "/json/btc";
    assert Url(e) == (BaseUrl + section) + "/json/btc";
  }
}
