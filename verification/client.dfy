/**
 The pool API client of src/client.rs: its error type, the classifier that
 turns an HTTP status and response body into a value or an error, the
 decoder wrapper, and the four read operations.

 The network is a parameter: a `Network` is the function from URL to what
 sending a GET to that URL yields. The JSON decoder is a parameter too: any
 function from the body text to a decoded value or an error message.
 */
module Client {
  import opened Results
  import opened Text
  import Model

  /** Rust's `u16`, the type of `StatusCode::as_u16`. */
  type u16 = x: int | 0 <= x < 0x1_0000

  /** Origin of every endpoint. */
  const BaseUrl: string := "https://pool.braiins.com"

  /** Phrase the server puts in a success-status body when the API key is rejected. */
  const InvalidTokenPhrase: string := "Invalid Access Profile token"

  /** An HTTP transport failure (connect, TLS, timeout, reading the body); its details are opaque. */
  datatype TransportError = TransportError(description: string)

  /** A rejected header value; its details are opaque. */
  datatype HeaderError = HeaderError(description: string)

  /** Every failure the client reports. */
  datatype Error =
    | FailedToDeserialize(message: string)
    | ReqwestError(cause: TransportError)
    | InvalidHeaderValue(header: HeaderError)
    | EmptyResponse
    | BadResult
    | Unauthorized
    | BadRequest
    | Forbidden
    | NotFound
    | MethodNotAllowed
    | TooManyRequests
    | UnhandledClientError
    | InternalServerError
    | NotImplemented
    | BadGateway
    | ServiceUnavailable
    | GatewayTimeout
    | UnhandledServerError
    | InvalidApiKey
  {
    /** The errors that name a 4xx status. */
    predicate IsClientStatusError()
    {
      || BadRequest? || Unauthorized? || Forbidden? || NotFound?
      || MethodNotAllowed? || TooManyRequests? || UnhandledClientError?
    }

    /** The errors that name a status of 500 or above. */
    predicate IsServerStatusError()
    {
      || InternalServerError? || NotImplemented? || BadGateway?
      || ServiceUnavailable? || GatewayTimeout? || UnhandledServerError?
    }
  }

  /**
   A received response: its status, and what reading its body as text
   yields. The body is only read when the status is below 400.
   */
  datatype Response = Response(status: u16, text: Result<string, TransportError>)

  /** A JSON decoder into `T`: a value, or the decoder's error message. */
  type Decoder<!T> = string -> Result<T, string>

  /** Decodes `data`; a decoder failure becomes `FailedToDeserialize` carrying its message. */
  function Deserialize<T>(data: string, decode: Decoder<T>): (r: Result<T, Error>)
    ensures r.Ok? <==> decode(data).Ok?
    ensures r.Ok? ==> decode(data) == Ok(r.value)
    ensures r.Err? ==> r.error == FailedToDeserialize(decode(data).error)
  {
    match decode(data)
    case Ok(v) => Ok(v)
    case Err(message) => Err(FailedToDeserialize(message))
  }

  /** The error for a status of 400 or above: the arms of the status match after `0..=399`, in order. */
  function StatusError(status: u16): (e: Error)
    requires 400 <= status
    ensures e == BadRequest <==> status == 400
    ensures e == Unauthorized <==> status == 401
    ensures e == Forbidden <==> status == 403
    ensures e == NotFound <==> status == 404
    ensures e == MethodNotAllowed <==> status == 405
    ensures e == TooManyRequests <==> status == 429
    ensures e == UnhandledClientError <==>
              status == 402 || 406 <= status <= 428 || 430 <= status <= 499
    ensures e == InternalServerError <==> status == 500
    ensures e == NotImplemented <==> status == 501
    ensures e == BadGateway <==> status == 502
    ensures e == ServiceUnavailable <==> status == 503
    ensures e == GatewayTimeout <==> status == 504
    ensures e == UnhandledServerError <==> 505 <= status
    ensures e.IsClientStatusError() <==> status <= 499
    ensures e.IsServerStatusError() <==> 500 <= status
  {
    if status == 400 then BadRequest
    else if status == 401 then Unauthorized
    else if status == 402 then UnhandledClientError
    else if status == 403 then Forbidden
    else if status == 404 then NotFound
    else if status == 405 then MethodNotAllowed
    else if 406 <= status <= 428 then UnhandledClientError
    else if status == 429 then TooManyRequests
    else if 430 <= status <= 499 then UnhandledClientError
    else if status == 500 then InternalServerError
    else if status == 501 then NotImplemented
    else if status == 502 then BadGateway
    else if status == 503 then ServiceUnavailable
    else if status == 504 then GatewayTimeout
    else UnhandledServerError
  }

  /** The response was received with a status below 400 and its body was read as text. */
  predicate BodyRead(sent: Result<Response, TransportError>)
  {
    sent.Ok? && sent.value.status <= 399 && sent.value.text.Ok?
  }

  /** The body that was read. */
  function Body(sent: Result<Response, TransportError>): string
    requires BodyRead(sent)
  {
    sent.value.text.value
  }

  /** The body was read, is not empty and does not carry the invalid-token phrase: it goes to the decoder. */
  predicate Decodes(sent: Result<Response, TransportError>)
  {
    BodyRead(sent) && Body(sent) != "" && !Contains(Body(sent), InvalidTokenPhrase)
  }

  /**
   `request`: classifies the outcome of sending one GET. A transport failure
   is passed on. A status below 400 reads the body: empty gives
   `EmptyResponse`, the invalid-token phrase gives `InvalidApiKey`, anything
   else is decoded. A status of 400 or above gives the error for that status.
   */
  function Request<T>(sent: Result<Response, TransportError>, decode: Decoder<T>): (r: Result<T, Error>)
    ensures r.Ok? <==> Decodes(sent) && decode(Body(sent)).Ok?
    ensures r.Ok? ==> decode(Body(sent)) == Ok(r.value)
    ensures r == Err(EmptyResponse) <==> BodyRead(sent) && Body(sent) == ""
    ensures r == Err(InvalidApiKey) <==>
              BodyRead(sent) && Body(sent) != "" && Contains(Body(sent), InvalidTokenPhrase)
    ensures (r.Err? && r.error.FailedToDeserialize?) <==> Decodes(sent) && decode(Body(sent)).Err?
    ensures r.Err? && r.error.FailedToDeserialize? ==> r.error.message == decode(Body(sent)).error
    ensures (r.Err? && r.error.ReqwestError?) <==>
              sent.Err? || (sent.value.status <= 399 && sent.value.text.Err?)
    ensures sent.Err? ==> r == Err(ReqwestError(sent.error))
    ensures sent.Ok? && sent.value.status <= 399 && sent.value.text.Err? ==>
              r == Err(ReqwestError(sent.value.text.error))
    ensures (r.Err? && (r.error.IsClientStatusError() || r.error.IsServerStatusError())) <==>
              sent.Ok? && 400 <= sent.value.status
    ensures sent.Ok? && 400 <= sent.value.status ==> r == Err(StatusError(sent.value.status))
    ensures r.Err? ==> !r.error.BadResult? && !r.error.InvalidHeaderValue?
  {
    match sent
    case Err(cause) => Err(ReqwestError(cause))
    case Ok(response) =>
      if response.status <= 399 then
        match response.text
        case Err(cause) => Err(ReqwestError(cause))
        case Ok(body) =>
          if body == "" then Err(EmptyResponse)
          else if Contains(body, InvalidTokenPhrase) then Err(InvalidApiKey)
          else Deserialize(body, decode)
      else
        Err(StatusError(response.status))
  }

  /**
   `request` as straight-line code: the invalid-token test runs the
   character-by-character search of `FindSubstring`. It computes exactly
   what `Request` specifies.
   */
  method Classify<T>(sent: Result<Response, TransportError>, decode: Decoder<T>) returns (r: Result<T, Error>)
    ensures r == Request(sent, decode)
  {
    if sent.Err? {
      return Err(ReqwestError(sent.error));
    }
    var response := sent.value;
    if 400 <= response.status {
      return Err(StatusError(response.status));
    }
    if response.text.Err? {
      return Err(ReqwestError(response.text.error));
    }
    var body := response.text.value;
    if |body| == 0 {
      return Err(EmptyResponse);
    }
    var rejected, _ := FindSubstring(body, InvalidTokenPhrase);
    if rejected {
      return Err(InvalidApiKey);
    }
    r := Deserialize(body, decode);
  }

  /** The network as seen by one client: what a GET to each URL yields. */
  datatype Network = Network(get: string -> Result<Response, TransportError>)

  /** The four endpoints the client reads. */
  datatype Endpoint = PoolStatsEndpoint | UserProfileEndpoint | DailyRewardsEndpoint | WorkersEndpoint

  /** Path of an endpoint below `BaseUrl`. */
  function Path(endpoint: Endpoint): string
  {
    match endpoint
    case PoolStatsEndpoint => "/stats/json/btc"
    case UserProfileEndpoint => "/accounts/profile/json/btc"
    case DailyRewardsEndpoint => "/accounts/rewards/json/btc"
    case WorkersEndpoint => "/accounts/workers/json/btc"
  }

  /** The URL an operation requests. */
  function Url(endpoint: Endpoint): string
  {
    BaseUrl + Path(endpoint)
  }

  /** Sends a GET to an endpoint and classifies what comes back. */
  function Fetch<T>(client: Network, endpoint: Endpoint, decode: Decoder<T>): Result<T, Error>
  {
    Request(client.get(Url(endpoint)), decode)
  }

  /** `pool_stats`: the `btc` payload of the stats endpoint. */
  function PoolStats<P>(client: Network, decode: Decoder<Model.GenericResult<P>>): (r: Result<P, Error>)
    ensures var sent := client.get("https://pool.braiins.com/stats/json/btc");
      && (r.Ok? ==> Request(sent, decode) == Ok(Model.GenericResult(r.value)))
      && (r.Err? ==> Request(sent, decode) == Err(r.error))
  {
    assert Url(PoolStatsEndpoint) == "https://pool.braiins.com/stats/json/btc";
    Fetch(client, PoolStatsEndpoint, decode).Map((g: Model.GenericResult<P>) => g.btc)
  }

  /** `user_profile`: the `btc` payload of the profile endpoint. */
  function UserProfile<U>(client: Network, decode: Decoder<Model.GenericResult<U>>): (r: Result<U, Error>)
    ensures var sent := client.get("https://pool.braiins.com/accounts/profile/json/btc");
      && (r.Ok? ==> Request(sent, decode) == Ok(Model.GenericResult(r.value)))
      && (r.Err? ==> Request(sent, decode) == Err(r.error))
  {
    assert Url(UserProfileEndpoint) == "https://pool.braiins.com/accounts/profile/json/btc";
    Fetch(client, UserProfileEndpoint, decode).Map((g: Model.GenericResult<U>) => g.btc)
  }

  /** `daily_rewards`: the `btc.daily_rewards` list of the rewards endpoint. */
  function DailyRewards<D>(client: Network, decode: Decoder<Model.GenericResult<Model.DailyRewards<D>>>)
    : (r: Result<seq<D>, Error>)
    ensures var sent := client.get("https://pool.braiins.com/accounts/rewards/json/btc");
      && (r.Ok? ==> Request(sent, decode) == Ok(Model.GenericResult(Model.DailyRewards(r.value))))
      && (r.Err? ==> Request(sent, decode) == Err(r.error))
  {
    assert Url(DailyRewardsEndpoint) == "https://pool.braiins.com/accounts/rewards/json/btc";
    Fetch(client, DailyRewardsEndpoint, decode)
      .Map((g: Model.GenericResult<Model.DailyRewards<D>>) => g.btc.daily_rewards)
  }

  /** `workers`: the `btc.workers` map of the workers endpoint. */
  function Workers<W>(client: Network, decode: Decoder<Model.GenericResult<Model.Workers<W>>>)
    : (r: Result<map<string, W>, Error>)
    ensures var sent := client.get("https://pool.braiins.com/accounts/workers/json/btc");
      && (r.Ok? ==> Request(sent, decode) == Ok(Model.GenericResult(Model.Workers(r.value))))
      && (r.Err? ==> Request(sent, decode) == Err(r.error))
  {
    assert Url(WorkersEndpoint) == "https://pool.braiins.com/accounts/workers/json/btc";
    Fetch(client, WorkersEndpoint, decode)
      .Map((g: Model.GenericResult<Model.Workers<W>>) => g.btc.workers)
  }
}
