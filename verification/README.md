# braiinspool client: response classifier and read operations

A Dafny model of the client in `src/client.rs` of the Braiins Pool API
library. The client sends authenticated GET requests to four JSON endpoints
and turns each response into a typed value or an `Error`.

The heart of it is `request`. It takes the HTTP status and the response body
and produces exactly one outcome:

- a status from 0 to 399 reads the body. An empty body gives `EmptyResponse`.
  Otherwise a body that contains the phrase `Invalid Access Profile token`
  gives `InvalidApiKey`. Otherwise the body goes to the JSON decoder.
  `deserialize` turns a decoder failure into `FailedToDeserialize` with the
  decoder's message.
- a status of 400 or above gives an error chosen from an explicit table, and
  the body is never read.

The four operations `pool_stats`, `user_profile`, `daily_rewards` and
`workers` each request a fixed URL under `https://pool.braiins.com`. Each
then unwraps the `btc` envelope of the decoded value. For rewards and
workers it also takes one inner field.

Layout:

- `results.dfy`, module `Results`: Rust's `Result` with `map`.
- `text.dfy`, module `Text`: `str::contains` as an existential
  specification. `FindSubstring` is a character-by-character search proven
  to agree with it.
- `model.dfy`, module `Model`: the envelope structs of `src/model.rs` that
  the operations unwrap.
- `client.dfy`, module `Client`: `Error`, `Deserialize`, `StatusError`,
  `Request`, the executable `Classify`, the endpoint URLs and the four
  operations.
- `client_lemmas.dfy`, module `ClientLemmas`: properties that relate
  several calls, and the status table stated as a lookup.

Two things are parameters, because the model cannot see them:

- The network. A `Network` holds a function from a URL to what a GET of that
  URL yields: a transport failure, or a `Response` with a status and the
  outcome of reading the body as text.
- The JSON decoder (serde). It is any function `string -> Result<T, string>`.
  The record types it produces are type parameters.

`hash_rate_unit` is a plain `String` in `src/model.rs` (lines 30, 47 and
83): there is no hash-rate unit type and no unit conversion, and the pool
statistics have no `blocks` map. There is no separate configuration error
either: the outcome type is the flat `Error` enum of `src/client.rs`.

## Model

| member | source | states |
|---|---|---|
| `Client.Request` | src/client.rs:112-148 | Total over every transport outcome, u16 status and body. Success iff the status is at most 399, the body was read, is non-empty, lacks the invalid-token phrase and decodes; the value is then the decoder's. `EmptyResponse` iff the read body is empty. `InvalidApiKey` iff it is non-empty and contains the phrase. `FailedToDeserialize` iff the decoder rejects it, and it carries the decoder's message. `ReqwestError` iff sending fails, or reading the body fails under a status of at most 399. A status error iff the status is 400 or above, and then it is the table's error. Never `BadResult` or `InvalidHeaderValue`. |
| `Client.StatusError` | src/client.rs:132-146 | For statuses of 400 and above, each error's exact set of statuses. 400 BadRequest, 401 Unauthorized, 403 Forbidden, 404 NotFound, 405 MethodNotAllowed, 429 TooManyRequests. UnhandledClientError exactly for 402, 406-428 and 430-499. 500-504 each have their own error. UnhandledServerError exactly for 505 and above. The result is a client-side error iff the status is below 500. |
| `Client.Deserialize` | src/client.rs:150-158 | Succeeds iff the decoder succeeds, with the decoder's value. The only failure it produces is `FailedToDeserialize`, with the decoder's message verbatim. |
| `Client.Classify` | src/client.rs:116-147 | The straight-line classifier, which tests the body with the character search, computes exactly what `Request` specifies. |
| `Text.FindSubstring` | src/client.rs:126 | Reports `found` iff the pattern occurs somewhere in the text (existential specification). When found, the index is an occurrence and no earlier position is one. |
| `Client.PoolStats` | src/client.rs:72-79 | Requests `https://pool.braiins.com/stats/json/btc`. A success is the `btc` field of the decoded envelope. An error from the request comes back unchanged. |
| `Client.UserProfile` | src/client.rs:82-89 | Requests `https://pool.braiins.com/accounts/profile/json/btc`. A success is the `btc` field of the decoded envelope. An error comes back unchanged. |
| `Client.DailyRewards` | src/client.rs:92-99 | Requests `https://pool.braiins.com/accounts/rewards/json/btc`. A success is `btc.daily_rewards` of the decoded envelope. An error comes back unchanged. |
| `Client.Workers` | src/client.rs:102-109 | Requests `https://pool.braiins.com/accounts/workers/json/btc`. A success is `btc.workers` of the decoded envelope. An error comes back unchanged. |
| `ClientLemmas.ErrorStatusIgnoresBody` | src/client.rs:132-146 | For a status of 400 or above, any two bodies (even unreadable ones) and any two decoders give the same outcome: the status's error. |
| `ClientLemmas.EmptyBodyIsNeverDecoded` | src/client.rs:119-124 | Under a status of at most 399, an empty body is `EmptyResponse` whatever the decoder would do. |
| `ClientLemmas.InvalidTokenOverridesDecoder` | src/client.rs:126-128 | Under a status of at most 399, a body containing the phrase is `InvalidApiKey` even if it would decode. Non-emptiness need not be assumed: the phrase cannot fit in an empty body. |
| `ClientLemmas.DecodableBodyIsDeserialized` | src/client.rs:130 | Under a status of at most 399, a non-empty body without the phrase gives exactly what `deserialize` gives. A decoder success is passed through, and a decoder error `e` becomes `FailedToDeserialize(e)`. |
| `ClientLemmas.StatusErrorMatchesTable` | src/client.rs:132-146 | The ordered arms agree with an independent lookup on every status of 400 and above. The lookup holds the eleven named statuses; anything else is the unhandled error of its class. |
| `ClientLemmas.UrlsDistinct` | src/client.rs:72-109 | The four operations request four different URLs. |
| `ClientLemmas.UrlShape` | src/client.rs:16 | Every operation's URL starts with `BASE_URL` and ends in `/json/btc`. |

## Left out

- Network I/O (`req.send()`, `res.text()`, TLS, proxies, timeouts): this is the reqwest library. Its outcomes are the `get` function of `Network`, and its failures are an opaque `TransportError`.
- JSON decoding with serde, and `util::deserialize_number_from_string`: both are foreign code. The decoder is a parameter. The `f32`/`f64` fields of the records in `src/model.rs` are not modelled, so those records are type parameters.
- `Client::new` (`src/client.rs`, lines 47-62): it only installs the auth header and proxy through reqwest. The `InvalidHeaderValue` error it can raise is in `Error`, with opaque details.
- `check_tor_connection` (`src/client.rs`, lines 64-69): it queries an external service outside the pool API.
- `src/builder.rs` and `src/error.rs`: they belong to a different client type (`BraiinsPoolClient`) with its own error enum. `src/lib.rs`, `src/prelude.rs` and `examples/client.rs` only contain re-exports and wiring.
- Character encoding: `Text.Contains` works on Dafny characters rather than UTF-8 bytes. For the ASCII phrase being searched for, both give the same answer.
