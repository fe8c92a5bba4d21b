/**
 The response envelopes of src/model.rs that the client unwraps. The records
 they carry (pool statistics, user profile, one daily reward, one worker) are
 type parameters here: their fields are floating-point and integer values
 filled in by the JSON decoder, which this model does not interpret.
 */
module Model {

  /** Every endpoint answers `{"btc": <payload>}`. */
  datatype GenericResult<T> = GenericResult(btc: T)

  /** Payload of the rewards endpoint: the list of daily rewards, in server order. */
  datatype DailyRewards<R> = DailyRewards(daily_rewards: seq<R>)

  /** Payload of the workers endpoint: workers keyed by their "user.worker" name. */
  datatype Workers<W> = Workers(workers: map<string, W>)
}
