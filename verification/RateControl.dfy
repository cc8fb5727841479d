/**
 The byte counters of rate-based flow control. Clock readings are a parameter: `tick` says
 that the time unit had elapsed when the clock was read, which is the only thing the code asks.
 */
module RateControl {

  /** `firstTx` is a history variable: payload bytes transmitted for the first time since the last reset. */
  datatype Rate = Rate(sent: nat, rcvd: nat, sndrRate: nat, rcvrRate: nat, fulfilled: bool, firstTx: nat)

  function Elapse(r: Rate, tick: bool): Rate {
    if tick then r.(sent := 0, rcvd := 0, firstTx := 0) else r
  }

  /** Tests the sent counter, or, for the closed-window queue, the received one. */
  predicate Exceeded(r: Rate, send: bool) {
    if send then r.sent >= r.sndrRate else r.rcvd >= r.rcvrRate
  }

  /** Charges the sent counter, which saturates at the sender rate. */
  function Charge(r: Rate, bytes: nat): Rate {
    r.(sent := if bytes + r.sent >= r.sndrRate then r.sndrRate else r.sent + bytes)
  }

  function FirstTransmission(r: Rate, bytes: nat): Rate {
    r.(firstTx := r.firstTx + bytes)
  }

  function SetRate(r: Rate, sndrRate: nat, timeFrame: nat): Rate {
    if timeFrame != 0 && sndrRate != 0 then r.(sndrRate := sndrRate) else r
  }

  /** First transmissions are covered by the counter until it saturates, and overshoot by less than one PDU. */
  ghost predicate Bounded(r: Rate, maxPdu: nat) {
    && r.sent <= r.sndrRate
    && (r.firstTx <= r.sent || (r.sent == r.sndrRate && r.firstTx < r.sndrRate + maxPdu))
  }
}
