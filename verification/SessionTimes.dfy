/** The session rules of a slot (`apps/kite-node/src/native_node/slot_config.rs`), shared by the live
    strategy and the backtest. */
module SessionTimes {

  /** Times are seconds of the IST day; a blackout ends before its second time. */
  datatype Rules = Rules(entriesUntil: int, squareOff: int, blackouts: seq<(int, int)>)

  /** The IST day of an epoch second, and the second within it. */
  function Day(ts: int): int {
    (ts + 19800) / 86400
  }

  function Time(ts: int): int {
    (ts + 19800) % 86400
  }

  /** New entries for a bar closing at `ts`: from 09:00 to the last entry, outside every blackout. */
  predicate EntriesAllowed(r: Rules, ts: int) {
    32400 <= Time(ts) < r.entriesUntil && forall w :: w in r.blackouts ==> !(w.0 <= Time(ts) < w.1)
  }

  /** A bar closing at `ts` ends the day's trading. */
  predicate SquareOffDue(r: Rules, ts: int) {
    Time(ts) >= r.squareOff
  }
}
