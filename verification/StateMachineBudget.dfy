/**
 * StateMachineBudget: transmissions are spaced by the interval that a state machine advises.
 */
module StateMachineBudget {
  import opened Runtime

  /** Remaining delay after the last transmission. */
  function Delay(lastTx: Option<int>, interval: int, now: int): (d: int)
    ensures 0 <= interval && (lastTx.Some? ==> lastTx.value <= now) ==> 0 <= d <= interval
    ensures d == 0 <==> lastTx.None? || lastTx.value + interval <= now
  {
    if lastTx.None? then 0
    else if lastTx.value + interval < now then 0
    else lastTx.value + interval - now
  }

  class Budget {
    var lastTx: Option<int>

    constructor ()
      ensures lastTx == None
    {
      lastTx := None;
    }

    method GetDelay(interval: int, now: int) returns (delay: int)
      ensures delay == Delay(lastTx, interval, now)
    {
      if lastTx.Some? {
        if lastTx.value + interval < now {
          delay := 0;
        } else {
          delay := lastTx.value + interval - now;
        }
      } else {
        delay := 0;
      }
    }

    method Notify(now: int)
      modifies this
      ensures lastTx == Some(now)
    {
      lastTx := Some(now);
    }
  }
}
