/** Vocabulary shared by every component: optional values, the ways a call to something remote
    or durable can end, free choices and a monotonic clock. */
module Effects {

  datatype Option<+T> = None | Some(value: T)

  /** `Done` returned normally. `ReplyLost` raised although the effect took place.
      `NotDone` raised and left no effect. */
  datatype Outcome = Done | ReplyLost | NotDone {
    predicate Happened() { !NotDone? }

    predicate Raised() { !Done? }
  }

  /** How a call that answers a question ends. */
  datatype Answer = Yes | No | Raises

  /** The positions 0, 1, .., n-1 in order. */
  function Upto(n: nat): seq<nat> {
    seq(n, i requires 0 <= i < n => i)
  }

  function Min(a: real, b: real): real {
    if a < b then a else b
  }

  /** Any external choice: an interrupt, a failing query, a lost reply. */
  method Happens() returns (b: bool) {
    b := *;
  }

  method Any() returns (n: nat) {
    n := *;
  }

  /** A monotonic clock in seconds. */
  class Clock {
    var now: real
    ghost var asked: real  // all the seconds ever asked for

    /** A sleep takes at least as long as asked; `Pass(0.0)` is any moment at all. */
    method Pass(seconds: real)
      modifies this
      ensures now >= old(now) + seconds && asked == old(asked) + seconds
    {
      var late: real := *;
      asked := asked + seconds;
      now := now + seconds + (if late > 0.0 then late else 0.0);
    }
  }
}
