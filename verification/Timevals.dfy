/** `struct timeval` with the comparison and arithmetic macros of <sys/time.h>,
    and the fact the whole timer code rests on: on normalised values they are
    exactly the order, sum and difference of microseconds. */
module Timevals {

  const USEC_PER_SEC := 1_000_000

  datatype Timeval = Timeval(sec: int, usec: int)

  ghost predicate Normal(t: Timeval) {
    0 <= t.usec < USEC_PER_SEC
  }

  /** The number of microseconds a timeval stands for. */
  function Micros(t: Timeval): int {
    t.sec * USEC_PER_SEC + t.usec
  }

  /** timercmp(a, b, >) */
  predicate Later(a: Timeval, b: Timeval) {
    if a.sec == b.sec then a.usec > b.usec else a.sec > b.sec
  }

  /** timeradd: one carry at most. */
  function TimerAdd(a: Timeval, b: Timeval): Timeval {
    if a.usec + b.usec >= USEC_PER_SEC
    then Timeval(a.sec + b.sec + 1, a.usec + b.usec - USEC_PER_SEC)
    else Timeval(a.sec + b.sec, a.usec + b.usec)
  }

  /** timersub: one borrow at most. */
  function TimerSub(a: Timeval, b: Timeval): Timeval {
    if a.usec - b.usec < 0
    then Timeval(a.sec - b.sec - 1, a.usec - b.usec + USEC_PER_SEC)
    else Timeval(a.sec - b.sec, a.usec - b.usec)
  }

  /** Normalised timevals are microseconds: the macros neither lose a carry nor
      leave the range, and a timeval is determined by its microseconds. */
  lemma TimevalIsMicros(a: Timeval, b: Timeval)
    requires Normal(a) && Normal(b)
    ensures Later(a, b) <==> Micros(a) > Micros(b)
    ensures a == b <==> Micros(a) == Micros(b)
    ensures Normal(TimerAdd(a, b)) && Micros(TimerAdd(a, b)) == Micros(a) + Micros(b)
    ensures Normal(TimerSub(a, b)) && Micros(TimerSub(a, b)) == Micros(a) - Micros(b)
  {
  }
}
