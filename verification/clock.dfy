/** Machine integers of the ESP32 target and the millisecond clock.

    On the ESP32 both `int` and `unsigned long` are 32 bits wide. The clock
    (milliseconds since the scheduler started) is an `unsigned long`, so it
    wraps every 2^32 ms (about 49.7 days) and the controller measures elapsed
    time with unsigned, wrapping subtraction.
 */
module Clock {

  const Modulus: int := 0x1_0000_0000

  /** An `unsigned long` on the ESP32. */
  type U32 = x: int | 0 <= x < 0x1_0000_0000

  /** A C `int` on the ESP32. */
  type Int32 = x: int | -0x8000_0000 <= x < 0x8000_0000

  /** Unsigned 32-bit subtraction `a - b`, as C computes it: the result wraps
      modulo 2^32 instead of going negative. */
  function WrappingSub(a: U32, b: U32): (r: U32)
    ensures a >= b ==> r == a - b
    ensures a < b ==> r == a - b + Modulus
  {
    (a - b) % Modulus
  }

  /** Advancing the clock by `d` milliseconds, wrapping as the hardware counter does. */
  function Advance(t: U32, d: nat): (r: U32)
    ensures t + d < Modulus ==> r == t + d
  {
    (t + d) % Modulus
  }

  /** Wrapping subtraction measures the true elapsed time across a counter
      wrap-around, as long as fewer than 2^32 ms have passed. */
  lemma ElapsedSurvivesWrap(last: U32, d: nat)
    requires d < Modulus
    ensures WrappingSub(Advance(last, d), last) == d
  {
  }
}
